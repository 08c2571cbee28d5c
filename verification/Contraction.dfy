/** A merge the Board accepts is an exact contraction of the source onto the target. */
module Contraction {
  import opened Values
  import opened Pointers
  import opened Graph
  import opened Merge
  import opened Boards
  import opened Policy

  lemma RedirectedIds(g: Graph, s: Id, t: Id, ids: seq<Id>, x: Id)
    ensures x in Redirected(g, s, t, ids) <==> exists d :: d in ids && Redirect(g, s, t, d) == x
  {
    var redirected := Redirected(g, s, t, ids);
    if x in redirected {
      var i :| 0 <= i < |redirected| && redirected[i] == x;
      assert ids[i] in ids;
    }
    if d :| d in ids && Redirect(g, s, t, d) == x {
      var i :| 0 <= i < |ids| && ids[i] == d;
      assert redirected[i] == x;
    }
  }

  lemma RewiredIds(g: Graph, s: Id, t: Id, ids: seq<Id>, owner: Id)
    ensures (set d | d in RewireIds(g, s, t, ids, owner)) == Rewire(g, s, t, (set d | d in ids), owner)
  {
    forall x
      ensures x in RewireIds(g, s, t, ids, owner) <==> x in Rewire(g, s, t, (set d | d in ids), owner)
    {
      RewiredInOrder(g, s, t, ids, owner);
      RedirectedIds(g, s, t, ids, x);
    }
  }

  lemma MergedNode(tasks: map<Id, Task>, s: Id, t: Id, x: Id)
    requires s in tasks && t in tasks && x in tasks && OriginsResolve(GraphOf(tasks))
    ensures NodeOf(MergedTask(tasks, s, t, x)) == MergedGraph(GraphOf(tasks), s, t)[x]
  {
    var g := GraphOf(tasks);
    if x == t && x != s {
      RewiredIds(g, s, t, tasks[t].dependencies + tasks[s].dependencies, t);
      assert (set d | d in tasks[t].dependencies + tasks[s].dependencies) == g[t].dependencies + g[s].dependencies;
    } else if x != s {
      RewiredIds(g, s, t, tasks[x].dependencies, x);
    }
  }

  lemma MergeMakesGraph(b: Board, s: Id, t: Id)
    requires MergeTasks(b, s, t).Ok?
    ensures s in b.tasks && t in b.tasks && s != t && OriginsResolve(GraphOf(b.tasks))
    ensures !b.tasks[s].status.Merged? && !b.tasks[t].status.Merged?
    ensures GraphOf(MergeTasks(b, s, t).value.tasks) == MergedGraph(GraphOf(b.tasks), s, t)
  {
    var tasks' := MergeTasks(b, s, t).value.tasks;
    forall x | x in b.tasks
      ensures GraphOf(tasks')[x] == MergedGraph(GraphOf(b.tasks), s, t)[x]
    {
      MergedNode(b.tasks, s, t, x);
    }
  }

  lemma MergeablePair(tasks: map<Id, Task>, s: Id, t: Id)
    requires ValidTasks(tasks) && s in tasks && t in tasks && s != t
    requires !tasks[s].status.Merged? && !tasks[t].status.Merged?
    ensures Mergeable(GraphOf(tasks), s, t)
  {
    assert ValidTask(s, tasks[s]) && ValidTask(t, tasks[t]);
  }

  /** The graphs before and after a merge that was accepted. */
  ghost predicate AcceptedMerge(b: Board, b': Board, s: Id, t: Id) {
    ValidTasks(b.tasks) && MergeTasks(b, s, t) == Ok(b') && ValidTasks(b'.tasks)
  }

  lemma AcceptedMergeContracts(b: Board, b': Board, s: Id, t: Id)
    requires AcceptedMerge(b, b', s, t)
    ensures var g := GraphOf(b.tasks);
            Mergeable(g, s, t) && OriginsResolve(g) && GraphOf(b'.tasks) == MergedGraph(g, s, t)
            && LinesReachRoots(MergedGraph(g, s, t))
  {
    MergeMakesGraph(b, s, t);
    MergeablePair(b.tasks, s, t);
  }

  /** Ids and dependencies: every id stands for the contraction of what it stood for, and the
      edges are the image of the old edges without self-loops. */
  lemma MergeContractsEdges(b: Board, b': Board, s: Id, t: Id, x: Id, y: Id)
    requires AcceptedMerge(b, b', s, t)
    ensures x in b.tasks ==>
              && Canonical(GraphOf(b.tasks), x).Ok?
              && Canonical(GraphOf(b'.tasks), x) == Ok(Contract(s, t, Canonical(GraphOf(b.tasks), x).value))
    ensures Edge(GraphOf(b'.tasks), x, y) <==>
            x != y && exists x0, y0 :: Contract(s, t, x0) == x && Contract(s, t, y0) == y && Edge(GraphOf(b.tasks), x0, y0)
  {
    AcceptedMergeContracts(b, b', s, t);
    var g := GraphOf(b.tasks);
    if x in b.tasks {
      CanonicalContracts(g, s, t, x);
    }
    EdgesContract(g, s, t, x, y);
  }

  /** Origins: the survivor has none only if neither task had one outside the pair, and every other
      task keeps the contraction of its own. */
  lemma MergeKeepsOrigins(b: Board, b': Board, s: Id, t: Id, x: Id)
    requires AcceptedMerge(b, b', s, t)
    requires x in b.tasks && !b.tasks[x].status.Merged? && x != s
    ensures Survives(GraphOf(b.tasks), x) && OriginsResolve(GraphOf(b.tasks)) && x in b'.tasks
    ensures s in Origins(GraphOf(b.tasks)) && t in Origins(GraphOf(b.tasks))
    ensures b'.tasks[x].origin ==
            if x == t then OutsideOrigin(Origins(GraphOf(b.tasks)), s, t)
            else match Origins(GraphOf(b.tasks))[x] case None => None case Some(y) => Some(Contract(s, t, y))
  {
    AcceptedMergeContracts(b, b', s, t);
    assert ValidTask(x, b.tasks[x]);
    NewOrigin(GraphOf(b.tasks), s, t, x);
    assert GraphOf(b'.tasks)[x].origin == b'.tasks[x].origin;
  }

  /** Evidence: the survivor carries what either task had, once each, and no other task's changes. */
  lemma MergeKeepsEvidence(b: Board, b': Board, s: Id, t: Id, x: Id)
    requires MergeTasks(b, s, t) == Ok(b')
    ensures x in b'.tasks <==> x in b.tasks
    ensures x in b.tasks ==> forall ref :: ref in b'.tasks[x].evidence <==>
                                 ref in b.tasks[x].evidence || (x == t && ref in b.tasks[s].evidence)
    ensures x in b.tasks && x == t ==> forall i, j :: 0 <= i < j < |b'.tasks[x].evidence| ==> b'.tasks[x].evidence[i] != b'.tasks[x].evidence[j]
  {
    if x in b.tasks && x == t {
      var both := b.tasks[t].evidence + b.tasks[s].evidence;
      assert b'.tasks[x].evidence == Dedup(both);
      forall ref
        ensures ref in both <==> ref in b.tasks[t].evidence || ref in b.tasks[s].evidence
      {
      }
    }
  }

  /** Lines: if both tasks were in one line, every surviving task of it has the contraction of its old root. */
  lemma MergeKeepsLines(b: Board, b': Board, s: Id, t: Id, x: Id)
    requires AcceptedMerge(b, b', s, t)
    requires x in b.tasks && !b.tasks[x].status.Merged? && x != s
    ensures LineRoot(GraphOf(b.tasks), x, {}).Ok? && LineRoot(GraphOf(b'.tasks), x, {}).Ok?
    ensures var root := LineRoot(GraphOf(b.tasks), x, {});
            LineRoot(GraphOf(b.tasks), s, {}) == root && LineRoot(GraphOf(b.tasks), t, {}) == root ==>
              LineRoot(GraphOf(b'.tasks), x, {}) == Ok(Contract(s, t, root.value))
  {
    AcceptedMergeContracts(b, b', s, t);
    var g := GraphOf(b.tasks);
    assert ValidTask(x, b.tasks[x]);
    var r, n := LineEnds(g, x);
    RootsContract(g, s, t, x, n);
    if LineRoot(g, s, {}) == Ok(r) && LineRoot(g, t, {}) == Ok(r) {
      OneLineKeepsItsRoot(g, s, t, x);
    }
  }
}
