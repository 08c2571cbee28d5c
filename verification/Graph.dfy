/** The relations between tasks: merges, dependencies and origins, and the check that
    accepts a task list only when all three can be walked. */
module Graph {
  import opened Values
  import opened Pointers

  datatype Node = Node(mergedInto: Option<Id>, dependencies: set<Id>, origin: Option<Id>)

  type Graph = map<Id, Node>

  // -- Merges ----------------------------------------------------------------

  function Merges(g: Graph): Pointers {
    map x | x in g :: g[x].mergedInto
  }

  /** The surviving task an id stands for. */
  function Canonical(g: Graph, id: Id): Outcome<Id> {
    match Follow(Merges(g), id, {})
    case End(c) => Ok(c)
    case Cycle => Refused(MergedCycle)
    case Unknown => Refused(UnknownTask)
  }

  predicate Survives(g: Graph, x: Id) {
    x in g && g[x].mergedInto.None?
  }

  lemma {:induction false} FollowEndsAtEnd(p: Pointers, x: Id, seen: set<Id>)
    requires Follow(p, x, seen).End?
    ensures Follow(p, x, seen).id in p && p[Follow(p, x, seen).id].None?
    decreases p.Keys - seen
  {
    if p[x].Some? {
      FollowEndsAtEnd(p, p[x].value, seen + {x});
    }
  }

  lemma CanonicalSurvives(g: Graph, id: Id)
    ensures Canonical(g, id).Ok? ==> Survives(g, Canonical(g, id).value)
    ensures Survives(g, id) ==> Canonical(g, id) == Ok(id)
  {
    if Canonical(g, id).Ok? {
      FollowEndsAtEnd(Merges(g), id, {});
    }
  }

  predicate Resolves(g: Graph, ids: set<Id>) {
    forall x :: x in ids ==> Canonical(g, x).Ok?
  }

  // -- Origins ---------------------------------------------------------------

  /** The root of a line of work: from surviving task to the surviving task it came from. */
  function LineRoot(g: Graph, id: Id, seen: set<Id>): Outcome<Id>
    decreases g.Keys - seen
  {
    var c :- Canonical(g, id);
    CanonicalSurvives(g, id);
    if c in seen then Refused(OriginCycle)
    else match g[c].origin
      case None => Ok(c)
      case Some(o) => LineRoot(g, o, seen + {c})
  }

  predicate OriginsResolve(g: Graph) {
    forall x :: x in g && g[x].origin.Some? ==> Canonical(g, g[x].origin.value).Ok?
  }

  function Origins(g: Graph): Pointers
    requires OriginsResolve(g)
  {
    map x | x in g && g[x].mergedInto.None? ::
      match g[x].origin case None => None case Some(o) => Some(Canonical(g, o).value)
  }

  /** Walking a line is following origins between surviving tasks. */
  lemma {:induction false} LineRootFollows(g: Graph, id: Id, seen: set<Id>)
    requires OriginsResolve(g) && Canonical(g, id).Ok?
    ensures Follow(Origins(g), Canonical(g, id).value, seen) != Unknown
    ensures LineRoot(g, id, seen) ==
            match Follow(Origins(g), Canonical(g, id).value, seen)
            case End(r) => Ok(r)
            case _ => Refused(OriginCycle)
    decreases g.Keys - seen
  {
    var c := Canonical(g, id).value;
    CanonicalSurvives(g, id);
    if c !in seen && g[c].origin.Some? {
      LineRootFollows(g, g[c].origin.value, seen + {c});
    }
  }

  // -- Dependencies ----------------------------------------------------------

  /** `x` waits for the surviving task `y`. */
  predicate Edge(g: Graph, x: Id, y: Id) {
    Survives(g, x) && exists d :: d in g[x].dependencies && Canonical(g, d) == Ok(y)
  }

  predicate Path(g: Graph, p: seq<Id>) {
    forall i :: 0 <= i < |p| - 1 ==> Edge(g, p[i], p[i + 1])
  }

  predicate Cyclic(g: Graph, p: seq<Id>) {
    |p| >= 2 && Path(g, p) && p[0] == p[|p| - 1]
  }

  ghost predicate Acyclic(g: Graph) {
    forall p: seq<Id> :: !Cyclic(g, p)
  }

  ghost predicate DependenciesResolve(g: Graph) {
    forall x :: Survives(g, x) ==> Resolves(g, g[x].dependencies)
  }

  predicate LinesReachRoots(g: Graph) {
    forall x :: x in g && g[x].origin.Some? ==> g[x].origin.value in g && LineRoot(g, x, {}).Ok?
  }

  /** What the graph part of Board validation accepts. */
  ghost predicate Sound(g: Graph) {
    LinesReachRoots(g) && DependenciesResolve(g) && Acyclic(g)
  }

  // -- Depth-first check with shared visiting and visited sets ----------------

  /** Everything reachable from `done` is in it, and no cycle starts there. */
  ghost predicate Settled(g: Graph, done: set<Id>) {
    && (forall x :: x in done ==> Survives(g, x) && Resolves(g, g[x].dependencies))
    && (forall x, y :: x in done && Edge(g, x, y) ==> y in done)
    && (forall p: seq<Id> :: Cyclic(g, p) ==> p[0] !in done)
  }

  lemma {:induction false} PathStays(g: Graph, done: set<Id>, p: seq<Id>, i: nat)
    requires forall x, y :: x in done && Edge(g, x, y) ==> y in done
    requires Path(g, p) && i < |p| && p[0] in done
    ensures p[i] in done
  {
    if i > 0 {
      PathStays(g, done, p, i - 1);
    }
  }

  lemma SettleOne(g: Graph, done: set<Id>, x: Id)
    requires Settled(g, done) && x !in done
    requires Survives(g, x) && Resolves(g, g[x].dependencies)
    requires forall y :: Edge(g, x, y) ==> y in done
    ensures Settled(g, done + {x})
  {
    forall p: seq<Id> | Cyclic(g, p)
      ensures p[0] !in done + {x}
    {
      if p[0] == x {
        assert Edge(g, p[0], p[1]);
        assert Path(g, p[1..]) by {
          forall i | 0 <= i < |p[1..]| - 1
            ensures Edge(g, p[1..][i], p[1..][i + 1])
          {
            assert Edge(g, p[i + 1], p[i + 2]);
          }
        }
        PathStays(g, done, p[1..], |p| - 2);
      }
    }
  }

  lemma ClosingPath(g: Graph, stack: seq<Id>, x: Id)
    requires Path(g, stack) && stack != [] && Edge(g, stack[|stack| - 1], x) && x in stack
    ensures !Acyclic(g)
  {
    var i :| 0 <= i < |stack| && stack[i] == x;
    var p := stack[i..] + [x];
    forall k | 0 <= k < |p| - 1
      ensures Edge(g, p[k], p[k + 1])
    {
      if k < |p| - 2 {
        assert Edge(g, stack[i + k], stack[i + k + 1]);
      }
    }
    assert Cyclic(g, p);
  }

  class GraphCheck {
    const g: Graph
    var visiting: set<Id>
    var visited: set<Id>

    constructor (g: Graph)
      ensures this.g == g && visiting == {} && visited == {}
    {
      this.g := g;
      visiting := {};
      visited := {};
    }

    /** One task and everything it waits for. `stack` is the path of tasks still being
        visited, which ends in a task that waits for `x`. */
    method Visit(x: Id, ghost stack: seq<Id>) returns (ok: bool)
      requires Survives(g, x) && Settled(g, visited) && visiting !! visited
      requires visiting == (set y | y in stack) && Path(g, stack)
      requires stack != [] ==> Edge(g, stack[|stack| - 1], x)
      requires visiting <= g.Keys
      modifies this
      ensures ok ==> visiting == old(visiting) && visiting !! visited
      ensures ok ==> Settled(g, visited) && old(visited) + {x} <= visited
      ensures !ok ==> !(DependenciesResolve(g) && Acyclic(g))
      decreases g.Keys - visiting
    {
      if x in visiting {
        ClosingPath(g, stack, x);
        return false;
      }
      if x in visited {
        return true;
      }
      ghost var before := visiting;
      visiting := visiting + {x};
      ghost var path := stack + [x];
      assert Path(g, path) by {
        forall i | 0 <= i < |path| - 1
          ensures Edge(g, path[i], path[i + 1])
        {
          assert i < |stack| - 1 ==> Edge(g, stack[i], stack[i + 1]);
        }
      }
      var rest := g[x].dependencies;
      while rest != {}
        invariant rest <= g[x].dependencies
        invariant visiting == before + {x} && visiting !! visited
        invariant Settled(g, visited) && old(visited) <= visited
        invariant forall d :: d in g[x].dependencies - rest ==>
          Canonical(g, d).Ok? && Canonical(g, d).value in visited
        decreases rest
      {
        var d :| d in rest;
        match Canonical(g, d) {
          case Refused(_) => return false;
          case Ok(c) =>
            CanonicalSurvives(g, d);
            assert Edge(g, x, c);
            assert visiting == (set y | y in path);
            ok := Visit(c, path);
            if !ok {
              return;
            }
        }
        rest := rest - {d};
      }
      visiting := visiting - {x};
      SettleOne(g, visited, x);
      visited := visited + {x};
      assert visiting == before;
      return true;
    }
  }

  /** `checkGraph` decides `Sound`: the shared sets accept exactly the graphs without a
      dependency cycle in which every recorded origin leads to a root. */
  method CheckGraph(g: Graph) returns (ok: bool)
    ensures ok <==> Sound(g)
  {
    var lines := g.Keys;
    while lines != {}
      invariant lines <= g.Keys
      invariant forall x :: x in g.Keys - lines && g[x].origin.Some? ==>
        g[x].origin.value in g && LineRoot(g, x, {}).Ok?
      decreases lines
    {
      var x :| x in lines;
      if g[x].origin.Some? && (g[x].origin.value !in g || LineRoot(g, x, {}).Refused?) {
        return false;
      }
      lines := lines - {x};
    }
    var check := new GraphCheck(g);
    var rest := set x | x in g.Keys && g[x].mergedInto.None?;
    ghost var all := rest;
    while rest != {}
      invariant rest <= all && check.g == g && check.visiting == {}
      invariant Settled(g, check.visited) && all - rest <= check.visited
      decreases rest
    {
      var x :| x in rest;
      ok := check.Visit(x, []);
      if !ok {
        return;
      }
      rest := rest - {x};
    }
    assert Sound(g) by {
      forall x | Survives(g, x)
        ensures Resolves(g, g[x].dependencies)
      {
        assert x in all;
      }
      assert forall p: seq<Id> :: Cyclic(g, p) ==> Edge(g, p[0], p[1]) && p[0] in all;
    }
    return true;
  }
}
