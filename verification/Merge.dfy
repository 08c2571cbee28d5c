/** Merging one task into another, on the task graph: an accepted merge contracts the
    source onto the target in all three relations. */
module Merge {
  import opened Values
  import opened Pointers
  import opened Graph

  /** The contraction: the source stands for the target. */
  function Contract(s: Id, t: Id, x: Id): Id {
    if x == s then t else x
  }

  function Redirect(g: Graph, s: Id, t: Id, id: Id): Id {
    if Canonical(g, id) == Ok(s) then t else id
  }

  /** Dependency ids after the merge: the source becomes the target, and nothing waits for itself. */
  function Rewire(g: Graph, s: Id, t: Id, ids: set<Id>, owner: Id): set<Id> {
    set id | id in ids && Canonical(g, Redirect(g, s, t, id)) != Ok(owner) :: Redirect(g, s, t, id)
  }

  /** The origin that survives: where a task would originate from itself, it inherits the
      origin of the task it originated from. */
  function SurvivingOrigin(g: Graph, s: Id, t: Id, origin: Option<Id>, owner: Id, seen: set<Id>): Option<Id>
    requires OriginsResolve(g)
    requires origin.Some? ==> Canonical(g, origin.value).Ok?
    decreases g.Keys - seen
  {
    if origin.None? then None
    else
      CanonicalSurvives(g, origin.value);
      var resolved := Canonical(g, origin.value).value;
      if resolved in seen then None
      else
        var next := Contract(s, t, resolved);
        if next != owner then Some(next)
        else SurvivingOrigin(g, s, t, g[resolved].origin, owner, seen + {resolved})
  }

  function MergedGraph(g: Graph, s: Id, t: Id): Graph
    requires s in g && t in g && OriginsResolve(g)
  {
    map x | x in g ::
      if x == s then g[s].(mergedInto := Some(t))
      else if x == t then
        Node(g[t].mergedInto,
             Rewire(g, s, t, g[t].dependencies + g[s].dependencies, t),
             SurvivingOrigin(g, s, t, if g[t].origin.Some? then g[t].origin else g[s].origin, t, {}))
      else
        Node(g[x].mergedInto,
             Rewire(g, s, t, g[x].dependencies, x),
             SurvivingOrigin(g, s, t, g[x].origin, x, {}))
  }

  /** A graph as Board validation leaves it, and two distinct surviving tasks in it. */
  ghost predicate Mergeable(g: Graph, s: Id, t: Id) {
    s != t && Survives(g, s) && Survives(g, t) && Resolves(g, g.Keys) && Sound(g)
  }

  // -- Merges compose ---------------------------------------------------------

  lemma {:induction false} LeadsContracts(g: Graph, s: Id, t: Id, x: Id, c: Id, n: nat) returns (m: nat)
    requires Survives(g, s) && Survives(g, t) && s != t && OriginsResolve(g)
    requires Leads(Merges(g), x, c, n)
    ensures Leads(Merges(MergedGraph(g, s, t)), x, Contract(s, t, c), m)
    decreases n
  {
    var p' := Merges(MergedGraph(g, s, t));
    if n > 0 {
      m := LeadsContracts(g, s, t, g[x].mergedInto.value, c, n - 1);
      m := m + 1;
    } else if x == s {
      assert Leads(p', t, t, 0);
      m := 1;
    } else {
      m := 0;
    }
  }

  /** After the merge every id stands for the contraction of the task it stood for. */
  lemma CanonicalContracts(g: Graph, s: Id, t: Id, x: Id)
    requires Survives(g, s) && Survives(g, t) && s != t && OriginsResolve(g)
    requires Canonical(g, x).Ok?
    ensures Canonical(MergedGraph(g, s, t), x) == Ok(Contract(s, t, Canonical(g, x).value))
  {
    var c := Canonical(g, x).value;
    var n := FollowSound(Merges(g), x, {});
    var m := LeadsContracts(g, s, t, x, c, n);
    FollowIff(Merges(MergedGraph(g, s, t)), x, Contract(s, t, c));
  }

  // -- Dependencies -----------------------------------------------------------

  lemma EdgeDescends(g: Graph, s: Id, t: Id, x: Id, y: Id)
    requires Mergeable(g, s, t) && OriginsResolve(g)
    requires Edge(MergedGraph(g, s, t), x, y)
    ensures x != y
    ensures exists x0, y0 :: Contract(s, t, x0) == x && Contract(s, t, y0) == y && Edge(g, x0, y0)
  {
    var g' := MergedGraph(g, s, t);
    var d' :| d' in g'[x].dependencies && Canonical(g', d') == Ok(y);
    var ids := if x == t then g[t].dependencies + g[s].dependencies else g[x].dependencies;
    var d :| d in ids && Redirect(g, s, t, d) == d' && Canonical(g, d') != Ok(x);
    var x0 := if d in g[x].dependencies then x else s;
    assert Resolves(g, g[x0].dependencies);
    CanonicalContracts(g, s, t, d');
    CanonicalSurvives(g, t);
    assert Edge(g, x0, Canonical(g, d).value);
  }

  lemma EdgeAscends(g: Graph, s: Id, t: Id, x0: Id, y0: Id)
    requires Mergeable(g, s, t) && OriginsResolve(g)
    requires Edge(g, x0, y0) && Contract(s, t, x0) != Contract(s, t, y0)
    ensures Edge(MergedGraph(g, s, t), Contract(s, t, x0), Contract(s, t, y0))
  {
    var g' := MergedGraph(g, s, t);
    var x, y := Contract(s, t, x0), Contract(s, t, y0);
    var d :| d in g[x0].dependencies && Canonical(g, d) == Ok(y0);
    var d' := Redirect(g, s, t, d);
    CanonicalSurvives(g, t);
    CanonicalContracts(g, s, t, d');
    assert Canonical(g', d') == Ok(y);
    assert d' in g'[x].dependencies;
  }

  /** The dependency edges after the merge are the image of the old ones, without self-loops. */
  lemma EdgesContract(g: Graph, s: Id, t: Id, x: Id, y: Id)
    requires Mergeable(g, s, t) && OriginsResolve(g)
    ensures Edge(MergedGraph(g, s, t), x, y) <==>
            x != y && exists x0, y0 :: Contract(s, t, x0) == x && Contract(s, t, y0) == y && Edge(g, x0, y0)
  {
    if Edge(MergedGraph(g, s, t), x, y) {
      EdgeDescends(g, s, t, x, y);
    }
    forall x0, y0 | Contract(s, t, x0) == x && Contract(s, t, y0) == y && Edge(g, x0, y0) && x != y
      ensures Edge(MergedGraph(g, s, t), x, y)
    {
      EdgeAscends(g, s, t, x0, y0);
    }
  }

  // -- Origins ----------------------------------------------------------------

  /** The origin the survivor keeps: its own, or the source's, whichever lies outside the pair. */
  function OutsideOrigin(p: Pointers, s: Id, t: Id): Option<Id>
    requires s in p && t in p
  {
    if p[t].Some? && p[t].value != s then p[t]
    else if p[s].Some? && p[s].value != t then p[s]
    else None
  }

  /** `q` is `p` with `s` contracted onto `t`: the survivor loses its pointer only if neither
      id had one outside the pair, and every other id keeps the contraction of its own. */
  predicate Contracted(p: Pointers, q: Pointers, s: Id, t: Id) {
    && s in p && t in p && s != t
    && q.Keys == p.Keys - {s}
    && q[t] == OutsideOrigin(p, s, t)
    && forall x :: x in q && x != t ==>
         q[x] == match p[x] case None => None case Some(y) => Some(Contract(s, t, y))
  }

  lemma OtherOrigin(g: Graph, s: Id, t: Id, x: Id)
    requires OriginsResolve(g) && Survives(g, x) && x != s && x != t
    requires Origins(g)[x] != Some(x)
    ensures SurvivingOrigin(g, s, t, g[x].origin, x, {}) ==
            match Origins(g)[x] case None => None case Some(y) => Some(Contract(s, t, y))
  {
  }

  lemma TargetOrigin(g: Graph, s: Id, t: Id)
    requires OriginsResolve(g) && Survives(g, s) && Survives(g, t) && s != t
    requires Origins(g)[t] != Some(t) && Origins(g)[s] != Some(s)
    requires Origins(g)[t] == Some(s) ==> Origins(g)[s] != Some(t)
    ensures SurvivingOrigin(g, s, t, if g[t].origin.Some? then g[t].origin else g[s].origin, t, {}) ==
            OutsideOrigin(Origins(g), s, t)
  {
    if Origins(g)[t] == Some(s) && g[s].origin.Some? {
      assert SurvivingOrigin(g, s, t, g[s].origin, t, {s}) == Origins(g)[s];
    }
  }

  lemma LineEnds(g: Graph, x: Id) returns (r: Id, n: nat)
    requires Resolves(g, g.Keys) && LinesReachRoots(g) && OriginsResolve(g) && Survives(g, x)
    ensures LineRoot(g, x, {}) == Ok(r) && Leads(Origins(g), x, r, n)
  {
    CanonicalSurvives(g, x);
    LineRootFollows(g, x, {});
    r := LineRoot(g, x, {}).value;
    n := FollowSound(Origins(g), x, {});
  }

  lemma NewOrigin(g: Graph, s: Id, t: Id, x: Id)
    requires Mergeable(g, s, t) && OriginsResolve(g) && Survives(g, x) && x != s
    ensures MergedGraph(g, s, t)[x].origin ==
            if x == t then OutsideOrigin(Origins(g), s, t)
            else match Origins(g)[x] case None => None case Some(y) => Some(Contract(s, t, y))
  {
    var r, n := LineEnds(g, x);
    NoShortLoop(Origins(g), x, s, r, n);
    if x == t {
      var r', n' := LineEnds(g, s);
      NoShortLoop(Origins(g), s, t, r', n');
      TargetOrigin(g, s, t);
    } else {
      OtherOrigin(g, s, t, x);
    }
  }

  lemma OriginSurvives(g: Graph, x: Id)
    requires OriginsResolve(g) && Survives(g, x) && Origins(g)[x].Some?
    ensures Survives(g, Origins(g)[x].value)
  {
    CanonicalSurvives(g, g[x].origin.value);
  }

  lemma NewOriginSurvives(g: Graph, s: Id, t: Id, x: Id)
    requires Mergeable(g, s, t) && OriginsResolve(g) && Survives(g, x) && x != s
    ensures var o := MergedGraph(g, s, t)[x].origin; o.Some? ==> Survives(g, o.value) && o.value != s
  {
    NewOrigin(g, s, t, x);
    var r, n := LineEnds(g, s);
    NoShortLoop(Origins(g), s, t, r, n);
    if Origins(g)[x].Some? { OriginSurvives(g, x); }
    if Origins(g)[s].Some? { OriginSurvives(g, s); }
  }

  lemma MergedResolves(g: Graph, s: Id, t: Id)
    requires Mergeable(g, s, t) && OriginsResolve(g) && LinesReachRoots(MergedGraph(g, s, t))
    ensures Resolves(MergedGraph(g, s, t), g.Keys) && OriginsResolve(MergedGraph(g, s, t))
  {
    forall x | x in g
      ensures Canonical(MergedGraph(g, s, t), x).Ok?
    {
      CanonicalContracts(g, s, t, x);
    }
  }

  lemma NewParent(g: Graph, s: Id, t: Id, x: Id)
    requires Mergeable(g, s, t) && OriginsResolve(g) && OriginsResolve(MergedGraph(g, s, t))
    requires Survives(g, x) && x != s
    ensures Origins(MergedGraph(g, s, t))[x] ==
            if x == t then OutsideOrigin(Origins(g), s, t)
            else match Origins(g)[x] case None => None case Some(y) => Some(Contract(s, t, y))
  {
    var o := MergedGraph(g, s, t)[x].origin;
    NewOrigin(g, s, t, x);
    NewOriginSurvives(g, s, t, x);
    if o.Some? {
      CanonicalSurvives(MergedGraph(g, s, t), o.value);
    }
  }

  lemma SurvivorsLeft(g: Graph, s: Id, t: Id)
    requires s in g && t in g && s != t && OriginsResolve(g) && OriginsResolve(MergedGraph(g, s, t))
    ensures Origins(MergedGraph(g, s, t)).Keys == Origins(g).Keys - {s}
  {
    assert forall x :: Survives(MergedGraph(g, s, t), x) <==> Survives(g, x) && x != s;
  }

  /** Origins between surviving tasks are contracted exactly. */
  lemma OriginsContract(g: Graph, s: Id, t: Id)
    requires Mergeable(g, s, t) && OriginsResolve(g) && OriginsResolve(MergedGraph(g, s, t))
    ensures Contracted(Origins(g), Origins(MergedGraph(g, s, t)), s, t)
  {
    var p, q := Origins(g), Origins(MergedGraph(g, s, t));
    SurvivorsLeft(g, s, t);
    forall x | x in q
      ensures q[x] == if x == t then OutsideOrigin(p, s, t)
                      else match p[x] case None => None case Some(y) => Some(Contract(s, t, y))
    {
      NewParent(g, s, t, x);
    }
  }

  // -- Lines, on contracted pointers --------------------------------------------

  /** The chain from `x` passes through the source or the target within `n` hops. */
  predicate Touches(p: Pointers, s: Id, t: Id, x: Id, n: nat)
    decreases n
  {
    x == s || x == t || (n > 0 && x in p && p[x].Some? && Touches(p, s, t, p[x].value, n - 1))
  }

  lemma {:induction false} ChainCarries(p: Pointers, q: Pointers, s: Id, t: Id, x: Id, r: Id, n: nat, top: Id, k: nat)
    returns (m: nat)
    requires Contracted(p, q, s, t) && Leads(p, x, r, n) && Leads(q, t, top, k)
    ensures Leads(q, Contract(s, t, x), if Touches(p, s, t, x, n) then top else r, m)
    ensures Touches(p, s, t, x, n) ==> m >= k
    ensures !Touches(p, s, t, x, n) ==> r != s
    decreases n
  {
    if x == s || x == t {
      m := k;
    } else if n == 0 {
      m := 0;
    } else {
      m := ChainCarries(p, q, s, t, p[x].value, r, n - 1, top, k);
      m := m + 1;
    }
  }

  /** Where the survivor's chain ends: at the contraction of its own end, or of the source's
      when the target pointed nowhere. */
  lemma SurvivorEnd(p: Pointers, q: Pointers, s: Id, t: Id, top: Id, k: nat, r: Id, n: nat)
    requires Contracted(p, q, s, t) && Leads(q, t, top, k)
    requires Leads(p, if p[t].Some? then t else s, r, n)
    ensures top == Contract(s, t, r)
  {
    var own := if p[t].Some? then t else s;
    NoShortLoop(p, own, if own == t then s else t, r, n);
    if q[t].Some? {
      var o := q[t].value;
      var n' := if p[own] == Some(o) then n - 1 else n - 2;
      assert Leads(p, o, r, n');
      var m := ChainCarries(p, q, s, t, o, r, n', top, k);
      LeadsUnique(q, o, top, k - 1, if Touches(p, s, t, o, n') then top else r, m);
    } else if p[own].Some? {
      assert Leads(p, p[own].value, r, n - 1);
    }
  }

  lemma {:induction false} TouchedEnd(p: Pointers, s: Id, t: Id, x: Id, r: Id, n: nat)
    requires Leads(p, x, r, n) && (r == s || r == t)
    ensures Touches(p, s, t, x, n)
    decreases n
  {
    if n > 0 {
      TouchedEnd(p, s, t, p[x].value, r, n - 1);
    }
  }

  /** An accepted merge keeps every line on a root. A task whose line passed through the
      source or the target ends at the contraction of the target's root, or of the source's
      when the target stood on its own; every other line is untouched. */
  lemma RootsContract(g: Graph, s: Id, t: Id, x: Id, n: nat)
    requires Mergeable(g, s, t) && OriginsResolve(g) && LinesReachRoots(MergedGraph(g, s, t))
    requires Survives(g, x) && x != s
    requires LineRoot(g, x, {}).Ok? && Leads(Origins(g), x, LineRoot(g, x, {}).value, n)
    ensures LineRoot(MergedGraph(g, s, t), x, {}).Ok? && LineRoot(g, if g[t].origin.Some? then t else s, {}).Ok?
    ensures LineRoot(MergedGraph(g, s, t), x, {}).value ==
            if Touches(Origins(g), s, t, x, n)
            then Contract(s, t, LineRoot(g, if g[t].origin.Some? then t else s, {}).value)
            else LineRoot(g, x, {}).value
  {
    var g' := MergedGraph(g, s, t);
    MergedResolves(g, s, t);
    OriginsContract(g, s, t);
    var top, k := LineEnds(g', t);
    var r, j := LineEnds(g, if g[t].origin.Some? then t else s);
    SurvivorEnd(Origins(g), Origins(g'), s, t, top, k, r, j);
    var m := ChainCarries(Origins(g), Origins(g'), s, t, x, LineRoot(g, x, {}).value, n, top, k);
    var r', m' := LineEnds(g', x);
    LeadsUnique(Origins(g'), x, r', m', if Touches(Origins(g), s, t, x, n) then top else LineRoot(g, x, {}).value, m);
  }

  /** Merging two tasks of one line never detaches the line from its root. */
  lemma OneLineKeepsItsRoot(g: Graph, s: Id, t: Id, x: Id)
    requires Mergeable(g, s, t) && OriginsResolve(g) && LinesReachRoots(MergedGraph(g, s, t))
    requires Survives(g, x) && x != s
    requires LineRoot(g, s, {}) == LineRoot(g, t, {}) == LineRoot(g, x, {})
    ensures LineRoot(g, x, {}).Ok?
    ensures LineRoot(MergedGraph(g, s, t), x, {}) == Ok(Contract(s, t, LineRoot(g, x, {}).value))
  {
    var r, n := LineEnds(g, x);
    RootsContract(g, s, t, x, n);
    if r == s {
      TouchedEnd(Origins(g), s, t, x, r, n);
    }
  }
}
