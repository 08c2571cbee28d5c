/** Following a chain of pointers to its end: the shape shared by merged-task resolution
    and by the walk from a task to the root of its line of work. */
module Pointers {
  import opened Values

  /** Each known id points at another id, or nowhere. */
  type Pointers = map<Id, Option<Id>>

  datatype Chase = End(id: Id) | Cycle | Unknown

  function Follow(p: Pointers, x: Id, seen: set<Id>): Chase
    decreases p.Keys - seen
  {
    if x in seen then Cycle
    else if x !in p then Unknown
    else match p[x]
      case None => End(x)
      case Some(y) => Follow(p, y, seen + {x})
  }

  /** Exactly `n` hops lead from `x` to `end`, which points nowhere. */
  predicate Leads(p: Pointers, x: Id, end: Id, n: nat)
    decreases n
  {
    && x in p
    && if n == 0 then x == end && p[x].None? else p[x].Some? && Leads(p, p[x].value, end, n - 1)
  }

  lemma {:induction false} LeadsUnique(p: Pointers, x: Id, e: Id, n: nat, e': Id, n': nat)
    requires Leads(p, x, e, n) && Leads(p, x, e', n')
    ensures e == e' && n == n'
    decreases n
  {
    if n > 0 && n' > 0 {
      LeadsUnique(p, p[x].value, e, n - 1, e', n' - 1);
    }
  }

  /** A chain that ends does not come back: not at once, and not through one other id. */
  lemma {:induction false} NoShortLoop(p: Pointers, x: Id, y: Id, e: Id, n: nat)
    requires Leads(p, x, e, n)
    ensures p[x] != Some(x)
    ensures y in p && p[x] == Some(y) ==> p[y] != Some(x)
    decreases n
  {
    if n > 0 && p[x] == Some(x) {
      NoShortLoop(p, x, y, e, n - 1);
    } else if n > 1 && y in p && p[x] == Some(y) && p[y] == Some(x) {
      assert Leads(p, y, e, n - 1);
      NoShortLoop(p, x, y, e, n - 2);
    }
  }

  lemma {:induction false} FollowSound(p: Pointers, x: Id, seen: set<Id>) returns (n: nat)
    requires Follow(p, x, seen).End?
    ensures Leads(p, x, Follow(p, x, seen).id, n)
    decreases p.Keys - seen
  {
    if p[x].None? {
      n := 0;
    } else {
      var m := FollowSound(p, p[x].value, seen + {x});
      n := m + 1;
    }
  }

  lemma {:induction false} FollowComplete(p: Pointers, x: Id, e: Id, n: nat, seen: set<Id>)
    requires Leads(p, x, e, n)
    requires forall z, m: nat :: z in seen && m <= n ==> !Leads(p, z, e, m)
    ensures Follow(p, x, seen) == End(e)
    decreases n
  {
    if n > 0 {
      forall z, m: nat | z in seen + {x} && m <= n - 1
        ensures !Leads(p, z, e, m)
      {
        if z == x && Leads(p, x, e, m) {
          LeadsUnique(p, x, e, n, e, m);
        }
      }
      FollowComplete(p, p[x].value, e, n - 1, seen + {x});
    }
  }

  /** The walk with a seen-set finds an end exactly when some number of hops reaches one. */
  lemma FollowIff(p: Pointers, x: Id, e: Id)
    ensures Follow(p, x, {}) == End(e) ==> exists n: nat :: Leads(p, x, e, n)
    ensures (exists n: nat :: Leads(p, x, e, n)) ==> Follow(p, x, {}) == End(e)
  {
    if Follow(p, x, {}) == End(e) {
      var n := FollowSound(p, x, {});
    }
    forall n: nat | Leads(p, x, e, n)
      ensures Follow(p, x, {}) == End(e)
    {
      FollowComplete(p, x, e, n, {});
    }
  }
}
