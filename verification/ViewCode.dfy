/** The shared cache of compiled view code: bounded, least recently used first, filled by
    loads that look it up and publish to it in separate lock sections. */
module ViewCode {
  import opened Values

  type Source = seq<bv8>

  datatype CompiledView = CompiledView(hash: nat, sourceBytes: nat, code: nat)

  const COMPILED_VIEW_LIMIT: nat := 16
  const COMPILED_VIEW_SOURCE_BYTES: nat := 33554432

  function Bytes(entries: seq<CompiledView>): nat {
    if entries == [] then 0 else entries[0].sourceBytes + Bytes(entries[1..])
  }

  predicate Fits(entries: seq<CompiledView>, sourceBytes: nat) {
    |entries| < COMPILED_VIEW_LIMIT && Bytes(entries) + sourceBytes <= COMPILED_VIEW_SOURCE_BYTES
  }

  /** How many entries from the front must go before this many bytes fit. */
  function Evicted(entries: seq<CompiledView>, sourceBytes: nat): (k: nat)
    ensures k <= |entries|
  {
    if Fits(entries, sourceBytes) || entries == [] then 0 else 1 + Evicted(entries[1..], sourceBytes)
  }

  /** The eviction is the shortest that makes room, and room is always made for code within the limit. */
  lemma {:induction false} EvictedShortest(entries: seq<CompiledView>, sourceBytes: nat)
    requires sourceBytes <= COMPILED_VIEW_SOURCE_BYTES
    ensures Fits(entries[Evicted(entries, sourceBytes)..], sourceBytes)
    ensures forall j :: 0 <= j < Evicted(entries, sourceBytes) ==> !Fits(entries[j..], sourceBytes)
  {
    if Fits(entries, sourceBytes) || entries == [] {
      assert entries[0..] == entries;
    } else {
      var k := Evicted(entries[1..], sourceBytes);
      EvictedShortest(entries[1..], sourceBytes);
      assert entries[1..][k..] == entries[1 + k..];
      forall j | 0 <= j < 1 + k
        ensures !Fits(entries[j..], sourceBytes)
      {
        if j == 0 {
          assert entries[0..] == entries;
        } else {
          assert entries[j..] == entries[1..][j - 1..];
        }
      }
    }
  }

  lemma {:induction false} BytesAppend(entries: seq<CompiledView>, e: CompiledView)
    ensures Bytes(entries + [e]) == Bytes(entries) + e.sourceBytes
  {
    if entries == [] {
      assert entries + [e] == [e];
    } else {
      assert (entries + [e])[1..] == entries[1..] + [e];
      BytesAppend(entries[1..], e);
    }
  }

  lemma {:induction false} BytesRemove(entries: seq<CompiledView>, i: nat)
    requires i < |entries|
    ensures Bytes(entries) == Bytes(entries[..i] + entries[i + 1..]) + entries[i].sourceBytes
  {
    if i == 0 {
      assert entries[..0] + entries[1..] == entries[1..];
    } else {
      BytesRemove(entries[1..], i - 1);
      assert (entries[..i] + entries[i + 1..])[1..] == entries[1..][..i - 1] + entries[1..][i..];
    }
  }

  predicate Distinct(entries: seq<CompiledView>) {
    forall i, j :: 0 <= i < j < |entries| ==> entries[i].hash != entries[j].hash
  }

  /** Front to back is least to most recently used. */
  predicate Recent(entries: seq<CompiledView>, used: map<nat, nat>, uses: nat) {
    && (forall i :: 0 <= i < |entries| ==> entries[i].hash in used && used[entries[i].hash] < uses)
    && (forall i, j :: 0 <= i < j < |entries| ==> used[entries[i].hash] < used[entries[j].hash])
  }

  /** The entry at `i` moved to the back. */
  function Touched(entries: seq<CompiledView>, i: nat): seq<CompiledView>
    requires i < |entries|
  {
    entries[..i] + entries[i + 1..] + [entries[i]]
  }

  lemma AppendRecent(entries: seq<CompiledView>, e: CompiledView, used: map<nat, nat>, uses: nat)
    requires Recent(entries, used, uses) && !Has(entries, e.hash)
    ensures Recent(entries + [e], used[e.hash := uses], uses + 1)
  {
    assert forall i :: 0 <= i < |entries| ==> entries[i].hash != e.hash;
  }

  lemma WithoutRecent(entries: seq<CompiledView>, i: nat, used: map<nat, nat>, uses: nat)
    requires i < |entries| && Recent(entries, used, uses) && Distinct(entries)
    ensures
      var rest := entries[..i] + entries[i + 1..];
      Recent(rest, used, uses) && Distinct(rest) && !Has(rest, entries[i].hash) && forall e :: e in rest ==> e in entries
  {
  }

  lemma TouchedKeeps(entries: seq<CompiledView>, i: nat, used: map<nat, nat>, uses: nat)
    requires i < |entries| && Recent(entries, used, uses) && Distinct(entries)
    ensures Recent(Touched(entries, i), used[entries[i].hash := uses], uses + 1) && Distinct(Touched(entries, i))
    ensures Bytes(Touched(entries, i)) == Bytes(entries) && forall e :: e in Touched(entries, i) ==> e in entries
  {
    var rest := entries[..i] + entries[i + 1..];
    WithoutRecent(entries, i, used, uses);
    AppendRecent(rest, entries[i], used, uses);
    BytesRemove(entries, i);
    BytesAppend(rest, entries[i]);
  }

  lemma StoredKeeps(entries: seq<CompiledView>, e: CompiledView, used: map<nat, nat>, uses: nat)
    requires Recent(entries, used, uses) && Distinct(entries) && !Has(entries, e.hash) && Fits(entries, e.sourceBytes)
    ensures
      var next := entries + [e];
      && Recent(next, used[e.hash := uses], uses + 1) && Distinct(next)
      && |next| <= COMPILED_VIEW_LIMIT && Bytes(next) <= COMPILED_VIEW_SOURCE_BYTES
  {
    AppendRecent(entries, e, used, uses);
    BytesAppend(entries, e);
  }

  lemma SuffixKeeps(entries: seq<CompiledView>, k: nat, used: map<nat, nat>, uses: nat)
    requires k <= |entries| && Recent(entries, used, uses) && Distinct(entries)
    ensures Recent(entries[k..], used, uses) && Distinct(entries[k..])
    ensures forall e :: e in entries[k..] ==> e in entries
    ensures forall hash :: Has(entries[k..], hash) ==> Has(entries, hash)
  {
    forall hash | Has(entries[k..], hash)
      ensures Has(entries, hash)
    {
      var i :| 0 <= i < |entries[k..]| && entries[k..][i].hash == hash;
      assert entries[k + i].hash == hash;
    }
  }

  predicate Has(entries: seq<CompiledView>, hash: nat) {
    exists i :: 0 <= i < |entries| && entries[i].hash == hash
  }

  class ViewCodeCache {
    const digest: Source -> nat
    const compile: Source -> Option<nat>
    var entries: seq<CompiledView>

    /** When each hash was last asked for or stored, and how many such uses there were. */
    ghost var used: map<nat, nat>
    ghost var uses: nat

    /** The entry is what compiling its source gives. */
    ghost predicate Agrees(e: CompiledView) {
      exists source :: digest(source) == e.hash && |source| == e.sourceBytes && compile(source) == Some(e.code)
    }

    ghost predicate Valid()
      reads this
    {
      && Distinct(entries) && |entries| <= COMPILED_VIEW_LIMIT && Bytes(entries) <= COMPILED_VIEW_SOURCE_BYTES
      && Recent(entries, used, uses) && forall e :: e in entries ==> Agrees(e)
    }

    constructor (digest: Source -> nat, compile: Source -> Option<nat>)
      ensures Valid() && entries == [] && this.digest == digest && this.compile == compile
    {
      this.digest, this.compile, entries, used, uses := digest, compile, [], map[], 0;
    }

    method Get(hash: nat) returns (r: Option<nat>)
      requires Valid()
      modifies this
      ensures Valid()
      ensures r.Some? <==> Has(old(entries), hash)
      ensures r.None? ==> entries == old(entries)
      ensures r.Some? ==> exists source :: digest(source) == hash && compile(source) == r
      ensures r.Some? ==> exists i :: 0 <= i < |old(entries)| && old(entries)[i].hash == hash && r.value == old(entries)[i].code
                                      && entries == Touched(old(entries), i)
    {
      var i := 0;
      while i < |entries| && entries[i].hash != hash
        invariant i <= |entries| && forall j :: 0 <= j < i ==> entries[j].hash != hash
      {
        i := i + 1;
      }
      if i == |entries| {
        return None;
      }
      TouchedKeeps(entries, i, used, uses);
      assert Agrees(entries[i]);
      r := Some(entries[i].code);
      entries := Touched(entries, i);
      used, uses := used[hash := uses], uses + 1;
    }

    /** Store an entry, evicting from the front exactly as far as its room needs. */
    method Insert(entry: CompiledView)
      requires Valid() && !Has(entries, entry.hash) && Agrees(entry)
      modifies this
      ensures Valid()
      ensures entry.sourceBytes > COMPILED_VIEW_SOURCE_BYTES ==> entries == old(entries)
      ensures entry.sourceBytes <= COMPILED_VIEW_SOURCE_BYTES ==>
          entries == old(entries)[Evicted(old(entries), entry.sourceBytes)..] + [entry]
    {
      if entry.sourceBytes > COMPILED_VIEW_SOURCE_BYTES {
        return;
      }
      var bytes := 0;
      for i := 0 to |entries|
        invariant bytes + Bytes(entries[i..]) == Bytes(entries)
      {
        bytes := bytes + entries[i].sourceBytes;
        assert entries[i..][1..] == entries[i + 1..];
      }
      ghost var k := 0;
      while !(|entries| < COMPILED_VIEW_LIMIT && bytes + entry.sourceBytes <= COMPILED_VIEW_SOURCE_BYTES) && |entries| > 0
        invariant k <= |old(entries)| && entries == old(entries)[k..] && bytes == Bytes(entries)
        invariant k + Evicted(entries, entry.sourceBytes) == Evicted(old(entries), entry.sourceBytes)
        invariant used == old(used) && uses == old(uses)
        decreases |entries|
      {
        // the running count holds the evicted entry, so it never underflows
        assert bytes >= entries[0].sourceBytes;
        bytes := bytes - entries[0].sourceBytes;
        entries := entries[1..];
        k := k + 1;
      }
      EvictedShortest(entries, entry.sourceBytes);
      assert entries[0..] == entries;
      SuffixKeeps(old(entries), k, used, uses);
      StoredKeeps(entries, entry, used, uses);
      entries := entries + [entry];
      used, uses := used[entry.hash := uses], uses + 1;
    }

    /** Whatever other loads do to the cache meanwhile. */
    method OthersRun()
      requires Valid()
      modifies this
      ensures Valid()
    {
      var steps: nat := *;
      while steps > 0
        invariant Valid()
      {
        var source: Source := *;
        if compile(source).Some? {
          var _ := Publish(source, compile(source).value);
        } else {
          var _ := Get(digest(source));
        }
        steps := steps - 1;
      }
    }

    /** The second lock section: adopt what another load stored meanwhile, else store this. */
    method Publish(source: Source, code: nat) returns (r: nat)
      requires Valid() && compile(source) == Some(code)
      modifies this
      ensures Valid()
      ensures (forall a, b :: digest(a) == digest(b) ==> a == b) ==> r == code
    {
      var existing := Get(digest(source));
      if existing.Some? {
        return existing.value;
      }
      Insert(CompiledView(digest(source), |source|, code));
      r := code;
    }

    /** Look up, compile outside the lock, look again and store: the answer is always the direct compilation. */
    method CompileView(source: Source) returns (r: Option<nat>)
      requires Valid() && forall a, b :: digest(a) == digest(b) ==> a == b
      modifies this
      ensures Valid()
      ensures r == compile(source)
    {
      var cached := Get(digest(source));
      if cached.Some? {
        return cached;
      }
      var compiled := compile(source);
      OthersRun();
      if compiled.None? {
        return None;
      }
      var code := Publish(source, compiled.value);
      r := Some(code);
    }
  }
}
