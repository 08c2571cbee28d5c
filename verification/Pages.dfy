/** The protected half of a record collection: every hidden entity cut into chunk rows, one
    manifest naming them in order, and one header row binding the manifest to a revision. */
module Pages {
  import opened Values
  import opened Chunks

  datatype Name = Name(kind: HiddenKind, id: Bytes)

  /** A hidden entity and the canonical text of its value. */
  datatype Entity = Entity(name: Name, text: Bytes)

  /** A hidden value before it is named. */
  datatype Datum = Datum(kind: HiddenKind, text: Bytes)

  datatype IndexEntry = IndexEntry(name: Name, parts: nat)

  /** Rows belong to the manifest (no owner) or to one named entity. */
  datatype Key = HeadKey | PartKey(owner: Option<Name>, part: nat)

  datatype Value = HeadValue(revision: nat, parts: nat, digest: Bytes) | ChunkValue(chunk: Chunk)

  /** A stored value and the revision of the commit that wrote it. */
  datatype Stamped<+V> = Stamped(value: V, revision: nat)

  type Rows = map<Key, Stamped<Value>>

  /** The text formats and hashes the adapter is built over. */
  datatype Codec = Codec(
    printIndex: seq<IndexEntry> -> Bytes, parseIndex: Bytes -> Option<seq<IndexEntry>>,
    digest: Bytes -> Bytes, idOf: (HiddenKind, Bytes) -> Option<Bytes>, validId: Bytes -> bool, stateSize: Value -> nat)

  ghost predicate Lawful(codec: Codec) {
    forall es :: codec.parseIndex(codec.printIndex(es)) == Some(es)
  }

  const STATE_BYTES: nat := 16384
  const INDEX_ID: Bytes := [99, 104, 105, 101, 102, 45, 105, 110, 100, 101, 120]
  const META_ID: Bytes := [109, 101, 116, 97]

  // -- The order of names ------------------------------------------------------------------

  predicate Less(a: Bytes, b: Bytes) {
    b != [] && (a == [] || a[0] < b[0] || (a[0] == b[0] && Less(a[1..], b[1..])))
  }

  lemma {:induction false} LessTransitive(a: Bytes, b: Bytes, c: Bytes)
    requires Less(a, b) && Less(b, c)
    ensures Less(a, c)
  {
    if a != [] && a[0] == b[0] && b[0] == c[0] {
      LessTransitive(a[1..], b[1..], c[1..]);
    }
  }

  lemma {:induction false} LessTotal(a: Bytes, b: Bytes)
    ensures a == b || Less(a, b) || Less(b, a)
    ensures !(Less(a, b) && Less(b, a)) && (a == b ==> !Less(a, b))
  {
    if a != [] && b != [] {
      LessTotal(a[1..], b[1..]);
      if a[0] == b[0] && a[1..] == b[1..] {
        assert a == [a[0]] + a[1..] && b == [b[0]] + b[1..];
      }
    }
  }

  function KindRank(kind: HiddenKind): nat {
    match kind
    case IndexKind => 0
    case MetaKind => 1
    case OutboxKind => 2
    case RunKind => 3
  }

  predicate Before(a: Name, b: Name) {
    KindRank(a.kind) < KindRank(b.kind) || (a.kind == b.kind && Less(a.id, b.id))
  }

  lemma BeforeTransitive(a: Name, b: Name, c: Name)
    requires Before(a, b) && Before(b, c)
    ensures Before(a, c)
  {
    if a.kind == b.kind == c.kind {
      LessTransitive(a.id, b.id, c.id);
    }
  }

  lemma BeforeTotal(a: Name, b: Name)
    ensures a == b || Before(a, b) || Before(b, a)
    ensures !(Before(a, b) && Before(b, a)) && (a == b ==> !Before(a, b))
  {
    LessTotal(a.id, b.id);
  }

  // -- Sorting entities by name --------------------------------------------------------------

  predicate Distinct(es: seq<Entity>) {
    forall i, j :: 0 <= i < j < |es| ==> es[i].name != es[j].name
  }

  predicate Sorted(es: seq<Entity>) {
    forall i, j :: 0 <= i < j < |es| ==> Before(es[i].name, es[j].name)
  }

  function Insert(es: seq<Entity>, e: Entity): (r: seq<Entity>)
    requires Sorted(es) && forall i :: 0 <= i < |es| ==> es[i].name != e.name
    ensures Sorted(r) && |r| == |es| + 1 && forall x :: x in r <==> x == e || x in es
  {
    if es == [] then [e]
    else if Before(e.name, es[0].name) then
      assert forall i :: 0 < i < |es| ==> Before(e.name, es[i].name) by {
        forall i | 0 < i < |es| ensures Before(e.name, es[i].name) {
          BeforeTransitive(e.name, es[0].name, es[i].name);
        }
      }
      [e] + es
    else
      BeforeTotal(e.name, es[0].name);
      var rest := Insert(es[1..], e);
      assert forall x :: x in rest ==> Before(es[0].name, x.name);
      assert es == [es[0]] + es[1..];
      [es[0]] + rest
  }

  function Sort(es: seq<Entity>): (r: seq<Entity>)
    requires Distinct(es)
    ensures Sorted(r) && |r| == |es| && forall x :: x in r <==> x in es
  {
    if es == [] then []
    else
      var init, last := es[..|es| - 1], es[|es| - 1];
      assert es == init + [last];
      assert forall x :: x in Sort(init) ==> x.name != last.name;
      Insert(Sort(init), last)
  }

  // -- Writing ---------------------------------------------------------------------------------

  function OwnerKind(owner: Option<Name>): HiddenKind {
    if owner.Some? then owner.value.kind else IndexKind
  }

  function OwnerId(owner: Option<Name>): Bytes {
    if owner.Some? then owner.value.id else INDEX_ID
  }

  predicate Chunkable(content: Bytes) {
    0 < Parts(content) < STATE_LIMIT
  }

  function PartOf(owner: Option<Name>, content: Bytes, part: nat): Value
    requires part < Parts(content)
  {
    ChunkValue(Chunk(OwnerKind(owner), OwnerId(owner), part, Parts(content), Part(content, part)))
  }

  function OwnerKeys(owner: Option<Name>, content: Bytes): set<Key> {
    set part | 0 <= part < Parts(content) :: PartKey(owner, part)
  }

  function OwnerRows(owner: Option<Name>, content: Bytes): map<Key, Value> {
    map key | key in OwnerKeys(owner, content) :: PartOf(owner, content, key.part)
  }

  function EntityRows(es: seq<Entity>): map<Key, Value> {
    if es == [] then map[] else EntityRows(es[..|es| - 1]) + OwnerRows(Some(es[|es| - 1].name), es[|es| - 1].text)
  }

  function Manifest(es: seq<Entity>): seq<IndexEntry> {
    seq(|es|, i requires 0 <= i < |es| => IndexEntry(es[i].name, Parts(es[i].text)))
  }

  function PartCount(entries: seq<IndexEntry>): nat {
    if entries == [] then 0 else PartCount(entries[..|entries| - 1]) + entries[|entries| - 1].parts
  }

  function HeadOf(codec: Codec, revision: nat, manifest: Bytes): Value {
    HeadValue(revision, Parts(manifest), codec.digest(manifest))
  }

  function StateRows(codec: Codec, revision: nat, es: seq<Entity>): map<Key, Value>
    requires Distinct(es)
  {
    var sorted := Sort(es);
    var manifest := codec.printIndex(Manifest(sorted));
    map[HeadKey := HeadOf(codec, revision, manifest)] + OwnerRows(None, manifest) + EntityRows(sorted)
  }

  /** The rows a Board's hidden entities are stored in, or none when they exceed a limit. */
  function StatesFor(codec: Codec, revision: nat, es: seq<Entity>): Option<map<Key, Value>>
    requires Distinct(es)
  {
    var sorted := Sort(es);
    var manifest := codec.printIndex(Manifest(sorted));
    var rows := StateRows(codec, revision, es);
    if
      && (forall i :: 0 <= i < |sorted| ==> Chunkable(sorted[i].text))
      && Chunkable(manifest)
      && 1 + Parts(manifest) + PartCount(Manifest(sorted)) <= STATE_LIMIT
      && (forall key :: key in rows ==> codec.stateSize(rows[key]) <= STATE_BYTES)
    then Some(rows) else None
  }

  // -- Reading -----------------------------------------------------------------------------------

  /** The guards every row read back must pass. */
  predicate Readable(codec: Codec, rows: Rows, key: Key, revision: nat) {
    key in rows && 0 < rows[key].revision <= revision && codec.stateSize(rows[key].value) <= STATE_BYTES
  }

  predicate ReadableChunk(codec: Codec, rows: Rows, key: Key, revision: nat) {
    Readable(codec, rows, key, revision) && rows[key].value.ChunkValue?
  }

  function ReadContent(codec: Codec, rows: Rows, owner: Option<Name>, total: nat, revision: nat): Option<Bytes> {
    if forall p :: 0 <= p < total ==> ReadableChunk(codec, rows, PartKey(owner, p), revision)
    then Decode(seq(total, p requires 0 <= p < total && ReadableChunk(codec, rows, PartKey(owner, p), revision) =>
                      rows[PartKey(owner, p)].value.chunk), OwnerKind(owner), OwnerId(owner), total)
    else None
  }

  predicate EntryOk(codec: Codec, entry: IndexEntry) {
    && !entry.name.kind.IndexKind? && codec.validId(entry.name.id) && 0 < entry.parts < STATE_LIMIT
    && (entry.name.kind.MetaKind? ==> entry.name.id == META_ID)
  }

  predicate ManifestOk(codec: Codec, entries: seq<IndexEntry>, parts: nat) {
    && 0 < |entries| < STATE_LIMIT
    && (forall i :: 0 <= i < |entries| ==> EntryOk(codec, entries[i]))
    && (forall i :: 0 < i < |entries| ==> Before(entries[i - 1].name, entries[i].name))
    && 1 + parts + PartCount(entries) <= STATE_LIMIT
  }

  function ParseManifest(codec: Codec, content: Bytes, parts: nat, digest: Bytes): Option<seq<IndexEntry>> {
    var parsed := codec.parseIndex(content);
    if codec.digest(content) == digest && parsed.Some? && ManifestOk(codec, parsed.value, parts) then parsed else None
  }

  function ReadEntity(codec: Codec, rows: Rows, entry: IndexEntry, revision: nat): Option<Entity> {
    var content := ReadContent(codec, rows, Some(entry.name), entry.parts, revision);
    if content.Some? && codec.idOf(entry.name.kind, content.value) == Some(entry.name.id)
    then Some(Entity(entry.name, content.value))
    else None
  }

  function ReadEntities(codec: Codec, rows: Rows, entries: seq<IndexEntry>, revision: nat): Option<seq<Entity>> {
    if entries == [] then Some([])
    else
      var init := ReadEntities(codec, rows, entries[..|entries| - 1], revision);
      var last := ReadEntity(codec, rows, entries[|entries| - 1], revision);
      if init.Some? && last.Some? then Some(init.value + [last.value]) else None
  }

  predicate HeadOk(codec: Codec, rows: Rows, revision: nat) {
    && Readable(codec, rows, HeadKey, revision) && rows[HeadKey].value.HeadValue?
    && rows[HeadKey].value.revision == rows[HeadKey].revision == revision
    && 0 < rows[HeadKey].value.parts < STATE_LIMIT
  }

  function ReadManifest(codec: Codec, rows: Rows, revision: nat): Option<seq<IndexEntry>> {
    if HeadOk(codec, rows, revision) then
      var head := rows[HeadKey].value;
      var content := ReadContent(codec, rows, None, head.parts, revision);
      if content.Some? then ParseManifest(codec, content.value, head.parts, head.digest) else None
    else None
  }

  function ReadHidden(codec: Codec, rows: Rows, revision: nat): Option<seq<Entity>> {
    var entries := ReadManifest(codec, rows, revision);
    if entries.Some? then ReadEntities(codec, rows, entries.value, revision) else None
  }

  // -- Reading undoes writing ----------------------------------------------------------------------

  ghost predicate Serves(codec: Codec, rows: Rows, values: map<Key, Value>, revision: nat) {
    forall key :: key in values ==> Readable(codec, rows, key, revision) && rows[key].value == values[key]
  }

  lemma ContentReadBack(codec: Codec, rows: Rows, owner: Option<Name>, content: Bytes, revision: nat)
    requires Chunkable(content) && Serves(codec, rows, OwnerRows(owner, content), revision)
    ensures ReadContent(codec, rows, owner, Parts(content), revision) == Some(content)
  {
    var total := Parts(content);
    forall p: nat | p < total
      ensures ReadableChunk(codec, rows, PartKey(owner, p), revision)
      ensures rows[PartKey(owner, p)].value == PartOf(owner, content, p)
    {
      assert PartKey(owner, p) in OwnerKeys(owner, content);
    }
    var read := seq(total, p requires 0 <= p < total && ReadableChunk(codec, rows, PartKey(owner, p), revision) =>
                      rows[PartKey(owner, p)].value.chunk);
    assert read == Encode(OwnerKind(owner), OwnerId(owner), content).value;
    DecodeEncode(OwnerKind(owner), OwnerId(owner), content);
  }

  lemma {:induction false} EntityRowsAt(es: seq<Entity>, i: nat, key: Key)
    requires Distinct(es) && i < |es| && key in OwnerRows(Some(es[i].name), es[i].text)
    ensures key in EntityRows(es) && EntityRows(es)[key] == OwnerRows(Some(es[i].name), es[i].text)[key]
  {
    if i < |es| - 1 {
      EntityRowsAt(es[..|es| - 1], i, key);
    }
  }

  lemma {:induction false} EntityRowsOwned(es: seq<Entity>, key: Key)
    requires key in EntityRows(es)
    ensures key.PartKey? && key.owner.Some?
  {
    if key !in OwnerRows(Some(es[|es| - 1].name), es[|es| - 1].text) {
      EntityRowsOwned(es[..|es| - 1], key);
    }
  }

  /** An entity's text names it, and is neither empty nor too long. */
  predicate Writable(codec: Codec, e: Entity) {
    Chunkable(e.text) && Named(codec, e)
  }

  lemma EntityReadBack(codec: Codec, rows: Rows, es: seq<Entity>, i: nat, revision: nat)
    requires Distinct(es) && Serves(codec, rows, EntityRows(es), revision)
    requires i < |es| && Writable(codec, es[i])
    ensures ReadEntity(codec, rows, Manifest(es)[i], revision) == Some(es[i])
  {
    forall key | key in OwnerRows(Some(es[i].name), es[i].text)
      ensures Readable(codec, rows, key, revision) && rows[key].value == OwnerRows(Some(es[i].name), es[i].text)[key]
    {
      EntityRowsAt(es, i, key);
    }
    ContentReadBack(codec, rows, Some(es[i].name), es[i].text, revision);
  }

  lemma {:induction false} EntitiesCollect(codec: Codec, rows: Rows, entries: seq<IndexEntry>, es: seq<Entity>, revision: nat)
    requires |entries| == |es|
    requires forall i :: 0 <= i < |es| ==> ReadEntity(codec, rows, entries[i], revision) == Some(es[i])
    ensures ReadEntities(codec, rows, entries, revision) == Some(es)
  {
    if es != [] {
      EntitiesCollect(codec, rows, entries[..|es| - 1], es[..|es| - 1], revision);
      assert es == es[..|es| - 1] + [es[|es| - 1]];
    }
  }

  lemma EntitiesReadBack(codec: Codec, rows: Rows, es: seq<Entity>, revision: nat)
    requires Distinct(es) && Serves(codec, rows, EntityRows(es), revision)
    requires forall i :: 0 <= i < |es| ==> Writable(codec, es[i])
    ensures ReadEntities(codec, rows, Manifest(es), revision) == Some(es)
  {
    forall i | 0 <= i < |es|
      ensures ReadEntity(codec, rows, Manifest(es)[i], revision) == Some(es[i])
    {
      EntityReadBack(codec, rows, es, i, revision);
    }
    EntitiesCollect(codec, rows, Manifest(es), es, revision);
  }

  lemma {:induction false} PartCountAtLeast(entries: seq<IndexEntry>)
    requires forall i :: 0 <= i < |entries| ==> entries[i].parts > 0
    ensures PartCount(entries) >= |entries|
  {
    if entries != [] {
      PartCountAtLeast(entries[..|entries| - 1]);
    }
  }

  lemma StateRowsCover(codec: Codec, revision: nat, es: seq<Entity>)
    requires Distinct(es)
    ensures
      var sorted := Sort(es);
      var manifest := codec.printIndex(Manifest(sorted));
      var rows := StateRows(codec, revision, es);
      && HeadKey in rows && rows[HeadKey] == HeadOf(codec, revision, manifest)
      && (forall key :: key in OwnerRows(None, manifest) ==> key in rows && rows[key] == OwnerRows(None, manifest)[key])
      && (forall key :: key in EntityRows(sorted) ==> key in rows && rows[key] == EntityRows(sorted)[key])
  {
    var sorted := Sort(es);
    forall key | key in EntityRows(sorted)
      ensures key.PartKey? && key.owner.Some?
    {
      EntityRowsOwned(sorted, key);
    }
  }

  /** A row set the writer produced fits the size limit and is headed by its revision. */
  lemma StatesHead(codec: Codec, revision: nat, es: seq<Entity>, values: map<Key, Value>)
    requires Distinct(es) && StatesFor(codec, revision, es) == Some(values)
    ensures HeadKey in values && values[HeadKey].HeadValue? && values[HeadKey].revision == revision
    ensures forall key :: key in values ==> codec.stateSize(values[key]) <= STATE_BYTES
  {
    StateRowsCover(codec, revision, es);
  }

  /** The entity's own text names it; the writer takes every name from there. */
  predicate Named(codec: Codec, e: Entity) {
    codec.idOf(e.name.kind, e.text) == Some(e.name.id)
  }

  /** What the reader asks of a name in the manifest. */
  predicate Acceptable(codec: Codec, name: Name) {
    !name.kind.IndexKind? && codec.validId(name.id) && (name.kind.MetaKind? ==> name.id == META_ID)
  }

  predicate AllNamed(codec: Codec, es: seq<Entity>) {
    Distinct(es) && forall i :: 0 <= i < |es| ==> Named(codec, es[i])
  }

  predicate AllAcceptable(codec: Codec, es: seq<Entity>) {
    es != [] && forall i :: 0 <= i < |es| ==> Acceptable(codec, es[i].name)
  }

  /** A stored row set: the values of one commit, at revisions up to it, the header at it. */
  ghost predicate Stored(codec: Codec, rows: Rows, values: map<Key, Value>, revision: nat) {
    && Serves(codec, rows, values, revision)
    && HeadKey in rows && rows[HeadKey].revision == revision
  }

  /** Of a manifest within the limits, the reader's checks ask only for acceptable names. */
  lemma ManifestAccepted(codec: Codec, es: seq<Entity>, parts: nat)
    requires Sorted(es)
    requires (forall i :: 0 <= i < |es| ==> Chunkable(es[i].text)) && 1 + parts + PartCount(Manifest(es)) <= STATE_LIMIT
    ensures ManifestOk(codec, Manifest(es), parts) <==> AllAcceptable(codec, es)
  {
    var entries := Manifest(es);
    if AllAcceptable(codec, es) {
      forall i | 0 <= i < |es|
        ensures EntryOk(codec, entries[i])
      {
        assert Acceptable(codec, es[i].name);
      }
      PartCountAtLeast(entries);
    } else if es != [] {
      var i :| 0 <= i < |es| && !Acceptable(codec, es[i].name);
      assert !EntryOk(codec, entries[i]);
    }
  }

  lemma ManifestReadBack(codec: Codec, rows: Rows, es: seq<Entity>, revision: nat)
    requires Lawful(codec) && Sorted(es)
    requires (forall i :: 0 <= i < |es| ==> Chunkable(es[i].text)) && Chunkable(codec.printIndex(Manifest(es)))
    requires 1 + Parts(codec.printIndex(Manifest(es))) + PartCount(Manifest(es)) <= STATE_LIMIT
    requires Serves(codec, rows, OwnerRows(None, codec.printIndex(Manifest(es))), revision)
    requires Readable(codec, rows, HeadKey, revision) && rows[HeadKey].revision == revision
    requires rows[HeadKey].value == HeadOf(codec, revision, codec.printIndex(Manifest(es)))
    ensures ReadManifest(codec, rows, revision) == if AllAcceptable(codec, es) then Some(Manifest(es)) else None
  {
    var manifest := codec.printIndex(Manifest(es));
    ContentReadBack(codec, rows, None, manifest, revision);
    ManifestAccepted(codec, es, Parts(manifest));
  }

  lemma SortKeeps(codec: Codec, es: seq<Entity>)
    requires AllNamed(codec, es)
    ensures AllNamed(codec, Sort(es)) && (AllAcceptable(codec, Sort(es)) <==> AllAcceptable(codec, es))
  {
    var sorted := Sort(es);
    forall i, j | 0 <= i < j < |sorted|
      ensures sorted[i].name != sorted[j].name
    {
      BeforeTotal(sorted[i].name, sorted[j].name);
    }
    forall i | 0 <= i < |sorted|
      ensures Named(codec, sorted[i]) && (AllAcceptable(codec, es) ==> Acceptable(codec, sorted[i].name))
    {
      assert sorted[i] in es;
    }
    forall i | 0 <= i < |es|
      ensures AllAcceptable(codec, sorted) ==> Acceptable(codec, es[i].name)
    {
      assert es[i] in sorted;
    }
  }

  /** Of what the writer stored, the reader returns the same entities, in name order, if there are any
      and their names are acceptable; otherwise it refuses. */
  lemma HiddenRoundTrip(codec: Codec, rows: Rows, es: seq<Entity>, revision: nat)
    requires Lawful(codec) && AllNamed(codec, es) && StatesFor(codec, revision, es).Some?
    requires Stored(codec, rows, StatesFor(codec, revision, es).value, revision)
    ensures ReadHidden(codec, rows, revision) == if AllAcceptable(codec, es) then Some(Sort(es)) else None
  {
    var sorted := Sort(es);
    SortKeeps(codec, es);
    StateRowsCover(codec, revision, es);
    ManifestReadBack(codec, rows, sorted, revision);
    forall i | 0 <= i < |sorted|
      ensures Writable(codec, sorted[i])
    {
      assert Named(codec, sorted[i]);
    }
    EntitiesReadBack(codec, rows, sorted, revision);
  }
}
