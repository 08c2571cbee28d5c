/** One record collection: documents anyone may read and the protected rows, changed together
    by a commit that names every difference, and read back as one Board's content. */
module Collection {
  import opened Values
  import opened Chunks
  import opened Pages
  import opened Store

  datatype DocKind = TaskDoc | AskDoc | RuleDoc

  datatype RecordId = RecordId(text: Bytes)

  datatype Doc = Doc(kind: DocKind, text: Bytes)

  /** Documents' identities: the entity a document names, its record id, and its size. */
  datatype DocCodec = DocCodec(idOf: Doc -> Option<Bytes>, recordId: (DocKind, Bytes) -> RecordId, dataSize: Doc -> nat)

  datatype Server = Server(revision: nat, docs: map<RecordId, Stamped<Doc>>, states: Rows)

  /** What the writer is handed: a Board's documents and hidden values, in the order of its arrays. */
  datatype Draft = Draft(revision: nat, documents: seq<Doc>, hidden: seq<Datum>)

  /** A draft with every name worked out: documents by record id, and hidden entities. */
  datatype Content = Content(revision: nat, documents: map<RecordId, Doc>, hidden: seq<Entity>)

  /** The documents and row values a server must show for a content. */
  datatype Image = Image(revision: nat, documents: map<RecordId, Doc>, values: map<Key, Value>)

  datatype Change = Change(docs: Diff<RecordId, Doc>, states: Diff<Key, Value>)

  const RECORD_LIMIT: nat := 1024
  const CHANGE_LIMIT: nat := 16
  const DATA_BYTES: nat := 32768

  const FRESH: Server := Server(0, map[], map[])
  const EMPTY: Content := Content(0, map[], [])

  function Unstamped<K, V>(rows: map<K, Stamped<V>>): map<K, V> {
    map k | k in rows :: rows[k].value
  }

  // -- Writing ---------------------------------------------------------------------------

  predicate NamesItself(dc: DocCodec, id: RecordId, doc: Doc) {
    dc.idOf(doc).Some? && id == dc.recordId(doc.kind, dc.idOf(doc).value)
  }

  function DocKey(dc: DocCodec, doc: Doc): RecordId
    requires dc.idOf(doc).Some?
  {
    dc.recordId(doc.kind, dc.idOf(doc).value)
  }

  /** Every document has an id, and no two the same record id. */
  predicate Keyed(dc: DocCodec, docs: seq<Doc>) {
    && (forall i :: 0 <= i < |docs| ==> dc.idOf(docs[i]).Some?)
    && (forall i, j :: 0 <= i < j < |docs| ==> DocKey(dc, docs[i]) != DocKey(dc, docs[j]))
  }

  function ByKey(dc: DocCodec, docs: seq<Doc>): (m: map<RecordId, Doc>)
    requires Keyed(dc, docs)
    ensures forall id :: id in m ==> NamesItself(dc, id, m[id]) && m[id] in docs
  {
    if docs == [] then map[] else ByKey(dc, docs[..|docs| - 1])[DocKey(dc, docs[|docs| - 1]) := docs[|docs| - 1]]
  }

  lemma {:induction false} ByKeyAt(dc: DocCodec, docs: seq<Doc>, i: nat)
    requires Keyed(dc, docs) && i < |docs|
    ensures DocKey(dc, docs[i]) in ByKey(dc, docs) && ByKey(dc, docs)[DocKey(dc, docs[i])] == docs[i]
  {
    if i < |docs| - 1 {
      ByKeyAt(dc, docs[..|docs| - 1], i);
    }
  }

  predicate Nameable(codec: Codec, data: seq<Datum>) {
    forall i :: 0 <= i < |data| ==> codec.idOf(data[i].kind, data[i].text).Some?
  }

  function NameAll(codec: Codec, data: seq<Datum>): seq<Entity>
    requires Nameable(codec, data)
  {
    seq(|data|, i requires 0 <= i < |data| => Entity(Name(data[i].kind, codec.idOf(data[i].kind, data[i].text).value), data[i].text))
  }

  /** Names come from the values themselves; a value without one, or two under one, stop the writer. */
  function Address(codec: Codec, dc: DocCodec, draft: Draft): (r: Option<Content>)
    ensures r.Some? ==> Addressed(codec, dc, r.value)
  {
    if Keyed(dc, draft.documents) && Nameable(codec, draft.hidden) && Distinct(NameAll(codec, draft.hidden))
    then Some(Content(draft.revision, ByKey(dc, draft.documents), NameAll(codec, draft.hidden)))
    else None
  }

  predicate Addressed(codec: Codec, dc: DocCodec, content: Content) {
    AllNamed(codec, content.hidden) && forall id :: id in content.documents ==> NamesItself(dc, id, content.documents[id])
  }

  function Size(change: Change): nat {
    |change.docs.upsert| + |change.docs.delete| + |change.states.upsert| + |change.states.delete|
  }

  function ImageOf(codec: Codec, content: Content): Option<Image>
    requires Distinct(content.hidden)
  {
    var rows := StatesFor(codec, content.revision, content.hidden);
    if rows.Some? then Some(Image(content.revision, content.documents, rows.value)) else None
  }

  function ChangesFor(dc: DocCodec, before: Server, next: Image): Option<Change> {
    var change := Change(DiffOf(Unstamped(before.docs), next.documents), DiffOf(Unstamped(before.states), next.values));
    if
      && |next.documents| <= RECORD_LIMIT
      && (forall id :: id in change.docs.upsert ==> dc.dataSize(change.docs.upsert[id]) <= DATA_BYTES)
      && Size(change) <= CHANGE_LIMIT
    then Some(change) else None
  }

  function Stamp<K, V>(rows: map<K, Stamped<V>>, diff: Diff<K, V>, revision: nat): map<K, Stamped<V>> {
    rows - diff.delete + (map k | k in diff.upsert :: Stamped(diff.upsert[k], revision))
  }

  /** The server lands a change whole, stamping what it touched with the new revision. */
  function Land(server: Server, change: Change): Server {
    Server(server.revision + 1,
           Stamp(server.docs, change.docs, server.revision + 1),
           Stamp(server.states, change.states, server.revision + 1))
  }

  // -- Reading ----------------------------------------------------------------------------

  predicate DocOk(dc: DocCodec, id: RecordId, row: Stamped<Doc>, revision: nat) {
    dc.dataSize(row.value) <= DATA_BYTES && NamesItself(dc, id, row.value) && 0 < row.revision <= revision
  }

  function ReadAll(codec: Codec, dc: DocCodec, server: Server): Option<Content> {
    if |server.docs| > RECORD_LIMIT then None
    else if HeadKey !in server.states then
      if server.revision == 0 && |server.docs| == 0 then Some(EMPTY) else None
    else
      var hidden := ReadHidden(codec, server.states, server.revision);
      if hidden.Some? && forall id :: id in server.docs ==> DocOk(dc, id, server.docs[id], server.revision)
      then Some(Content(server.revision, Unstamped(server.docs), hidden.value))
      else None
  }

  // -- Reading undoes writing, commit after commit ------------------------------------------

  ghost predicate DocsHold(dc: DocCodec, server: Server, documents: map<RecordId, Doc>) {
    && Unstamped(server.docs) == documents && |server.docs| <= RECORD_LIMIT
    && forall id :: id in server.docs ==> DocOk(dc, id, server.docs[id], server.revision)
  }

  ghost predicate StatesHold(codec: Codec, server: Server, values: map<Key, Value>) {
    && Unstamped(server.states) == values && Stored(codec, server.states, values, server.revision)
    && HeadKey in values && values[HeadKey].HeadValue? && values[HeadKey].revision == server.revision
  }

  /** The server shows exactly this image. */
  ghost predicate Holds(codec: Codec, dc: DocCodec, server: Server, image: Image) {
    server.revision == image.revision && DocsHold(dc, server, image.documents) && StatesHold(codec, server, image.values)
  }

  /** What the writer hands over: documents naming themselves, rows within their size, headed by their revision. */
  ghost predicate Sendable(codec: Codec, dc: DocCodec, image: Image) {
    && (forall id :: id in image.documents ==> NamesItself(dc, id, image.documents[id]))
    && HeadKey in image.values && image.values[HeadKey].HeadValue? && image.values[HeadKey].revision == image.revision
    && forall key :: key in image.values ==> codec.stateSize(image.values[key]) <= STATE_BYTES
  }

  lemma SameKeysSameSize<K, V, W>(a: map<K, V>, b: map<K, W>)
    requires a.Keys == b.Keys
    ensures |a| == |b|
  {
    assert |a.Keys| == |a| && |b.Keys| == |b|;
  }

  lemma StampedDiff<K, V>(rows: map<K, Stamped<V>>, next: map<K, V>, revision: nat)
    ensures
      var after := Stamp(rows, DiffOf(Unstamped(rows), next), revision);
      && after.Keys == next.Keys
      && forall k :: k in next ==>
                       && after[k].value == next[k]
                       && if k in rows && rows[k].value == next[k] then after[k] == rows[k] else after[k].revision == revision
  {
  }

  lemma StampedSize<K, V>(rows: map<K, Stamped<V>>, next: map<K, V>, revision: nat)
    ensures |Stamp(rows, DiffOf(Unstamped(rows), next), revision)| == |next|
  {
    StampedDiff(rows, next, revision);
    SameKeysSameSize(Stamp(rows, DiffOf(Unstamped(rows), next), revision), next);
  }

  lemma StampKeepsDocs(dc: DocCodec, docs: map<RecordId, Stamped<Doc>>, next: map<RecordId, Doc>, revision: nat)
    requires forall id :: id in docs ==> DocOk(dc, id, docs[id], revision)
    requires forall id :: id in next ==> NamesItself(dc, id, next[id])
    requires forall id :: id in DiffOf(Unstamped(docs), next).upsert ==> dc.dataSize(next[id]) <= DATA_BYTES
    ensures
      var after := Stamp(docs, DiffOf(Unstamped(docs), next), revision + 1);
      && Unstamped(after) == next
      && forall id :: id in after ==> DocOk(dc, id, after[id], revision + 1)
  {
    var after := Stamp(docs, DiffOf(Unstamped(docs), next), revision + 1);
    StampedDiff(docs, next, revision + 1);
    forall id | id in after
      ensures DocOk(dc, id, after[id], revision + 1)
    {
      if id in docs && docs[id].value == next[id] {
        assert DocOk(dc, id, docs[id], revision);
      }
    }
  }

  lemma StampKeepsStates(codec: Codec, rows: Rows, next: map<Key, Value>, revision: nat)
    requires forall key :: key in rows ==> Readable(codec, rows, key, revision)
    requires forall key :: key in next ==> codec.stateSize(next[key]) <= STATE_BYTES
    requires HeadKey in next && (HeadKey in rows ==> rows[HeadKey].value != next[HeadKey])
    ensures
      var after := Stamp(rows, DiffOf(Unstamped(rows), next), revision + 1);
      Unstamped(after) == next && Stored(codec, after, next, revision + 1)
  {
    var after := Stamp(rows, DiffOf(Unstamped(rows), next), revision + 1);
    StampedDiff(rows, next, revision + 1);
    forall key | key in next
      ensures Readable(codec, after, key, revision + 1)
    {
      if key in rows && rows[key].value == next[key] {
        assert Readable(codec, rows, key, revision);
      }
    }
  }

  /** What a commit needs of the collection it lands on; an untouched collection has it too. */
  ghost predicate Sound(codec: Codec, dc: DocCodec, server: Server) {
    && (forall id :: id in server.docs ==> DocOk(dc, id, server.docs[id], server.revision))
    && (forall key :: key in server.states ==> Readable(codec, server.states, key, server.revision))
    && (HeadKey in server.states ==> server.states[HeadKey].value.HeadValue? && server.states[HeadKey].value.revision == server.revision)
  }

  lemma HoldsSound(codec: Codec, dc: DocCodec, server: Server, image: Image)
    requires Holds(codec, dc, server, image)
    ensures Sound(codec, dc, server)
  {
    forall key | key in server.states
      ensures Readable(codec, server.states, key, server.revision)
    {
      assert key in Unstamped(server.states);
    }
  }

  lemma LandHoldsDocs(dc: DocCodec, before: Server, documents: map<RecordId, Doc>, change: Change)
    requires change.docs == DiffOf(Unstamped(before.docs), documents) && |documents| <= RECORD_LIMIT
    requires forall id :: id in before.docs ==> DocOk(dc, id, before.docs[id], before.revision)
    requires forall id :: id in documents ==> NamesItself(dc, id, documents[id])
    requires forall id :: id in change.docs.upsert ==> dc.dataSize(change.docs.upsert[id]) <= DATA_BYTES
    ensures DocsHold(dc, Land(before, change), documents)
  {
    StampKeepsDocs(dc, before.docs, documents, before.revision);
    StampedSize(before.docs, documents, before.revision + 1);
  }

  lemma LandHoldsStates(codec: Codec, before: Server, values: map<Key, Value>, change: Change)
    requires change.states == DiffOf(Unstamped(before.states), values)
    requires forall key :: key in before.states ==> Readable(codec, before.states, key, before.revision)
    requires forall key :: key in values ==> codec.stateSize(values[key]) <= STATE_BYTES
    requires HeadKey in before.states ==> before.states[HeadKey].value.HeadValue? && before.states[HeadKey].value.revision == before.revision
    requires HeadKey in values && values[HeadKey].HeadValue? && values[HeadKey].revision == before.revision + 1
    ensures StatesHold(codec, Land(before, change), values)
  {
    StampKeepsStates(codec, before.states, values, before.revision);
  }

  /** A commit over a sound collection leaves it showing the new image, whole. */
  lemma CommitHolds(codec: Codec, dc: DocCodec, before: Server, next: Image, change: Change)
    requires Sound(codec, dc, before)
    requires Sendable(codec, dc, next) && next.revision == before.revision + 1
    requires ChangesFor(dc, before, next) == Some(change)
    ensures Holds(codec, dc, Land(before, change), next)
  {
    LandHoldsDocs(dc, before, next.documents, change);
    LandHoldsStates(codec, before, next.values, change);
  }

  lemma WrittenIsSendable(codec: Codec, dc: DocCodec, content: Content)
    requires Addressed(codec, dc, content) && ImageOf(codec, content).Some?
    ensures Sendable(codec, dc, ImageOf(codec, content).value)
  {
    StatesHead(codec, content.revision, content.hidden, ImageOf(codec, content).value.values);
  }

  ghost predicate Shows(codec: Codec, dc: DocCodec, server: Server, content: Content) {
    && Addressed(codec, dc, content) && ImageOf(codec, content).Some?
    && Holds(codec, dc, server, ImageOf(codec, content).value)
  }

  /** The reader returns the content a collection shows, entities in name order, exactly if it has
      entities and their names are acceptable. */
  lemma ReadReturnsShown(codec: Codec, dc: DocCodec, server: Server, content: Content)
    requires Lawful(codec) && Shows(codec, dc, server, content)
    ensures ReadAll(codec, dc, server) ==
            if AllAcceptable(codec, content.hidden) then Some(content.(hidden := Sort(content.hidden))) else None
  {
    HiddenRoundTrip(codec, server.states, content.hidden, server.revision);
  }

  /** The server after a list of commits, each prepared over what the one before left. */
  function ServerAfter(codec: Codec, dc: DocCodec, drafts: seq<Draft>): Option<Server> {
    if drafts == [] then Some(FRESH)
    else
      var before := ServerAfter(codec, dc, drafts[..|drafts| - 1]);
      if before.Some? then Commit(codec, dc, before.value, drafts[|drafts| - 1]) else None
  }

  function CommitContent(codec: Codec, dc: DocCodec, before: Server, next: Content): Option<Server>
    requires Distinct(next.hidden)
  {
    var image := ImageOf(codec, next);
    if next.revision == before.revision + 1 && image.Some? then
      var change := ChangesFor(dc, before, image.value);
      if change.Some? then Some(Land(before, change.value)) else None
    else None
  }

  /** One commit, under the guards of the writer alone. */
  function Commit(codec: Codec, dc: DocCodec, before: Server, draft: Draft): Option<Server> {
    var next := Address(codec, dc, draft);
    if next.Some? then CommitContent(codec, dc, before, next.value) else None
  }

  lemma CommitShows(codec: Codec, dc: DocCodec, before: Server, next: Content)
    requires Sound(codec, dc, before) && Addressed(codec, dc, next) && CommitContent(codec, dc, before, next).Some?
    ensures Shows(codec, dc, CommitContent(codec, dc, before, next).value, next)
  {
    var image := ImageOf(codec, next).value;
    WrittenIsSendable(codec, dc, next);
    CommitHolds(codec, dc, before, image, ChangesFor(dc, before, image).value);
  }

  lemma ShowsSound(codec: Codec, dc: DocCodec, server: Server, content: Content)
    requires Shows(codec, dc, server, content)
    ensures Sound(codec, dc, server)
  {
    HoldsSound(codec, dc, server, ImageOf(codec, content).value);
  }

  lemma {:induction false} ServerShowsLast(codec: Codec, dc: DocCodec, drafts: seq<Draft>)
    requires ServerAfter(codec, dc, drafts).Some? && drafts != []
    ensures
      var last := Address(codec, dc, drafts[|drafts| - 1]);
      last.Some? && Shows(codec, dc, ServerAfter(codec, dc, drafts).value, last.value)
  {
    var init := drafts[..|drafts| - 1];
    if init != [] {
      ServerShowsLast(codec, dc, init);
      ShowsSound(codec, dc, ServerAfter(codec, dc, init).value, Address(codec, dc, init[|init| - 1]).value);
    }
    CommitShows(codec, dc, ServerAfter(codec, dc, init).value, Address(codec, dc, drafts[|drafts| - 1]).value);
  }

  /** After every list of commits, reading returns the last content committed, exactly if its names are acceptable. */
  lemma EveryReadReturnsLastCommit(codec: Codec, dc: DocCodec, drafts: seq<Draft>)
    requires Lawful(codec) && ServerAfter(codec, dc, drafts).Some? && drafts != []
    ensures
      var last := Address(codec, dc, drafts[|drafts| - 1]);
      && last.Some?
      && ReadAll(codec, dc, ServerAfter(codec, dc, drafts).value)
         == if AllAcceptable(codec, last.value.hidden) then Some(last.value.(hidden := Sort(last.value.hidden))) else None
  {
    ServerShowsLast(codec, dc, drafts);
    ReadReturnsShown(codec, dc, ServerAfter(codec, dc, drafts).value, Address(codec, dc, drafts[|drafts| - 1]).value);
  }
}
