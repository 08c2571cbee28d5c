/** Reading a collection over many separate queries while other writers commit between them. */
module Snapshots {
  import opened Values
  import opened Chunks
  import opened Pages
  import opened Collection
  import opened Listing
  import opened Boards
  import opened BoardPages

  /** Commits move the collection forward one revision at a time; between commits nothing changes. */
  predicate Advances(a: Server, b: Server) {
    a.revision <= b.revision && (a.revision == b.revision ==> a == b)
  }

  lemma LandAdvances(server: Server, change: Change)
    ensures Advances(server, Land(server, change)) && Land(server, change) != server
  {
  }

  /** Along a collection's life the server only advances, and shows one revision exactly while nothing is committed. */
  lemma {:induction false} LifeAdvances(codec: Codec, dc: DocCodec, drafts: seq<Draft>, later: seq<Draft>)
    requires drafts <= later && ServerAfter(codec, dc, later).Some?
    ensures ServerAfter(codec, dc, drafts).Some?
    ensures Advances(ServerAfter(codec, dc, drafts).value, ServerAfter(codec, dc, later).value)
    ensures drafts != later ==> ServerAfter(codec, dc, drafts).value.revision < ServerAfter(codec, dc, later).value.revision
    decreases |later|
  {
    if |drafts| == |later| {
      assert drafts == later;
    } else {
      var init := later[..|later| - 1];
      LifeAdvances(codec, dc, drafts, init);
      var before := ServerAfter(codec, dc, init).value;
      var next := Address(codec, dc, later[|later| - 1]).value;
      LandAdvances(before, ChangesFor(dc, before, ImageOf(codec, next).value).value);
    }
  }

  // -- A collection of committed Boards --------------------------------------------------------

  /** One commit: the Board, and the order its arrays were in. */
  datatype Posting = Posting(board: Board, order: Order)

  ghost predicate Posted(conversation: Id, posting: Posting) {
    Postable(conversation, posting.board) && Arranged(posting.board, posting.order)
  }

  ghost predicate AllPosted(conversation: Id, postings: seq<Posting>) {
    forall i :: 0 <= i < |postings| ==> Posted(conversation, postings[i])
  }

  function DraftAt(fs: Formats, posting: Posting): Draft {
    if Arranged(posting.board, posting.order) && posting.board.revision >= 0 then DraftOf(fs, posting.board, posting.order) else Draft(0, [], [])
  }

  function DraftsOf(fs: Formats, postings: seq<Posting>): seq<Draft> {
    seq(|postings|, i requires 0 <= i < |postings| => DraftAt(fs, postings[i]))
  }

  /** The timeline of one conversation's collection: at each time some Boards have been committed, and never fewer later. */
  ghost predicate Life(codec: Codec, dc: DocCodec, fs: Formats, conversation: Id, timeline: nat -> Server, commits: nat -> seq<Posting>) {
    && (forall t :: AllPosted(conversation, commits(t)) && ServerAfter(codec, dc, DraftsOf(fs, commits(t))) == Some(timeline(t)))
    && (forall a, b :: a <= b ==> commits(a) <= commits(b))
  }

  lemma DraftsGrow(fs: Formats, early: seq<Posting>, late: seq<Posting>)
    requires early <= late
    ensures DraftsOf(fs, early) <= DraftsOf(fs, late) && |DraftsOf(fs, early)| == |early| && |DraftsOf(fs, late)| == |late|
  {
  }

  lemma ServersAdvance(codec: Codec, dc: DocCodec, fs: Formats, early: seq<Posting>, late: seq<Posting>, a: Server, b: Server)
    requires early <= late && ServerAfter(codec, dc, DraftsOf(fs, early)) == Some(a) && ServerAfter(codec, dc, DraftsOf(fs, late)) == Some(b)
    ensures Advances(a, b) && (a.revision == b.revision ==> early == late)
  {
    DraftsGrow(fs, early, late);
    LifeAdvances(codec, dc, DraftsOf(fs, early), DraftsOf(fs, late));
  }

  lemma LifeSteady(codec: Codec, dc: DocCodec, fs: Formats, conversation: Id, timeline: nat -> Server, commits: nat -> seq<Posting>, a: nat, b: nat)
    requires Life(codec, dc, fs, conversation, timeline, commits) && a <= b
    ensures Advances(timeline(a), timeline(b)) && (timeline(a).revision == timeline(b).revision ==> commits(a) == commits(b))
  {
    ServersAdvance(codec, dc, fs, commits(a), commits(b), timeline(a), timeline(b));
  }

  /** What was read rebuilds this Board and no other. */
  ghost predicate RebuildsOnly(fs: Formats, conversation: Id, read: Content, b: Board) {
    forall c :: Rebuilds(fs, conversation, read, c) <==> c == b
  }

  /** What was read is the Board committed last, or nothing where nothing was. */
  ghost predicate ReadsLast(fs: Formats, conversation: Id, postings: seq<Posting>, read: Content) {
    if postings == [] then read == EMPTY else RebuildsOnly(fs, conversation, read, postings[|postings| - 1].board)
  }

  lemma LifeReadsLast(codec: Codec, dc: DocCodec, fs: Formats, conversation: Id, postings: seq<Posting>, server: Server)
    requires Notation(codec, dc, fs) && AllPosted(conversation, postings)
    requires ServerAfter(codec, dc, DraftsOf(fs, postings)) == Some(server)
    ensures ReadAll(codec, dc, server).Some? && ReadsLast(fs, conversation, postings, ReadAll(codec, dc, server).value)
  {
    if postings != [] {
      var last := postings[|postings| - 1];
      assert Posted(conversation, last);
      BoardReadBack(codec, dc, fs, conversation, DraftsOf(fs, postings), last.board, last.order);
    }
  }

  class Client {
    const codec: Codec
    const dc: DocCodec

    /** Whether listing queries are answered from the collection; the client does not know. */
    const faithful: bool

    /** What the server shows as time passes, other writers committing whenever they do. */
    const timeline: nat -> Server
    var now: nat

    function Shown(): Server
      reads this
    {
      timeline(now)
    }

    ghost predicate Steady() {
      forall a, b :: a <= b ==> Advances(timeline(a), timeline(b))
    }

    constructor (codec: Codec, dc: DocCodec, faithful: bool, timeline: nat -> Server)
      ensures this.codec == codec && this.dc == dc && this.faithful == faithful && this.timeline == timeline && now == 0
    {
      this.codec, this.dc, this.faithful, this.timeline, now := codec, dc, faithful, timeline, 0;
    }

    /** Any time may pass before the next query. */
    method Interfere()
      requires Steady()
      modifies this
      ensures old(now) <= now && Advances(old(Shown()), Shown())
    {
      var later: int := *;
      if later > now {
        now := later;
      }
    }

    /** One protected row under the reader's guards. */
    method QueryState(key: Key, revision: nat) returns (r: Option<Stamped<Value>>)
      requires Steady()
      modifies this
      ensures old(now) <= now && Advances(old(Shown()), Shown())
      ensures r == (if Readable(codec, Shown().states, key, revision) then Some(Shown().states[key]) else None)
    {
      Interfere();
      r := if Readable(codec, Shown().states, key, revision) then Some(Shown().states[key]) else None;
    }

    method QueryRecords(after: Option<RecordId>) returns (page: Page)
      requires Steady()
      modifies this
      ensures old(now) <= now && Advances(old(Shown()), Shown())
      ensures faithful ==> Faithful(page, Shown().docs, after)
    {
      Interfere();
      if faithful {
        page := ServePage(Shown().docs, after);
      } else {
        page := *;
      }
    }

    method FetchContent(owner: Option<Name>, total: nat, revision: nat) returns (r: Option<Bytes>)
      requires Steady()
      modifies this
      ensures old(now) <= now && Advances(old(Shown()), Shown())
      ensures Shown().revision == old(Shown().revision) ==> r == ReadContent(codec, Shown().states, owner, total, revision)
    {
      var chunks: seq<Chunk> := [];
      while |chunks| < total
        invariant |chunks| <= total && old(now) <= now && Advances(old(Shown()), Shown())
        invariant Shown().revision == old(Shown().revision) ==>
            forall p :: 0 <= p < |chunks| ==> ReadableChunk(codec, Shown().states, PartKey(owner, p), revision)
                                              && Shown().states[PartKey(owner, p)].value.chunk == chunks[p]
      {
        var row := QueryState(PartKey(owner, |chunks|), revision);
        if row.None? || !row.value.value.ChunkValue? {
          assert !ReadableChunk(codec, Shown().states, PartKey(owner, |chunks|), revision);
          return None;
        }
        chunks := chunks + [row.value.value.chunk];
      }
      r := Decode(chunks, OwnerKind(owner), OwnerId(owner), total);
      if Shown().revision == old(Shown().revision) {
        ReadContentIs(codec, Shown().states, owner, chunks, revision);
      }
    }

    method FetchEntities(entries: seq<IndexEntry>, revision: nat) returns (r: Option<seq<Entity>>)
      requires Steady()
      modifies this
      ensures old(now) <= now && Advances(old(Shown()), Shown())
      ensures Shown().revision == old(Shown().revision) ==> r == ReadEntities(codec, Shown().states, entries, revision)
    {
      var es: seq<Entity> := [];
      while |es| < |entries|
        invariant |es| <= |entries| && old(now) <= now && Advances(old(Shown()), Shown())
        invariant Shown().revision == old(Shown().revision) ==> ReadEntities(codec, Shown().states, entries[..|es|], revision) == Some(es)
      {
        var entry := entries[|es|];
        var content := FetchContent(Some(entry.name), entry.parts, revision);
        assert entries[..|es| + 1][..|es|] == entries[..|es|];
        if content.None? || codec.idOf(entry.name.kind, content.value) != Some(entry.name.id) {
          if Shown().revision == old(Shown().revision) {
            ReadEntitiesStop(codec, Shown().states, entries, |es|, revision);
          }
          return None;
        }
        es := es + [Entity(entry.name, content.value)];
      }
      assert entries[..|es|] == entries;
      r := Some(es);
    }

    method FetchHidden(head: Stamped<Value>, revision: nat) returns (r: Option<seq<Entity>>)
      requires Steady()
      modifies this
      ensures old(now) <= now && Advances(old(Shown()), Shown())
      ensures Shown().revision == old(Shown().revision) && Readable(codec, Shown().states, HeadKey, revision) ==>
          Shown().states[HeadKey] == head ==> r == ReadHidden(codec, Shown().states, revision)
    {
      if !head.value.HeadValue? || !(head.value.revision == head.revision == revision) || !(0 < head.value.parts < STATE_LIMIT) {
        return None;
      }
      var content := FetchContent(None, head.value.parts, revision);
      if content.None? {
        return None;
      }
      var entries := ParseManifest(codec, content.value, head.value.parts, head.value.digest);
      if entries.None? {
        return None;
      }
      r := FetchEntities(entries.value, revision);
    }

    /** Follow the cursor to the end. Each page either finishes or brings the count closer. */
    method Enumerate(revision: nat, count: nat) returns (r: Option<seq<Record>>)
      requires Steady()
      modifies this
      ensures old(now) <= now && Advances(old(Shown()), Shown())
      ensures r.Some? ==> |r.value| == count && Ascending(r.value)
      ensures faithful && Shown().revision == old(Shown().revision) == revision && count == |Shown().docs| ==>
          && (r.Some? <==> forall id :: id in Shown().docs ==> DocOk(dc, id, Shown().docs[id], revision))
          && (r.Some? ==> Lists(r.value, Shown().docs))
    {
      var all: seq<Record> := [];
      var after: Option<RecordId> := None;
      while true
        invariant old(now) <= now && Advances(old(Shown()), Shown())
        invariant |all| <= count && Ascending(all) && after == LastId(None, all)
        invariant faithful && Shown().revision == old(Shown().revision) ==>
            && From(all, Shown().docs) && CoversTo(all, Shown().docs, after)
            && forall i :: 0 <= i < |all| ==> DocOk(dc, all[i].id, all[i].doc, revision)
        decreases count - |all|
      {
        var page := QueryRecords(after);
        if Shown().revision != revision || |page.records| > PAGE_LIMIT {
          return None;
        }
        if !(forall i :: 0 <= i < |page.records| ==> DocOk(dc, page.records[i].id, page.records[i].doc, revision)) {
          return None;
        }
        if !OrderedFrom(after, page.records) {
          return None;
        }
        OrderedAscends(all, page.records);
        var next := all + page.records;
        if faithful && Shown().revision == old(Shown().revision) {
          PageExtends(all, page, Shown().docs, after);
        }
        if |next| > count {
          return None;
        }
        if page.nextAfter.None? {
          return if |next| == count then Some(next) else None;
        }
        if page.records == [] || page.nextAfter != LastId(after, page.records) || |next| >= count {
          return None;
        }
        all, after := next, page.nextAfter;
      }
    }

    /** Header, protected rows, documents, header again. Whatever comes back is one revision's content. */
    method Snapshot() returns (r: Option<Content>)
      requires Steady()
      modifies this
      ensures old(now) <= now && Advances(old(Shown()), Shown())
      ensures faithful && r.Some? ==> r == ReadAll(codec, dc, Shown())
      ensures faithful && Shown().revision == old(Shown().revision) ==> r == ReadAll(codec, dc, Shown())
    {
      Interfere();
      var first := Shown().revision;
      var count := |Shown().docs|;
      if count > RECORD_LIMIT {
        return None;
      }
      Interfere();
      if HeadKey !in Shown().states {
        if first != 0 || count != 0 {
          return None;
        }
        r := Some(EMPTY);
      } else {
        if !Readable(codec, Shown().states, HeadKey, first) {
          return None;
        }
        var hidden := FetchHidden(Shown().states[HeadKey], first);
        if hidden.None? {
          return None;
        }
        var records := Enumerate(first, count);
        if records.None? {
          return None;
        }
        if Lists(records.value, Shown().docs) {
          CollectedAll(records.value, Shown().docs);
        }
        r := Some(Content(first, Collected(records.value), hidden.value));
      }
      Interfere();
      if Shown().revision != first || |Shown().docs| != count {
        return None;
      }
    }

    /** Over a collection of committed Boards, whatever is committed while it reads: refused, or the Board of
        exactly one committed revision; never refused if nothing was committed meanwhile. */
    method ReadBoard(ghost fs: Formats, ghost conversation: Id, ghost commits: nat -> seq<Posting>) returns (r: Option<Content>)
      requires Notation(codec, dc, fs) && Life(codec, dc, fs, conversation, timeline, commits)
      modifies this
      ensures old(now) <= now
      ensures faithful && r.Some? ==> ReadsLast(fs, conversation, commits(now), r.value)
      ensures faithful && commits(now) == commits(old(now)) ==> r.Some?
    {
      forall a, b | a <= b
        ensures Advances(timeline(a), timeline(b))
      {
        LifeSteady(codec, dc, fs, conversation, timeline, commits, a, b);
      }
      r := Snapshot();
      LifeReadsLast(codec, dc, fs, conversation, commits(now), timeline(now));
    }
  }

  lemma ReadContentIs(codec: Codec, rows: Rows, owner: Option<Name>, chunks: seq<Chunk>, revision: nat)
    requires forall p :: 0 <= p < |chunks| ==> ReadableChunk(codec, rows, PartKey(owner, p), revision)
                                               && rows[PartKey(owner, p)].value.chunk == chunks[p]
    ensures ReadContent(codec, rows, owner, |chunks|, revision) == Decode(chunks, OwnerKind(owner), OwnerId(owner), |chunks|)
  {
    assert chunks == seq(|chunks|, p requires 0 <= p < |chunks| && ReadableChunk(codec, rows, PartKey(owner, p), revision) =>
                           rows[PartKey(owner, p)].value.chunk);
  }

  lemma {:induction false} ReadEntitiesStop(codec: Codec, rows: Rows, entries: seq<IndexEntry>, i: nat, revision: nat)
    requires i < |entries| && ReadEntity(codec, rows, entries[i], revision).None?
    ensures ReadEntities(codec, rows, entries, revision).None?
  {
    if i < |entries| - 1 {
      ReadEntitiesStop(codec, rows, entries[..|entries| - 1], i, revision);
    }
  }

  lemma ListedInEither(all: seq<Record>, more: seq<Record>, id: RecordId)
    requires Listed(all, id) || Listed(more, id)
    ensures Listed(all + more, id)
  {
    if Listed(all, id) {
      var i :| 0 <= i < |all| && all[i].id == id;
      assert (all + more)[i].id == id;
    } else {
      var i :| 0 <= i < |more| && more[i].id == id;
      assert (all + more)[|all| + i].id == id;
    }
  }

  lemma PageCovers(all: seq<Record>, page: Page, docs: Docs, after: Option<RecordId>, id: RecordId)
    requires CoversTo(all, docs, after) && Faithful(page, docs, after)
    requires id in docs && !(page.nextAfter.Some? && Past(page.nextAfter, id))
    ensures Listed(all + page.records, id)
  {
    ListedInEither(all, page.records, id);
  }

  lemma PageLeavesMore(all: seq<Record>, page: Page, docs: Docs, after: Option<RecordId>)
    requires Faithful(page, docs, after) && page.nextAfter.Some? && after == LastId(None, all)
    requires Ascending(all + page.records)
    ensures !Lists(all + page.records, docs)
  {
    var id :| id in docs && Past(page.nextAfter, id);
    LastIsLargest(all + page.records, id);
  }

  lemma PageExtends(all: seq<Record>, page: Page, docs: Docs, after: Option<RecordId>)
    requires From(all, docs) && CoversTo(all, docs, after) && Faithful(page, docs, after)
    requires Ascending(all + page.records) && after == LastId(None, all)
    ensures From(all + page.records, docs) && |all + page.records| <= |docs|
    ensures page.nextAfter.Some? ==> CoversTo(all + page.records, docs, page.nextAfter) && |all + page.records| < |docs|
    ensures page.nextAfter.None? ==> Lists(all + page.records, docs) && |all + page.records| == |docs|
  {
    var next := all + page.records;
    ListingLength(next, docs);
    forall id | id in docs && !(page.nextAfter.Some? && Past(page.nextAfter, id))
      ensures Listed(next, id)
    {
      PageCovers(all, page, docs, after, id);
    }
    if page.nextAfter.Some? {
      PageLeavesMore(all, page, docs, after);
    }
  }

  lemma LastIsLargest(records: seq<Record>, id: RecordId)
    requires Ascending(records) && records != [] && Past(LastId(None, records), id)
    ensures !Listed(records, id)
  {
    forall i | 0 <= i < |records|
      ensures records[i].id != id
    {
      LessTotal(records[i].id.text, id.text);
      if i < |records| - 1 {
        LessTransitive(records[i].id.text, records[|records| - 1].id.text, id.text);
      }
    }
  }
}
