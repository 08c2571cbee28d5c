/** A Board over its collection: each entity printed whole and named by its id, the Board rebuilt
    from the texts under the reader's own checks. */
module BoardPages {
  import opened Values
  import opened Chunks
  import opened Boards
  import opened Pages
  import opened Collection

  /** The canonical text of one kind of entity, which carries the entity's id. */
  datatype Format<!V> = Format(show: (Id, V) -> Bytes, parse: Bytes -> Option<(Id, V)>)

  ghost predicate Exact<V(!new)>(f: Format<V>) {
    forall id, v :: f.parse(f.show(id, v)) == Some((id, v))
  }

  datatype Header = Header(conversationId: Id, history: Option<FileRef>, concurrencyLimit: Option<int>, checkpoint: Checkpoint, checkinMinutes: Option<int>)

  datatype Formats = Formats(
    text: Id -> Bytes,
    task: Format<Task>, ask: Format<Ask>, rule: Format<Rule>, run: Format<Run>, outbox: Format<Entry>,
    printHeader: Header -> Bytes, parseHeader: Bytes -> Option<Header>)

  ghost predicate AllExact(fs: Formats) {
    && Exact(fs.task) && Exact(fs.ask) && Exact(fs.rule) && Exact(fs.run) && Exact(fs.outbox)
    && forall h :: fs.parseHeader(fs.printHeader(h)) == Some(h)
  }

  /** The id read out of a printed entity is the entity's id. */
  ghost predicate HiddenIds<V(!new)>(codec: Codec, text: Id -> Bytes, kind: HiddenKind, f: Format<V>) {
    forall id, v :: codec.idOf(kind, f.show(id, v)) == Some(text(id))
  }

  ghost predicate DocIds<V(!new)>(dc: DocCodec, text: Id -> Bytes, kind: DocKind, f: Format<V>) {
    forall id, v :: dc.idOf(Doc(kind, f.show(id, v))) == Some(text(id))
  }

  ghost predicate Injective(text: Id -> Bytes) {
    forall x, y :: text(x) == text(y) ==> x == y
  }

  ghost predicate Separates(dc: DocCodec) {
    forall k, a, l, b :: dc.recordId(k, a) == dc.recordId(l, b) ==> k == l && a == b
  }

  /** The laws of the text formats: printing inverts, ids are read back, and nothing collides. */
  ghost predicate Notation(codec: Codec, dc: DocCodec, fs: Formats) {
    && Lawful(codec) && AllExact(fs) && Injective(fs.text) && Separates(dc)
    && HiddenIds(codec, fs.text, RunKind, fs.run) && HiddenIds(codec, fs.text, OutboxKind, fs.outbox)
    && (forall h :: codec.idOf(MetaKind, fs.printHeader(h)) == Some(META_ID))
    && DocIds(dc, fs.text, TaskDoc, fs.task) && DocIds(dc, fs.text, AskDoc, fs.ask) && DocIds(dc, fs.text, RuleDoc, fs.rule)
    && codec.validId(META_ID) && forall id :: ValidId(id) ==> codec.validId(fs.text(id))
  }

  // -- The draft of a Board --------------------------------------------------------------------

  /** The order a Board's arrays happen to be in. */
  datatype Order = Order(tasks: seq<Id>, asks: seq<Id>, rules: seq<Id>, runs: seq<Id>, outbox: seq<Id>)

  predicate ListsKeys<V>(ids: seq<Id>, m: map<Id, V>) {
    && (forall i, j :: 0 <= i < j < |ids| ==> ids[i] != ids[j])
    && (forall id :: id in ids ==> id in m) && (forall id :: id in m ==> id in ids)
  }

  predicate Arranged(b: Board, order: Order) {
    && ListsKeys(order.tasks, b.tasks) && ListsKeys(order.asks, b.asks) && ListsKeys(order.rules, b.rules)
    && ListsKeys(order.runs, b.runs) && ListsKeys(order.outbox, b.outbox)
  }

  function HeaderOf(b: Board): Header {
    Header(b.conversationId, b.history, b.concurrencyLimit, b.checkpoint, b.checkinMinutes)
  }

  function Docs<V>(f: Format<V>, kind: DocKind, m: map<Id, V>, ids: seq<Id>): seq<Doc>
    requires ListsKeys(ids, m)
  {
    seq(|ids|, i requires 0 <= i < |ids| => Doc(kind, f.show(ids[i], m[ids[i]])))
  }

  function Data<V>(f: Format<V>, kind: HiddenKind, m: map<Id, V>, ids: seq<Id>): seq<Datum>
    requires ListsKeys(ids, m)
  {
    seq(|ids|, i requires 0 <= i < |ids| => Datum(kind, f.show(ids[i], m[ids[i]])))
  }

  function DocumentsFor(fs: Formats, b: Board, order: Order): seq<Doc>
    requires Arranged(b, order)
  {
    Docs(fs.task, TaskDoc, b.tasks, order.tasks) + Docs(fs.ask, AskDoc, b.asks, order.asks) + Docs(fs.rule, RuleDoc, b.rules, order.rules)
  }

  function HiddenFor(fs: Formats, b: Board, order: Order): seq<Datum>
    requires Arranged(b, order)
  {
    [Datum(MetaKind, fs.printHeader(HeaderOf(b)))] + Data(fs.run, RunKind, b.runs, order.runs) + Data(fs.outbox, OutboxKind, b.outbox, order.outbox)
  }

  function DraftOf(fs: Formats, b: Board, order: Order): Draft
    requires Arranged(b, order) && b.revision >= 0
  {
    Draft(b.revision, DocumentsFor(fs, b, order), HiddenFor(fs, b, order))
  }

  // -- Its names work out ------------------------------------------------------------------------

  /** Data whose names all work out and are acceptable. */
  predicate Good(codec: Codec, data: seq<Datum>) {
    && Nameable(codec, data) && AllNamed(codec, NameAll(codec, data))
    && forall i :: 0 <= i < |data| ==> Acceptable(codec, NameAll(codec, data)[i].name)
  }

  lemma DataGood<V(!new)>(codec: Codec, text: Id -> Bytes, f: Format<V>, kind: HiddenKind, m: map<Id, V>, ids: seq<Id>)
    requires HiddenIds(codec, text, kind, f) && Injective(text) && (kind.RunKind? || kind.OutboxKind?) && ListsKeys(ids, m)
    requires forall id :: id in m ==> codec.validId(text(id))
    ensures Good(codec, Data(f, kind, m, ids)) && forall i :: 0 <= i < |ids| ==> Data(f, kind, m, ids)[i].kind == kind
  {
    var data := Data(f, kind, m, ids);
    forall i | 0 <= i < |data|
      ensures codec.idOf(data[i].kind, data[i].text) == Some(text(ids[i])) && ids[i] in m
    {
    }
    var es := NameAll(codec, data);
    forall i, j | 0 <= i < j < |es|
      ensures es[i].name != es[j].name
    {
      assert text(ids[i]) != text(ids[j]);
    }
  }

  lemma GoodJoin(codec: Codec, a: seq<Datum>, b: seq<Datum>)
    requires Good(codec, a) && Good(codec, b)
    requires forall i, j :: 0 <= i < |a| && 0 <= j < |b| ==> a[i].kind != b[j].kind
    ensures Good(codec, a + b)
  {
    var es := NameAll(codec, a + b);
    assert es == NameAll(codec, a) + NameAll(codec, b);
    forall i, j | 0 <= i < j < |es|
      ensures es[i].name != es[j].name
    {
      if i < |a| && j >= |a| {
        assert a[i].kind != b[j - |a|].kind;
      }
    }
  }

  lemma HiddenGood(codec: Codec, dc: DocCodec, fs: Formats, b: Board, order: Order)
    requires Notation(codec, dc, fs) && Arranged(b, order)
    requires (forall id :: id in b.runs ==> ValidId(id)) && (forall id :: id in b.outbox ==> ValidId(id))
    ensures Good(codec, HiddenFor(fs, b, order))
  {
    var meta := [Datum(MetaKind, fs.printHeader(HeaderOf(b)))];
    var runs, outbox := Data(fs.run, RunKind, b.runs, order.runs), Data(fs.outbox, OutboxKind, b.outbox, order.outbox);
    DataGood(codec, fs.text, fs.run, RunKind, b.runs, order.runs);
    DataGood(codec, fs.text, fs.outbox, OutboxKind, b.outbox, order.outbox);
    assert Good(codec, meta);
    GoodJoin(codec, meta, runs);
    GoodJoin(codec, meta + runs, outbox);
  }

  lemma DocsKeyed<V(!new)>(dc: DocCodec, text: Id -> Bytes, f: Format<V>, kind: DocKind, m: map<Id, V>, ids: seq<Id>)
    requires DocIds(dc, text, kind, f) && Injective(text) && Separates(dc) && ListsKeys(ids, m)
    ensures Keyed(dc, Docs(f, kind, m, ids)) && forall i :: 0 <= i < |ids| ==> Docs(f, kind, m, ids)[i].kind == kind
  {
    var docs := Docs(f, kind, m, ids);
    forall i, j | 0 <= i < j < |docs|
      ensures dc.idOf(docs[i]).Some? && dc.idOf(docs[j]).Some? && DocKey(dc, docs[i]) != DocKey(dc, docs[j])
    {
      assert text(ids[i]) != text(ids[j]);
    }
  }

  lemma KeyedJoin(dc: DocCodec, a: seq<Doc>, b: seq<Doc>)
    requires Separates(dc) && Keyed(dc, a) && Keyed(dc, b)
    requires forall i, j :: 0 <= i < |a| && 0 <= j < |b| ==> a[i].kind != b[j].kind
    ensures Keyed(dc, a + b)
  {
    var docs := a + b;
    forall i, j | 0 <= i < j < |docs|
      ensures DocKey(dc, docs[i]) != DocKey(dc, docs[j])
    {
      if i < |a| && j >= |a| {
        assert a[i].kind != b[j - |a|].kind;
      }
    }
  }

  lemma DocumentsKeyed(codec: Codec, dc: DocCodec, fs: Formats, b: Board, order: Order)
    requires Notation(codec, dc, fs) && Arranged(b, order)
    ensures Keyed(dc, DocumentsFor(fs, b, order))
  {
    var tasks, asks := Docs(fs.task, TaskDoc, b.tasks, order.tasks), Docs(fs.ask, AskDoc, b.asks, order.asks);
    DocsKeyed(dc, fs.text, fs.task, TaskDoc, b.tasks, order.tasks);
    DocsKeyed(dc, fs.text, fs.ask, AskDoc, b.asks, order.asks);
    DocsKeyed(dc, fs.text, fs.rule, RuleDoc, b.rules, order.rules);
    KeyedJoin(dc, tasks, asks);
    KeyedJoin(dc, tasks + asks, Docs(fs.rule, RuleDoc, b.rules, order.rules));
  }

  /** A valid Board never meets the writer's naming refusals, and every name it is stored under is
      one the reader accepts. */
  lemma ValidBoardAddresses(codec: Codec, dc: DocCodec, fs: Formats, b: Board, order: Order)
    requires Notation(codec, dc, fs) && Valid(b) && Arranged(b, order)
    ensures Address(codec, dc, DraftOf(fs, b, order)).Some?
    ensures AllAcceptable(codec, Address(codec, dc, DraftOf(fs, b, order)).value.hidden)
  {
    forall id | id in b.runs
      ensures ValidId(id)
    {
      assert ValidRun(b.tasks, id, b.runs[id]);
    }
    forall id | id in b.outbox
      ensures ValidId(id)
    {
      assert ValidEntry(id, b.outbox[id]);
    }
    HiddenGood(codec, dc, fs, b, order);
    DocumentsKeyed(codec, dc, fs, b, order);
  }

  // -- Its texts are the Board's ---------------------------------------------------------------

  /** One text per entity and no other text. */
  function TextsOf<V>(f: Format<V>, m: map<Id, V>): set<Bytes> {
    set id | id in m :: f.show(id, m[id])
  }

  function DatumTexts(data: seq<Datum>, kind: HiddenKind): set<Bytes> {
    set d | d in data && d.kind == kind :: d.text
  }

  function HiddenTexts(hidden: seq<Entity>, kind: HiddenKind): set<Bytes> {
    set e | e in hidden && e.name.kind == kind :: e.text
  }

  function ListTexts(docs: seq<Doc>, kind: DocKind): set<Bytes> {
    set d | d in docs && d.kind == kind :: d.text
  }

  function DocTexts(documents: map<RecordId, Doc>, kind: DocKind): set<Bytes> {
    set id | id in documents && documents[id].kind == kind :: documents[id].text
  }

  lemma DataTexts<V>(f: Format<V>, kind: HiddenKind, m: map<Id, V>, ids: seq<Id>, asked: HiddenKind)
    requires ListsKeys(ids, m)
    ensures DatumTexts(Data(f, kind, m, ids), asked) == if asked == kind then TextsOf(f, m) else {}
  {
    var data := Data(f, kind, m, ids);
    forall id | id in m
      ensures Datum(kind, f.show(id, m[id])) in data
    {
      var i :| 0 <= i < |ids| && ids[i] == id;
      assert data[i] == Datum(kind, f.show(id, m[id]));
    }
  }

  lemma DocsTexts<V>(f: Format<V>, kind: DocKind, m: map<Id, V>, ids: seq<Id>, asked: DocKind)
    requires ListsKeys(ids, m)
    ensures ListTexts(Docs(f, kind, m, ids), asked) == if asked == kind then TextsOf(f, m) else {}
  {
    var docs := Docs(f, kind, m, ids);
    forall id | id in m
      ensures Doc(kind, f.show(id, m[id])) in docs
    {
      var i :| 0 <= i < |ids| && ids[i] == id;
      assert docs[i] == Doc(kind, f.show(id, m[id]));
    }
  }

  lemma DatumJoin(a: seq<Datum>, b: seq<Datum>, kind: HiddenKind)
    ensures DatumTexts(a + b, kind) == DatumTexts(a, kind) + DatumTexts(b, kind)
  {
  }

  lemma ListJoin(a: seq<Doc>, b: seq<Doc>, kind: DocKind)
    ensures ListTexts(a + b, kind) == ListTexts(a, kind) + ListTexts(b, kind)
  {
  }

  lemma NamedTexts(codec: Codec, data: seq<Datum>, kind: HiddenKind)
    requires Nameable(codec, data) && Distinct(NameAll(codec, data))
    ensures HiddenTexts(Sort(NameAll(codec, data)), kind) == DatumTexts(data, kind)
  {
    var es := NameAll(codec, data);
    forall d | d in data && d.kind == kind
      ensures d.text in HiddenTexts(Sort(es), kind)
    {
      var i :| 0 <= i < |data| && data[i] == d;
      assert es[i] in Sort(es);
    }
    forall e | e in Sort(es) && e.name.kind == kind
      ensures e.text in DatumTexts(data, kind)
    {
      var i :| 0 <= i < |es| && es[i] == e;
      assert data[i] in data;
    }
  }

  lemma KeyedTexts(dc: DocCodec, docs: seq<Doc>, kind: DocKind)
    requires Keyed(dc, docs)
    ensures DocTexts(ByKey(dc, docs), kind) == ListTexts(docs, kind)
  {
    forall d | d in docs && d.kind == kind
      ensures d.text in DocTexts(ByKey(dc, docs), kind)
    {
      var i :| 0 <= i < |docs| && docs[i] == d;
      ByKeyAt(dc, docs, i);
    }
  }

  lemma HiddenTextsFor(fs: Formats, b: Board, order: Order, kind: HiddenKind)
    requires Arranged(b, order) && !kind.IndexKind?
    ensures DatumTexts(HiddenFor(fs, b, order), kind) == match kind
            case MetaKind => {fs.printHeader(HeaderOf(b))}
            case RunKind => TextsOf(fs.run, b.runs)
            case OutboxKind => TextsOf(fs.outbox, b.outbox)
            case IndexKind => {}
  {
    var meta := [Datum(MetaKind, fs.printHeader(HeaderOf(b)))];
    var runs, outbox := Data(fs.run, RunKind, b.runs, order.runs), Data(fs.outbox, OutboxKind, b.outbox, order.outbox);
    DataTexts(fs.run, RunKind, b.runs, order.runs, kind);
    DataTexts(fs.outbox, OutboxKind, b.outbox, order.outbox, kind);
    DatumJoin(meta, runs, kind);
    DatumJoin(meta + runs, outbox, kind);
    assert DatumTexts(meta, kind) == if kind.MetaKind? then {fs.printHeader(HeaderOf(b))} else {} by {
      assert meta[0] in meta;
    }
  }

  lemma DocTextsFor(fs: Formats, b: Board, order: Order, kind: DocKind)
    requires Arranged(b, order)
    ensures ListTexts(DocumentsFor(fs, b, order), kind) == match kind
            case TaskDoc => TextsOf(fs.task, b.tasks)
            case AskDoc => TextsOf(fs.ask, b.asks)
            case RuleDoc => TextsOf(fs.rule, b.rules)
  {
    var tasks, asks, rules := Docs(fs.task, TaskDoc, b.tasks, order.tasks), Docs(fs.ask, AskDoc, b.asks, order.asks), Docs(fs.rule, RuleDoc, b.rules, order.rules);
    DocsTexts(fs.task, TaskDoc, b.tasks, order.tasks, kind);
    DocsTexts(fs.ask, AskDoc, b.asks, order.asks, kind);
    DocsTexts(fs.rule, RuleDoc, b.rules, order.rules, kind);
    ListJoin(tasks, asks, kind);
    ListJoin(tasks + asks, rules, kind);
  }

  // -- Rebuilding ---------------------------------------------------------------------------------

  /** A collection read back: every text parses, to an entry of the map, and every entry is there. */
  ghost predicate Parsed<V(!new)>(f: Format<V>, texts: set<Bytes>, m: map<Id, V>) {
    && (forall t :: t in texts ==> f.parse(t).Some? && f.parse(t).value.0 in m && m[f.parse(t).value.0] == f.parse(t).value.1)
    && (forall id :: id in m ==> exists t :: t in texts && f.parse(t) == Some((id, m[id])))
  }

  lemma PrintedParses<V(!new)>(f: Format<V>, m: map<Id, V>)
    requires Exact(f)
    ensures Parsed(f, TextsOf(f, m), m)
  {
    forall id | id in m
      ensures exists t :: t in TextsOf(f, m) && f.parse(t) == Some((id, m[id]))
    {
      assert f.show(id, m[id]) in TextsOf(f, m);
    }
  }

  lemma ParsedOnce<V(!new)>(f: Format<V>, texts: set<Bytes>, m: map<Id, V>, n: map<Id, V>)
    requires Parsed(f, texts, m) && Parsed(f, texts, n)
    ensures m == n
  {
    forall id | id in m
      ensures id in n && m[id] == n[id]
    {
      var t :| t in texts && f.parse(t) == Some((id, m[id]));
    }
    forall id | id in n
      ensures id in m
    {
      var t :| t in texts && f.parse(t) == Some((id, n[id]));
    }
  }

  /** The entities of a content are those of the Board. */
  ghost predicate Gathers(fs: Formats, content: Content, b: Board) {
    && b.revision == content.revision
    && Parsed(fs.task, DocTexts(content.documents, TaskDoc), b.tasks)
    && Parsed(fs.ask, DocTexts(content.documents, AskDoc), b.asks)
    && Parsed(fs.rule, DocTexts(content.documents, RuleDoc), b.rules)
    && Parsed(fs.run, HiddenTexts(content.hidden, RunKind), b.runs)
    && Parsed(fs.outbox, HiddenTexts(content.hidden, OutboxKind), b.outbox)
  }

  /** One header, of this conversation and with a retained history, which is the Board's. */
  ghost predicate Headed(fs: Formats, conversation: Id, content: Content, b: Board) {
    && b.conversationId == conversation && b.history.Some? && ValidRef(b.history.value)
    && exists t :: HiddenTexts(content.hidden, MetaKind) == {t} && fs.parseHeader(t) == Some(HeaderOf(b))
  }

  /** The Board the reader rebuilds from a content: gathered, headed and valid, or none. */
  ghost predicate Rebuilds(fs: Formats, conversation: Id, content: Content, b: Board) {
    Gathers(fs, content, b) && Headed(fs, conversation, content, b) && Valid(b)
  }

  lemma GathersOnce(fs: Formats, conversation: Id, content: Content, b: Board, c: Board)
    requires Gathers(fs, content, b) && Gathers(fs, content, c)
    requires Headed(fs, conversation, content, b) && Headed(fs, conversation, content, c)
    ensures b == c
  {
    ParsedOnce(fs.task, DocTexts(content.documents, TaskDoc), b.tasks, c.tasks);
    ParsedOnce(fs.ask, DocTexts(content.documents, AskDoc), b.asks, c.asks);
    ParsedOnce(fs.rule, DocTexts(content.documents, RuleDoc), b.rules, c.rules);
    ParsedOnce(fs.run, HiddenTexts(content.hidden, RunKind), b.runs, c.runs);
    ParsedOnce(fs.outbox, HiddenTexts(content.hidden, OutboxKind), b.outbox, c.outbox);
    var t :| HiddenTexts(content.hidden, MetaKind) == {t} && fs.parseHeader(t) == Some(HeaderOf(b));
    assert t in HiddenTexts(content.hidden, MetaKind);
    assert HeaderOf(b) == HeaderOf(c);
  }

  /** A content rebuilds at most one Board. */
  lemma RebuildsOnce(fs: Formats, conversation: Id, content: Content, b: Board, c: Board)
    requires Rebuilds(fs, conversation, content, b) && Rebuilds(fs, conversation, content, c)
    ensures b == c
  {
    GathersOnce(fs, conversation, content, b, c);
  }

  /** What a Board's draft reads back as. */
  function InOrder(content: Content): Content
    requires Distinct(content.hidden)
  {
    content.(hidden := Sort(content.hidden))
  }

  lemma DraftGathers(codec: Codec, dc: DocCodec, fs: Formats, b: Board, order: Order, content: Content)
    requires AllExact(fs) && Arranged(b, order) && b.revision >= 0
    requires Address(codec, dc, DraftOf(fs, b, order)) == Some(content)
    ensures Gathers(fs, InOrder(content), b)
    ensures HiddenTexts(InOrder(content).hidden, MetaKind) == {fs.printHeader(HeaderOf(b))}
  {
    var data, docs := HiddenFor(fs, b, order), DocumentsFor(fs, b, order);
    NamedTexts(codec, data, MetaKind);
    NamedTexts(codec, data, RunKind);
    NamedTexts(codec, data, OutboxKind);
    HiddenTextsFor(fs, b, order, MetaKind);
    HiddenTextsFor(fs, b, order, RunKind);
    HiddenTextsFor(fs, b, order, OutboxKind);
    KeyedTexts(dc, docs, TaskDoc);
    KeyedTexts(dc, docs, AskDoc);
    KeyedTexts(dc, docs, RuleDoc);
    DocTextsFor(fs, b, order, TaskDoc);
    DocTextsFor(fs, b, order, AskDoc);
    DocTextsFor(fs, b, order, RuleDoc);
    PrintedParses(fs.task, b.tasks);
    PrintedParses(fs.ask, b.asks);
    PrintedParses(fs.rule, b.rules);
    PrintedParses(fs.run, b.runs);
    PrintedParses(fs.outbox, b.outbox);
  }

  // -- Every commit reads back ---------------------------------------------------------------------

  /** What a commit checks of the Board it is handed: valid, of this conversation, under its history record. */
  ghost predicate Postable(conversation: Id, b: Board) {
    Valid(b) && b.conversationId == conversation && b.history.Some? && ValidRef(b.history.value)
  }

  lemma DraftRebuilds(codec: Codec, dc: DocCodec, fs: Formats, conversation: Id, b: Board, order: Order, content: Content)
    requires AllExact(fs) && Postable(conversation, b) && Arranged(b, order)
    requires Address(codec, dc, DraftOf(fs, b, order)) == Some(content)
    ensures Rebuilds(fs, conversation, InOrder(content), b)
  {
    DraftGathers(codec, dc, fs, b, order, content);
    assert fs.parseHeader(fs.printHeader(HeaderOf(b))) == Some(HeaderOf(b));
  }

  /** After any commits, whatever they held, a Board committed last is accepted by the reader, and what
      is read rebuilds that Board and no other. */
  lemma BoardReadBack(codec: Codec, dc: DocCodec, fs: Formats, conversation: Id, drafts: seq<Draft>, b: Board, order: Order)
    requires Notation(codec, dc, fs) && Postable(conversation, b) && Arranged(b, order)
    requires drafts != [] && drafts[|drafts| - 1] == DraftOf(fs, b, order) && ServerAfter(codec, dc, drafts).Some?
    ensures
      var read := ReadAll(codec, dc, ServerAfter(codec, dc, drafts).value);
      read.Some? && forall c :: Rebuilds(fs, conversation, read.value, c) <==> c == b
  {
    EveryReadReturnsLastCommit(codec, dc, drafts);
    ValidBoardAddresses(codec, dc, fs, b, order);
    var content := Address(codec, dc, DraftOf(fs, b, order)).value;
    DraftRebuilds(codec, dc, fs, conversation, b, order, content);
    forall c | Rebuilds(fs, conversation, InOrder(content), c)
      ensures c == b
    {
      RebuildsOnce(fs, conversation, InOrder(content), b, c);
    }
  }
}
