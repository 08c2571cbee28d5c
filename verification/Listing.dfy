/** Listing a collection's documents page by page behind a cursor. */
module Listing {
  import opened Values
  import opened Chunks
  import opened Pages
  import opened Collection

  datatype Record = Record(id: RecordId, doc: Stamped<Doc>)

  /** One reply to a listing query: a window of records and the cursor to continue from. */
  datatype Page = Page(records: seq<Record>, nextAfter: Option<RecordId>)

  type Docs = map<RecordId, Stamped<Doc>>

  const PAGE_LIMIT: nat := 32

  predicate Past(after: Option<RecordId>, id: RecordId) {
    after.None? || Less(after.value.text, id.text)
  }

  function LastId(after: Option<RecordId>, records: seq<Record>): Option<RecordId> {
    if records == [] then after else Some(records[|records| - 1].id)
  }

  predicate Ascending(records: seq<Record>) {
    forall i, j :: 0 <= i < j < |records| ==> Less(records[i].id.text, records[j].id.text)
  }

  /** The order check of the client: each record past the one before, the first past the cursor. */
  predicate OrderedFrom(after: Option<RecordId>, records: seq<Record>) {
    forall i :: 0 <= i < |records| ==> Past(LastId(after, records[..i]), records[i].id)
  }

  predicate Listed(records: seq<Record>, id: RecordId) {
    exists i :: 0 <= i < |records| && records[i].id == id
  }

  predicate From(records: seq<Record>, docs: Docs) {
    forall i :: 0 <= i < |records| ==> records[i].id in docs && docs[records[i].id] == records[i].doc
  }

  /** Everything up to the cursor has been listed. */
  predicate CoversTo(records: seq<Record>, docs: Docs, after: Option<RecordId>) {
    forall id :: id in docs && !Past(after, id) ==> Listed(records, id)
  }

  predicate Lists(records: seq<Record>, docs: Docs) {
    Ascending(records) && From(records, docs) && forall id :: id in docs ==> Listed(records, id)
  }

  /** What a faithful server answers: the documents right after the cursor, as many as fit the window. */
  ghost predicate Faithful(page: Page, docs: Docs, after: Option<RecordId>) {
    && |page.records| <= PAGE_LIMIT && OrderedFrom(after, page.records) && From(page.records, docs)
    && (page.nextAfter.Some? ==>
          && page.records != [] && page.nextAfter == LastId(after, page.records)
          && exists id :: id in docs && Past(page.nextAfter, id))
    && forall id :: id in docs && Past(after, id) && !(page.nextAfter.Some? && Past(page.nextAfter, id)) ==> Listed(page.records, id)
  }

  lemma {:induction false} OrderedAscends(all: seq<Record>, records: seq<Record>)
    requires Ascending(all) && OrderedFrom(LastId(None, all), records)
    ensures Ascending(all + records)
  {
    if records != [] {
      var init, last := records[..|records| - 1], records[|records| - 1];
      forall i | 0 <= i < |init|
        ensures Past(LastId(LastId(None, all), init[..i]), init[i].id)
      {
        assert init[..i] == records[..i];
      }
      OrderedAscends(all, init);
      assert all + records == (all + init) + [last];
      assert Past(LastId(LastId(None, all), init), last.id);
      forall i | 0 <= i < |all + init|
        ensures Less((all + init)[i].id.text, last.id.text)
      {
        if i < |all + init| - 1 {
          LessTransitive((all + init)[i].id.text, (all + init)[|all + init| - 1].id.text, last.id.text);
        }
      }
    } else {
      assert all + records == all;
    }
  }

  function Ids(records: seq<Record>): set<RecordId> {
    set i | 0 <= i < |records| :: records[i].id
  }

  lemma {:induction false} IdsCount(records: seq<Record>)
    requires Ascending(records)
    ensures |Ids(records)| == |records|
  {
    if records != [] {
      var init, last := records[..|records| - 1], records[|records| - 1];
      IdsCount(init);
      assert Ids(records) == Ids(init) + {last.id};
      forall i | 0 <= i < |init|
        ensures init[i].id != last.id
      {
        LessTotal(init[i].id.text, last.id.text);
      }
    }
  }

  lemma SubsetSize<T>(a: set<T>, b: set<T>)
    requires a <= b
    ensures |a| <= |b| && (a != b ==> |a| < |b|)
  {
    assert b == a + (b - a);
  }

  /** An ascending listing is never longer than the collection, and as long exactly when complete. */
  lemma ListingLength(records: seq<Record>, docs: Docs)
    requires Ascending(records) && From(records, docs)
    ensures |records| <= |docs| && (|records| == |docs| <==> Lists(records, docs))
  {
    IdsCount(records);
    SubsetSize(Ids(records), docs.Keys);
    assert |docs.Keys| == |docs|;
    if Lists(records, docs) {
      forall id | id in docs
        ensures id in Ids(records)
      {
        assert Listed(records, id);
      }
      assert Ids(records) == docs.Keys;
    } else {
      var id :| id in docs && !Listed(records, id);
      assert id !in Ids(records);
    }
  }

  function Collected(records: seq<Record>): map<RecordId, Doc> {
    if records == [] then map[] else Collected(records[..|records| - 1])[records[|records| - 1].id := records[|records| - 1].doc.value]
  }

  lemma {:induction false} CollectedFrom(records: seq<Record>, docs: Docs)
    requires From(records, docs)
    ensures forall id :: id in Collected(records) ==> id in docs && Collected(records)[id] == docs[id].value
    ensures forall id :: Listed(records, id) ==> id in Collected(records)
  {
    if records != [] {
      var init := records[..|records| - 1];
      CollectedFrom(init, docs);
      forall id | Listed(records, id)
        ensures id in Collected(records)
      {
        var i :| 0 <= i < |records| && records[i].id == id;
        if i < |init| {
          assert init[i].id == id;
        }
      }
    }
  }

  /** A complete listing gathers exactly the collection's documents. */
  lemma CollectedAll(records: seq<Record>, docs: Docs)
    requires Lists(records, docs)
    ensures Collected(records) == Unstamped(docs)
  {
    CollectedFrom(records, docs);
  }

  // -- A faithful server ------------------------------------------------------------------

  /** The least key past the cursor, if there is one. */
  predicate IsNext(keys: set<RecordId>, after: Option<RecordId>, r: Option<RecordId>) {
    match r
    case None => forall id :: id in keys ==> !Past(after, id)
    case Some(least) =>
      && least in keys && Past(after, least)
      && forall id :: id in keys && Past(after, id) ==> id == least || Less(least.text, id.text)
  }

  method LeastPast(keys: set<RecordId>, after: Option<RecordId>) returns (r: Option<RecordId>)
    ensures IsNext(keys, after, r)
  {
    r := None;
    var rest := keys;
    while rest != {}
      invariant rest <= keys
      invariant r.Some? ==> r.value in keys && Past(after, r.value)
      invariant forall id :: id in keys - rest && Past(after, id) ==> r.Some? && (id == r.value || Less(r.value.text, id.text))
      decreases |rest|
    {
      var id :| id in rest;
      if Past(after, id) && (r.None? || Less(id.text, r.value.text)) {
        forall k | k in keys - rest && Past(after, k)
          ensures Less(id.text, k.text)
        {
          if k != r.value {
            LessTransitive(id.text, r.value.text, k.text);
          }
        }
        r := Some(id);
      } else if Past(after, id) {
        LessTotal(id.text, r.value.text);
      }
      rest := rest - {id};
    }
  }

  /** Everything between the cursor and the last record is listed. */
  predicate Reaches(docs: Docs, after: Option<RecordId>, records: seq<Record>) {
    && OrderedFrom(after, records) && From(records, docs)
    && forall id :: id in docs && Past(after, id) && !Past(LastId(after, records), id) ==> Listed(records, id)
  }

  method ServePage(docs: Docs, after: Option<RecordId>) returns (page: Page)
    ensures Faithful(page, docs, after)
  {
    var records: seq<Record> := [];
    var least := LeastPast(docs.Keys, after);
    while least.Some? && |records| < PAGE_LIMIT
      invariant |records| <= PAGE_LIMIT && Reaches(docs, after, records) && IsNext(docs.Keys, LastId(after, records), least)
      decreases PAGE_LIMIT - |records|
    {
      ReachesNext(docs, after, records, least.value);
      records := records + [Record(least.value, docs[least.value])];
      least := LeastPast(docs.Keys, LastId(after, records));
    }
    page := Page(records, if least.Some? then LastId(after, records) else None);
    PageFaithful(docs, after, records, least);
  }

  lemma PageFaithful(docs: Docs, after: Option<RecordId>, records: seq<Record>, least: Option<RecordId>)
    requires |records| <= PAGE_LIMIT && Reaches(docs, after, records) && IsNext(docs.Keys, LastId(after, records), least)
    requires least.Some? ==> records != []
    ensures Faithful(Page(records, if least.Some? then LastId(after, records) else None), docs, after)
  {
  }

  lemma ReachesNext(docs: Docs, after: Option<RecordId>, records: seq<Record>, next: RecordId)
    requires Reaches(docs, after, records) && IsNext(docs.Keys, LastId(after, records), Some(next))
    ensures Reaches(docs, after, records + [Record(next, docs[next])])
  {
    var more := records + [Record(next, docs[next])];
    forall i | 0 <= i < |more|
      ensures Past(LastId(after, more[..i]), more[i].id)
    {
      assert more[..i] == records[..i];
      if i == |records| {
        assert records[..i] == records;
      }
    }
    forall id | id in docs && Past(after, id) && !Past(LastId(after, more), id)
      ensures Listed(more, id)
    {
      if Past(LastId(after, records), id) {
        assert more[|records|].id == id;
      } else {
        assert Listed(records, id);
        var i :| 0 <= i < |records| && records[i].id == id;
        assert more[i].id == id;
      }
    }
  }
}
