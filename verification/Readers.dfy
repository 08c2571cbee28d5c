/** The other direction of the round trip: whatever the reader accepts is rows a writer stores. */
module Readers {
  import opened Values
  import opened Chunks
  import opened Pages
  import opened Collection

  lemma ContentSound(codec: Codec, rows: Rows, owner: Option<Name>, total: nat, revision: nat)
    requires 0 < total < STATE_LIMIT && ReadContent(codec, rows, owner, total, revision).Some?
    ensures
      var content := ReadContent(codec, rows, owner, total, revision).value;
      Parts(content) == total && Serves(codec, rows, OwnerRows(owner, content), revision)
  {
    var chunks := seq(total, p requires 0 <= p < total && ReadableChunk(codec, rows, PartKey(owner, p), revision) =>
                        rows[PartKey(owner, p)].value.chunk);
    var content := Decode(chunks, OwnerKind(owner), OwnerId(owner), total).value;
    EncodeDecode(chunks, OwnerKind(owner), OwnerId(owner), total);
    assert |chunks| == total && Parts(content) == total;
    forall key | key in OwnerRows(owner, content)
      ensures Readable(codec, rows, key, revision) && rows[key].value == OwnerRows(owner, content)[key]
    {
      assert ReadableChunk(codec, rows, PartKey(owner, key.part), revision);
      assert chunks[key.part] == Encode(OwnerKind(owner), OwnerId(owner), content).value[key.part];
    }
  }

  /** The entities read, each stored in exactly the rows its text is cut into, under a name its text gives. */
  ghost predicate Entities(codec: Codec, rows: Rows, entries: seq<IndexEntry>, es: seq<Entity>, revision: nat) {
    && |es| == |entries|
    && forall i :: 0 <= i < |es| ==>
         && IndexEntry(es[i].name, Parts(es[i].text)) == entries[i] && Pages.Named(codec, es[i])
         && Serves(codec, rows, OwnerRows(Some(es[i].name), es[i].text), revision)
  }

  lemma {:induction false} EntitiesSound(codec: Codec, rows: Rows, entries: seq<IndexEntry>, revision: nat)
    requires forall i :: 0 <= i < |entries| ==> 0 < entries[i].parts < STATE_LIMIT
    requires ReadEntities(codec, rows, entries, revision).Some?
    ensures Entities(codec, rows, entries, ReadEntities(codec, rows, entries, revision).value, revision)
  {
    if entries != [] {
      var init, last := entries[..|entries| - 1], entries[|entries| - 1];
      EntitiesSound(codec, rows, init, revision);
      ContentSound(codec, rows, Some(last.name), last.parts, revision);
    }
  }

  lemma {:induction false} NeighboursSorted(entries: seq<IndexEntry>, i: nat, j: nat)
    requires forall k :: 0 < k < |entries| ==> Before(entries[k - 1].name, entries[k].name)
    requires i < j < |entries|
    ensures Before(entries[i].name, entries[j].name)
  {
    if i < j - 1 {
      NeighboursSorted(entries, i, j - 1);
      BeforeTransitive(entries[i].name, entries[j - 1].name, entries[j].name);
    }
  }

  /** Every one of these values is there, within size, from this revision or an earlier one. */
  ghost predicate Present(codec: Codec, rows: Rows, values: map<Key, Value>, revision: nat) {
    forall key :: key in values ==>
      && key in rows && rows[key].value == values[key] && codec.stateSize(values[key]) <= 16384
      && 0 < rows[key].revision <= revision
  }

  /** The rows of one revision: the entities in strict name order under acceptable names, each in its own rows; a manifest
      that lists exactly them; and a header that binds the manifest, by length and digest, to the revision. */
  ghost predicate Written(codec: Codec, rows: Rows, es: seq<Entity>, manifest: Bytes, revision: nat) {
    && Sorted(es) && AllNamed(codec, es) && AllAcceptable(codec, es)
    && (forall i :: 0 <= i < |es| ==> Present(codec, rows, OwnerRows(Some(es[i].name), es[i].text), revision))
    && codec.parseIndex(manifest) == Some(Manifest(es)) && Present(codec, rows, OwnerRows(None, manifest), revision)
    && HeadKey in rows && rows[HeadKey] == Stamped(HeadOf(codec, revision, manifest), revision) && revision > 0
    && codec.stateSize(rows[HeadKey].value) <= 16384 && 1 + Parts(manifest) + PartCount(Manifest(es)) <= 256
  }

  lemma ListedSorted(codec: Codec, rows: Rows, entries: seq<IndexEntry>, es: seq<Entity>, parts: nat, revision: nat)
    requires ManifestOk(codec, entries, parts) && Entities(codec, rows, entries, es, revision)
    ensures Sorted(es) && AllNamed(codec, es) && AllAcceptable(codec, es) && Manifest(es) == entries
  {
    forall i, j | 0 <= i < j < |es|
      ensures Before(es[i].name, es[j].name) && es[i].name != es[j].name
    {
      NeighboursSorted(entries, i, j);
      BeforeTotal(es[i].name, es[j].name);
      assert es[i].name == entries[i].name && es[j].name == entries[j].name;
    }
    forall i | 0 <= i < |es|
      ensures Acceptable(codec, es[i].name)
    {
      assert EntryOk(codec, entries[i]);
    }
  }

  /** The reader of protected rows accepts only what a writer stores. */
  lemma HiddenSound(codec: Codec, rows: Rows, revision: nat) returns (manifest: Bytes)
    requires ReadHidden(codec, rows, revision).Some?
    ensures Written(codec, rows, ReadHidden(codec, rows, revision).value, manifest, revision)
  {
    var es, head := ReadHidden(codec, rows, revision).value, rows[HeadKey].value;
    manifest := ReadContent(codec, rows, None, head.parts, revision).value;
    ContentSound(codec, rows, None, head.parts, revision);
    var entries := codec.parseIndex(manifest).value;
    EntitiesSound(codec, rows, entries, revision);
    ListedSorted(codec, rows, entries, es, head.parts, revision);
  }

  /** Whatever is read is the collection: its documents, each within size, naming itself and no newer than the revision,
      and protected rows only a writer stores; or an untouched collection. */
  lemma ReadAllSound(codec: Codec, dc: DocCodec, server: Server)
    requires ReadAll(codec, dc, server).Some?
    ensures
      var content := ReadAll(codec, dc, server).value;
      && |server.docs| <= RECORD_LIMIT
      && (HeadKey !in server.states ==> content == EMPTY && server.revision == 0 && server.docs == map[])
      && (HeadKey in server.states ==>
            && content.revision == server.revision && content.documents == Unstamped(server.docs)
            && (forall id :: id in server.docs ==>
                  && NamesItself(dc, id, server.docs[id].value) && dc.dataSize(server.docs[id].value) <= DATA_BYTES
                  && 0 < server.docs[id].revision <= server.revision)
            && exists manifest :: Written(codec, server.states, content.hidden, manifest, server.revision))
  {
    if HeadKey in server.states {
      var manifest := HiddenSound(codec, server.states, server.revision);
    }
  }
}
