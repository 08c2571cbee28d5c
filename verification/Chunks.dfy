/** The chunk codec behind every protected row: content cut into parts of 8 KiB, each naming
    its place, and put together again only from exactly such parts. */
module Chunks {
  import opened Values

  type Bytes = seq<bv8>

  const CHUNK_BYTES: nat := 8192
  const STATE_LIMIT: nat := 256

  datatype HiddenKind = IndexKind | MetaKind | OutboxKind | RunKind

  datatype Chunk = Chunk(kind: HiddenKind, entityId: Bytes, part: nat, total: nat, bytes: Bytes)

  function Parts(content: Bytes): nat {
    (|content| + CHUNK_BYTES - 1) / CHUNK_BYTES
  }

  function Part(content: Bytes, i: nat): Bytes
    requires i < Parts(content)
  {
    content[i * CHUNK_BYTES..if (i + 1) * CHUNK_BYTES <= |content| then (i + 1) * CHUNK_BYTES else |content|]
  }

  /** The rows a content is stored in, or none when it is empty or too long. */
  function Encode(kind: HiddenKind, id: Bytes, content: Bytes): Option<seq<Chunk>> {
    if 0 < Parts(content) < STATE_LIMIT
    then Some(seq(Parts(content), i requires 0 <= i < Parts(content) => Chunk(kind, id, i, Parts(content), Part(content, i))))
    else None
  }

  predicate ChunkFits(row: Chunk, kind: HiddenKind, id: Bytes, part: nat, total: nat) {
    && row.kind == kind && row.entityId == id && row.part == part && row.total == total
    && 0 < |row.bytes| <= CHUNK_BYTES
    && (part == total - 1 || |row.bytes| == CHUNK_BYTES)
  }

  function Concat(rows: seq<Chunk>): Bytes {
    if rows == [] then [] else Concat(rows[..|rows| - 1]) + rows[|rows| - 1].bytes
  }

  function Decode(rows: seq<Chunk>, kind: HiddenKind, id: Bytes, total: nat): Option<Bytes> {
    if |rows| == total && forall i :: 0 <= i < |rows| ==> ChunkFits(rows[i], kind, id, i, total)
    then Some(Concat(rows))
    else None
  }

  lemma {:induction false} ConcatPrefix(content: Bytes, rows: seq<Chunk>, k: nat)
    requires |rows| == Parts(content) && k <= |rows|
    requires forall i :: 0 <= i < |rows| ==> rows[i].bytes == Part(content, i)
    ensures Concat(rows[..k]) == content[..if k * CHUNK_BYTES <= |content| then k * CHUNK_BYTES else |content|]
  {
    if k > 0 {
      ConcatPrefix(content, rows, k - 1);
      assert rows[..k][..k - 1] == rows[..k - 1];
    }
  }

  /** What is encoded decodes to itself. */
  lemma DecodeEncode(kind: HiddenKind, id: Bytes, content: Bytes)
    requires Encode(kind, id, content).Some?
    ensures Decode(Encode(kind, id, content).value, kind, id, Parts(content)) == Some(content)
  {
    var rows := Encode(kind, id, content).value;
    ConcatPrefix(content, rows, |rows|);
    assert rows[..|rows|] == rows;
    assert content[..|content|] == content;
  }

  lemma {:induction false} ConcatLength(rows: seq<Chunk>, kind: HiddenKind, id: Bytes, total: nat)
    requires |rows| <= total && forall i :: 0 <= i < |rows| ==> ChunkFits(rows[i], kind, id, i, total)
    ensures |rows| < total ==> |Concat(rows)| == |rows| * CHUNK_BYTES
    ensures |rows| == total && total > 0 ==> |Concat(rows)| == (total - 1) * CHUNK_BYTES + |rows[total - 1].bytes|
  {
    if rows != [] {
      ConcatLength(rows[..|rows| - 1], kind, id, total);
    }
  }

  lemma {:induction false} ConcatPart(rows: seq<Chunk>, kind: HiddenKind, id: Bytes, total: nat, i: nat)
    requires |rows| <= total && i < |rows| && forall j :: 0 <= j < |rows| ==> ChunkFits(rows[j], kind, id, j, total)
    ensures i * CHUNK_BYTES + |rows[i].bytes| <= |Concat(rows)|
    ensures Concat(rows)[i * CHUNK_BYTES..i * CHUNK_BYTES + |rows[i].bytes|] == rows[i].bytes
  {
    var init := rows[..|rows| - 1];
    ConcatLength(init, kind, id, total);
    if i < |rows| - 1 {
      ConcatPart(init, kind, id, total, i);
    }
  }

  /** Whatever decodes is the encoding of its content: the codec is a bijection onto the rows it accepts. */
  lemma EncodeDecode(rows: seq<Chunk>, kind: HiddenKind, id: Bytes, total: nat)
    requires 0 < total < STATE_LIMIT && Decode(rows, kind, id, total).Some?
    ensures Encode(kind, id, Decode(rows, kind, id, total).value) == Some(rows)
  {
    var content := Concat(rows);
    ConcatLength(rows, kind, id, total);
    assert Parts(content) == total;
    var again := Encode(kind, id, content).value;
    forall i | 0 <= i < total
      ensures again[i] == rows[i]
    {
      ConcatPart(rows, kind, id, total, i);
      assert ChunkFits(rows[i], kind, id, i, total);
    }
    assert again == rows;
  }
}
