/**
 * Index preparation (embedding.py): every chunk gets an id, its content and
 * its metadata flattened to scalars, and the three parallel lists are handed
 * to the vector store in batches.
 */
module Embedding {
  import opened Text
  import opened Values
  import opened Seqs
  import Chunking

  /** Line 42: the number of records per `add` call. */
  const BatchSize := 100

  const IdPrefix := "chunk_"
  const ListSeparator := ", "

  // ---------------------------------------------------------------------
  // Ids, documents and metadata
  // ---------------------------------------------------------------------

  /** Line 26: the id of the chunk at index `i`. */
  function ChunkId(i: nat): (id: string)
    ensures IsPrefix(IdPrefix, id) && AllDigits(id[|IdPrefix|..])
  {
    IdPrefix + NatToString(i)
  }

  /** Line 26: different indexes give different ids. */
  lemma ChunkIdInjective(i: nat, j: nat)
    ensures ChunkId(i) == ChunkId(j) <==> i == j
  {
    if ChunkId(i) == ChunkId(j) {
      assert NatToString(i) == ChunkId(i)[|IdPrefix|..] == ChunkId(j)[|IdPrefix|..] == NatToString(j);
      NatToStringInjective(i, j);
    }
  }

  /** Python's `map(str, items)`. */
  function ShowAll(items: seq<Atom>): (r: seq<string>)
    ensures |r| == |items| && forall k :: 0 <= k < |r| ==> r[k] == Show(items[k])
  {
    if items == [] then [] else [Show(items[0])] + ShowAll(items[1..])
  }

  /** Lines 34-37: a list becomes the comma-joined text of its items; a scalar is kept. */
  function Flatten(v: Value): Atom {
    match v
    case List(items) => Str(Join(ListSeparator, ShowAll(items)))
    case Scalar(a) => a
  }

  /**
   * Lines 30-38 as a specification: the processed metadata has exactly the
   * original keys but the coordinates; a scalar is kept as it is and a list
   * is comma-joined.
   */
  function ProcessedMetadata(m: Metadata): (r: StoredMetadata)
    ensures r.Keys == m.Keys - {CoordinatesKey}
    ensures forall key :: key in r && m[key].Scalar? ==> r[key] == m[key].atom
    ensures forall key :: key in r && m[key].List? ==> r[key] == Str(Join(ListSeparator, ShowAll(m[key].items)))
  {
    map key | key in m && key != CoordinatesKey :: Flatten(m[key])
  }

  /** Lines 34-35: the list [1, 2] is stored as the text "1, 2". */
  lemma FlattenExample()
    ensures Flatten(List([Int(1), Int(2)])) == Str("1, 2")
  {
    var shown := ShowAll([Int(1), Int(2)]);
    assert shown == ["1", "2"] by {
      assert Show(Int(1)) == "1" && Show(Int(2)) == "2";
    }
    assert Join(ListSeparator, shown) == "1" + ", " + "2";
  }

  /** Lines 30-38: the metadata of one chunk, built key by key. */
  method ProcessMetadata(metadata: Metadata) returns (processed: StoredMetadata)
    ensures processed == ProcessedMetadata(metadata)
  {
    processed := map[];
    var remaining := metadata.Keys;
    while remaining != {}
      invariant remaining <= metadata.Keys
      invariant processed == map key | key in metadata && key !in remaining && key != CoordinatesKey
                                 :: Flatten(metadata[key])
      decreases |remaining|
    {
      var key :| key in remaining;
      remaining := remaining - {key};
      if key == CoordinatesKey {
        continue;
      }
      match metadata[key]
      case List(items) =>
        processed := processed[key := Str(Join(ListSeparator, ShowAll(items)))];
      case Scalar(a) =>
        processed := processed[key := a];
    }
  }

  /** Lines 21-38: the three parallel lists, one entry per chunk, in chunk order. */
  method PrepareRecords(allChunks: seq<Chunking.Chunk>)
    returns (ids: seq<string>, documents: seq<string>, metadatas: seq<StoredMetadata>)
    ensures |ids| == |documents| == |metadatas| == |allChunks|
    ensures forall i :: 0 <= i < |allChunks| ==>
      && ids[i] == ChunkId(i)
      && documents[i] == allChunks[i].content
      && metadatas[i] == ProcessedMetadata(allChunks[i].metadata)
  {
    ids, documents, metadatas := [], [], [];
    for i := 0 to |allChunks|
      invariant |ids| == |documents| == |metadatas| == i
      invariant forall j :: 0 <= j < i ==>
        && ids[j] == ChunkId(j)
        && documents[j] == allChunks[j].content
        && metadatas[j] == ProcessedMetadata(allChunks[j].metadata)
    {
      ids := ids + [IdPrefix + NatToString(i)];
      documents := documents + [allChunks[i].content];
      var processed := ProcessMetadata(allChunks[i].metadata);
      metadatas := metadatas + [processed];
    }
  }

  /** Lines 25-38: the ids of the prepared records are pairwise distinct. */
  lemma IdsDistinct(ids: seq<string>)
    requires forall i :: 0 <= i < |ids| ==> ids[i] == ChunkId(i)
    ensures forall i, j :: 0 <= i < |ids| && 0 <= j < |ids| && i != j ==> ids[i] != ids[j]
  {
    forall i, j | 0 <= i < |ids| && 0 <= j < |ids| && i != j
      ensures ids[i] != ids[j]
    {
      ChunkIdInjective(i, j);
    }
  }

  // ---------------------------------------------------------------------
  // Batches
  // ---------------------------------------------------------------------

  /** Python's `s[lo:hi]` for `0 <= lo <= hi`: the bounds are clamped to the length. */
  function Slice<T>(s: seq<T>, lo: nat, hi: nat): (r: seq<T>)
    requires lo <= hi
    ensures |r| == if lo < |s| then Min(hi, |s|) - lo else 0
    ensures forall k :: 0 <= k < |r| ==> r[k] == s[lo + k]
  {
    if lo >= |s| then [] else s[lo..Min(hi, |s|)]
  }

  /** Lines 52-57: what one `add` call hands to the store, its embeddings aside. */
  datatype AddCall = AddCall(ids: seq<string>, documents: seq<string>, metadatas: seq<StoredMetadata>)

  /** Lines 44-46: the batch that starts at record `start`. */
  function Batch(ids: seq<string>, documents: seq<string>, metadatas: seq<StoredMetadata>, start: nat): AddCall {
    AddCall(Slice(ids, start, start + BatchSize), Slice(documents, start, start + BatchSize),
            Slice(metadatas, start, start + BatchSize))
  }

  /**
   * Line 43: the number of starts in `range(0, n, 100)`: the least number of
   * batches of a hundred that covers every record, none for no records.
   */
  function BatchCount(n: nat): (count: nat)
    ensures BatchSize * count >= n
    ensures count > 0 ==> BatchSize * (count - 1) < n
    ensures count == 0 <==> n == 0
  {
    (n + BatchSize - 1) / BatchSize
  }

  /** Lines 43-58: one `add` call per batch, in order. */
  method AddInBatches(ids: seq<string>, documents: seq<string>, metadatas: seq<StoredMetadata>)
    returns (calls: seq<AddCall>)
    ensures |calls| == BatchCount(|ids|)
    ensures forall b :: 0 <= b < |calls| ==> calls[b] == Batch(ids, documents, metadatas, BatchSize * b)
  {
    calls := [];
    var i := 0;
    while i < |ids|
      invariant i == BatchSize * |calls|
      invariant |calls| == 0 || BatchSize * (|calls| - 1) < |ids|
      invariant forall b :: 0 <= b < |calls| ==> calls[b] == Batch(ids, documents, metadatas, BatchSize * b)
      decreases |ids| - i
    {
      var batchIds := Slice(ids, i, i + BatchSize);
      var batchDocuments := Slice(documents, i, i + BatchSize);
      var batchMetadatas := Slice(metadatas, i, i + BatchSize);
      calls := calls + [AddCall(batchIds, batchDocuments, batchMetadatas)];
      i := i + BatchSize;
    }
  }

  /** Lines 21-57: the whole preparation of the index from the chunk list. */
  method BuildIndex(allChunks: seq<Chunking.Chunk>) returns (calls: seq<AddCall>)
    ensures |calls| == BatchCount(|allChunks|)
    ensures forall b :: 0 <= b < |calls| ==>
      calls[b] == Batch(Ids(|allChunks|), Documents(allChunks), Metadatas(allChunks), BatchSize * b)
  {
    var ids, documents, metadatas := PrepareRecords(allChunks);
    assert ids == Ids(|allChunks|);
    assert documents == Documents(allChunks);
    assert metadatas == Metadatas(allChunks);
    calls := AddInBatches(ids, documents, metadatas);
  }

  /** The ids of `n` chunks. */
  function Ids(n: nat): (r: seq<string>)
    ensures |r| == n && forall i :: 0 <= i < n ==> r[i] == ChunkId(i)
  {
    seq(n, i requires 0 <= i < n => ChunkId(i))
  }

  /** The documents of the chunks. */
  function Documents(allChunks: seq<Chunking.Chunk>): (r: seq<string>)
    ensures |r| == |allChunks| && forall i :: 0 <= i < |r| ==> r[i] == allChunks[i].content
  {
    seq(|allChunks|, i requires 0 <= i < |allChunks| => allChunks[i].content)
  }

  /** The processed metadata of the chunks. */
  function Metadatas(allChunks: seq<Chunking.Chunk>): (r: seq<StoredMetadata>)
    ensures |r| == |allChunks| && forall i :: 0 <= i < |r| ==> r[i] == ProcessedMetadata(allChunks[i].metadata)
  {
    seq(|allChunks|, i requires 0 <= i < |allChunks| => ProcessedMetadata(allChunks[i].metadata))
  }

  // ---------------------------------------------------------------------
  // Properties of the batches
  // ---------------------------------------------------------------------

  function CallIds(c: AddCall): seq<string> {
    c.ids
  }

  /**
   * Lines 43-46: every batch holds between one and a hundred records, and
   * when the three lists have the same length its slices are aligned: the
   * k-th id, document and metadata of batch b are those of record 100b + k.
   */
  lemma BatchShape(ids: seq<string>, documents: seq<string>, metadatas: seq<StoredMetadata>, b: nat)
    requires b < BatchCount(|ids|)
    requires |documents| == |metadatas| == |ids|
    ensures var c := Batch(ids, documents, metadatas, BatchSize * b);
      && 1 <= |c.ids| <= BatchSize
      && |c.documents| == |c.metadatas| == |c.ids|
      && forall k :: 0 <= k < |c.ids| ==>
           && c.ids[k] == ids[BatchSize * b + k]
           && c.documents[k] == documents[BatchSize * b + k]
           && c.metadatas[k] == metadatas[BatchSize * b + k]
  {
    assert BatchSize * b <= BatchSize * (BatchCount(|ids|) - 1);
  }

  /** The records up to the end of a batch are those before it followed by the batch's slice. */
  lemma SlicePrefix<T>(s: seq<T>, lo: nat)
    ensures s[..Min(lo + BatchSize, |s|)] == s[..Min(lo, |s|)] + Slice(s, lo, lo + BatchSize)
  {
    if lo < |s| {
      assert s[..Min(lo + BatchSize, |s|)] == s[..lo] + s[lo..Min(lo + BatchSize, |s|)];
    }
  }

  /** The ids of the first `b` batches are the first `100b` ids (all of them once `100b` passes the end). */
  lemma {:induction false} BatchIdsPrefix(ids: seq<string>, documents: seq<string>,
                                          metadatas: seq<StoredMetadata>, calls: seq<AddCall>, b: nat)
    requires b <= |calls|
    requires forall j :: 0 <= j < |calls| ==> calls[j] == Batch(ids, documents, metadatas, BatchSize * j)
    ensures ConcatMap(CallIds, calls[..b]) == ids[..Min(BatchSize * b, |ids|)]
  {
    if b > 0 {
      BatchIdsPrefix(ids, documents, metadatas, calls, b - 1);
      assert calls[..b] == calls[..b - 1] + [calls[b - 1]];
      ConcatMapSnoc(CallIds, calls[..b - 1], calls[b - 1]);
      SlicePrefix(ids, BatchSize * (b - 1));
    }
  }

  /** Lines 43-46: the batches cover every record once and in order: their ids joined are the ids. */
  lemma BatchesCoverIds(ids: seq<string>, documents: seq<string>, metadatas: seq<StoredMetadata>,
                        calls: seq<AddCall>)
    requires |calls| == BatchCount(|ids|)
    requires forall j :: 0 <= j < |calls| ==> calls[j] == Batch(ids, documents, metadatas, BatchSize * j)
    ensures ConcatMap(CallIds, calls) == ids
  {
    BatchIdsPrefix(ids, documents, metadatas, calls, |calls|);
    assert calls[..|calls|] == calls;
    assert ids[..|ids|] == ids;
  }
}
