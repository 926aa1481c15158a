/** `batch_add` and `populate_collection`: the chunks, their metadata, ids and embeddings
    are handed to the vector collection in windows of `batch_size` positions. The
    collection keeps the log of the `add` calls it received. */
module VectorStore {
  import opened Seqs
  import opened Chunks
  import opened Embeddings

  /** The arguments of one `collection.add(documents=..., metadatas=..., ids=..., embeddings=...)`. */
  datatype AddCall = AddCall(documents: seq<string>, metadatas: seq<Metadata>, ids: seq<string>,
                             embeddings: seq<Embedding>)

  /** A vector collection, seen through the `add` calls it has received. */
  class Collection {
    var added: seq<AddCall>

    constructor ()
      ensures added == []
    {
      added := [];
    }

    /** `collection.add(...)`. */
    method Add(call: AddCall)
      modifies this
      ensures added == old(added) + [call]
    {
      added := added + [call];
    }
  }

  /** The window starting at `start`: the same bounds `[start, min(start + batch_size,
      total))` cut all four lists. */
  function WindowCall(documents: seq<string>, metadatas: seq<Metadata>, ids: seq<string>,
                      embeddings: seq<Embedding>, start: nat, batchSize: nat): (call: AddCall)
    ensures |call.documents| <= batchSize
    ensures start < |documents| && 0 < batchSize ==> 0 < |call.documents|
  {
    var end := Min(start + batchSize, |documents|);
    AddCall(PySlice(documents, start, end), PySlice(metadatas, start, end),
            PySlice(ids, start, end), PySlice(embeddings, start, end))
  }

  /** A window starting inside lists of one same length cuts all four at the same
      positions, so the call receives four lists of one same length. */
  lemma WindowCallAligned(documents: seq<string>, metadatas: seq<Metadata>, ids: seq<string>,
                          embeddings: seq<Embedding>, start: nat, batchSize: nat)
    requires start < |documents| && |metadatas| == |ids| == |embeddings| == |documents|
    ensures var c, end := WindowCall(documents, metadatas, ids, embeddings, start, batchSize),
                          Min(start + batchSize, |documents|);
            && c.documents == documents[start..end] && c.metadatas == metadatas[start..end]
            && c.ids == ids[start..end] && c.embeddings == embeddings[start..end]
  {
  }

  /** One call per start, in order. */
  function WindowCalls(documents: seq<string>, metadatas: seq<Metadata>, ids: seq<string>,
                       embeddings: seq<Embedding>, starts: seq<nat>, batchSize: nat): (r: seq<AddCall>)
    ensures |r| == |starts|
    ensures forall k :: 0 <= k < |starts| ==> r[k] == WindowCall(documents, metadatas, ids, embeddings, starts[k], batchSize)
  {
    seq(|starts|, k requires 0 <= k < |starts| => WindowCall(documents, metadatas, ids, embeddings, starts[k], batchSize))
  }

  /** The `add` calls `batch_add` makes, one per `start_idx` in
      `range(0, len(documents), batch_size)`; none when that raises. */
  function Calls(documents: seq<string>, metadatas: seq<Metadata>, ids: seq<string>,
                 embeddings: seq<Embedding>, batchSize: int): (r: seq<AddCall>)
    ensures batchSize <= 0 ==> r == []
    ensures batchSize > 0 ==> r == WindowCalls(documents, metadatas, ids, embeddings, Range(0, |documents|, batchSize), batchSize)
  {
    match RangeFromZero(|documents|, batchSize)
    case ValueError => []
    case Ok(starts) =>
      // a negative step yields no start, so the width matters only when it is positive
      WindowCalls(documents, metadatas, ids, embeddings, starts, if batchSize < 0 then 0 else batchSize)
  }

  /** The loop `for start_idx in range(...)` of `batch_add`: one `add` call per start, in
      order. */
  method AddWindows(collection: Collection, documents: seq<string>, metadatas: seq<Metadata>,
                    ids: seq<string>, embeddings: seq<Embedding>, starts: seq<nat>, batchSize: nat)
    modifies collection
    ensures collection.added == old(collection.added) + WindowCalls(documents, metadatas, ids, embeddings, starts, batchSize)
  {
    ghost var calls := WindowCalls(documents, metadatas, ids, embeddings, starts, batchSize);
    ghost var before := collection.added;
    for k := 0 to |starts|
      invariant collection.added == before + calls[..k]
    {
      var startIdx := starts[k];
      // cuts the four lists at `start_idx` and `min(start_idx + batch_size, total)`
      var call := WindowCall(documents, metadatas, ids, embeddings, startIdx, batchSize);
      assert call == calls[k];
      collection.Add(call);
      TakeSnoc(calls, k);
    }
    assert calls[..|starts|] == calls;
  }

  /** `batch_add(collection, documents, metadatas, ids, embeddings, batch_size)`. A zero
      batch size raises `ValueError` before any call. */
  method BatchAdd(collection: Collection, documents: seq<string>, metadatas: seq<Metadata>,
                  ids: seq<string>, embeddings: seq<Embedding>, batchSize: int)
    returns (r: Result<()>)
    modifies collection
    ensures r.ValueError? <==> batchSize == 0
    ensures collection.added == old(collection.added) + Calls(documents, metadatas, ids, embeddings, batchSize)
  {
    var range := RangeFromZero(|documents|, batchSize);
    if range.ValueError? {
      return ValueError;
    }
    // a negative step yields no start, so the width matters only when it is positive
    AddWindows(collection, documents, metadatas, ids, embeddings, range.value, if batchSize < 0 then 0 else batchSize);
    return Ok(());
  }

  function CallDocuments(calls: seq<AddCall>): (r: seq<seq<string>>)
    ensures |r| == |calls| && forall k :: 0 <= k < |calls| ==> r[k] == calls[k].documents
  {
    seq(|calls|, k requires 0 <= k < |calls| => calls[k].documents)
  }

  function CallMetadatas(calls: seq<AddCall>): (r: seq<seq<Metadata>>)
    ensures |r| == |calls| && forall k :: 0 <= k < |calls| ==> r[k] == calls[k].metadatas
  {
    seq(|calls|, k requires 0 <= k < |calls| => calls[k].metadatas)
  }

  function CallIds(calls: seq<AddCall>): (r: seq<seq<string>>)
    ensures |r| == |calls| && forall k :: 0 <= k < |calls| ==> r[k] == calls[k].ids
  {
    seq(|calls|, k requires 0 <= k < |calls| => calls[k].ids)
  }

  function CallEmbeddings(calls: seq<AddCall>): (r: seq<seq<Embedding>>)
    ensures |r| == |calls| && forall k :: 0 <= k < |calls| ==> r[k] == calls[k].embeddings
  {
    seq(|calls|, k requires 0 <= k < |calls| => calls[k].embeddings)
  }

  /** Nothing is added when there is nothing to add, or when the batch size is zero. */
  lemma NoCallsWhenEmpty(documents: seq<string>, metadatas: seq<Metadata>, ids: seq<string>,
                         embeddings: seq<Embedding>, batchSize: int)
    requires documents == [] || batchSize <= 0
    ensures Calls(documents, metadatas, ids, embeddings, batchSize) == []
  {
  }

  /** Every window is non-empty and at most `batch_size` long, all but the last exactly
      `batch_size` long, and when the four lists have the same length, each call receives
      four lists of one same length. */
  lemma CallsAligned(documents: seq<string>, metadatas: seq<Metadata>, ids: seq<string>,
                     embeddings: seq<Embedding>, batchSize: int)
    requires batchSize > 0
    requires |metadatas| == |ids| == |embeddings| == |documents|
    ensures var calls := Calls(documents, metadatas, ids, embeddings, batchSize);
            forall k :: 0 <= k < |calls| ==>
              && 0 < |calls[k].documents| <= batchSize
              && (k < |calls| - 1 ==> |calls[k].documents| == batchSize)
              && |calls[k].metadatas| == |calls[k].ids| == |calls[k].embeddings| == |calls[k].documents|
  {
    var calls := Calls(documents, metadatas, ids, embeddings, batchSize);
    var starts := Range(0, |documents|, batchSize);
    forall k | 0 <= k < |calls|
      ensures && 0 < |calls[k].documents| <= batchSize
              && (k < |calls| - 1 ==> |calls[k].documents| == batchSize)
              && |calls[k].metadatas| == |calls[k].ids| == |calls[k].embeddings| == |calls[k].documents|
    {
      if k < |calls| - 1 {
        RangeStep(0, |documents|, batchSize, k);
      }
      CallAt(documents, metadatas, ids, embeddings, starts[k], batchSize);
    }
  }

  /** The call for a start inside the lists: four lists of one same, non-zero length of at
      most `batch_size`, exactly `batch_size` unless the window reaches the end. */
  lemma CallAt(documents: seq<string>, metadatas: seq<Metadata>, ids: seq<string>,
               embeddings: seq<Embedding>, start: nat, batchSize: nat)
    requires batchSize > 0 && start < |documents|
    requires |metadatas| == |ids| == |embeddings| == |documents|
    ensures var c := WindowCall(documents, metadatas, ids, embeddings, start, batchSize);
            && 0 < |c.documents| <= batchSize
            && (start + batchSize <= |documents| ==> |c.documents| == batchSize)
            && |c.metadatas| == |c.ids| == |c.embeddings| == |c.documents|
  {
    WindowCallAligned(documents, metadatas, ids, embeddings, start, batchSize);
  }

  /** Each of the four argument lists, across the calls, is the list of windows of the
      matching input list. */
  lemma CallsAreWindows(documents: seq<string>, metadatas: seq<Metadata>, ids: seq<string>,
                        embeddings: seq<Embedding>, batchSize: int)
    requires batchSize > 0
    ensures var calls, starts, n := Calls(documents, metadatas, ids, embeddings, batchSize),
                                    Range(0, |documents|, batchSize), |documents|;
            && CallDocuments(calls) == Windows(documents, starts, batchSize, n)
            && CallMetadatas(calls) == Windows(metadatas, starts, batchSize, n)
            && CallIds(calls) == Windows(ids, starts, batchSize, n)
            && CallEmbeddings(calls) == Windows(embeddings, starts, batchSize, n)
  {
    var calls := Calls(documents, metadatas, ids, embeddings, batchSize);
    var starts := Range(0, |documents|, batchSize);
    var n := |documents|;
    assert CallDocuments(calls) == Windows(documents, starts, batchSize, n);
    assert CallMetadatas(calls) == Windows(metadatas, starts, batchSize, n);
    assert CallIds(calls) == Windows(ids, starts, batchSize, n);
    assert CallEmbeddings(calls) == Windows(embeddings, starts, batchSize, n);
  }

  /** The windows cover every position exactly once and in order: the calls' documents,
      metadatas, ids and embeddings, put back together, are the four input lists. */
  lemma CallsPartition(documents: seq<string>, metadatas: seq<Metadata>, ids: seq<string>,
                       embeddings: seq<Embedding>, batchSize: int)
    requires batchSize > 0
    requires |metadatas| == |ids| == |embeddings| == |documents|
    ensures var calls := Calls(documents, metadatas, ids, embeddings, batchSize);
            && Flatten(CallDocuments(calls)) == documents
            && Flatten(CallMetadatas(calls)) == metadatas
            && Flatten(CallIds(calls)) == ids
            && Flatten(CallEmbeddings(calls)) == embeddings
  {
    CallsAreWindows(documents, metadatas, ids, embeddings, batchSize);
    WindowsRoundTrip(documents, batchSize);
    WindowsRoundTrip(metadatas, batchSize);
    WindowsRoundTrip(ids, batchSize);
    WindowsRoundTrip(embeddings, batchSize);
  }

  /** The chunk size, overlap and batch sizes `populate_collection` passes. */
  const ChunkSize := 1000
  const ChunkOverlap := 200
  const EmbeddingBatchSize := 30
  const AddBatchSize := 200

  /** The `add` calls `populate_collection` makes for `crawledData`. */
  function PopulateCalls(split: Splitter, embedder: Embedder, crawledData: seq<Doc>): (calls: seq<AddCall>)
    ensures forall k :: 0 <= k < |calls| ==>
              && 0 < |calls[k].documents| <= AddBatchSize
              && |calls[k].metadatas| == |calls[k].ids| == |calls[k].embeddings| == |calls[k].documents|
  {
    var ps := Pieces(split, crawledData, ChunkSize, ChunkOverlap);
    CallsAligned(Texts(ps), Metas(ps), Ids(ps), EmbedAll(embedder, DefaultModel, Texts(ps)), AddBatchSize);
    Calls(Texts(ps), Metas(ps), Ids(ps), EmbedAll(embedder, DefaultModel, Texts(ps)), AddBatchSize)
  }

  /** `populate_collection(collection, crawled_data)`: split, embed with the default
      `OllamaEmbeddingFunction` in batches of 30, add in batches of 200. */
  method PopulateCollection(collection: Collection, split: Splitter, embedder: Embedder, crawledData: seq<Doc>)
    modifies collection
    ensures collection.added == old(collection.added) + PopulateCalls(split, embedder, crawledData)
  {
    var chunks, metadatas, ids := SplitIntoChunks(split, crawledData, ChunkSize, ChunkOverlap);
    var embeddingFunction := OllamaEmbeddingFunction(DefaultModel);
    var embeddings := ComputeEmbeddingsParallel(BatchEmbedder(embedder, embeddingFunction.modelName), chunks,
                                                EmbeddingBatchSize);
    EmbeddingsInOrder(embedder, embeddingFunction.modelName, chunks, EmbeddingBatchSize);
    var _ := BatchAdd(collection, chunks, metadatas, ids, embeddings.value, AddBatchSize);
  }

  /** What `populate_collection` stores: every chunk of every page exactly once, in order,
      with its own metadata, a distinct id and its own embedding. */
  lemma PopulateStoresEveryChunk(split: Splitter, embedder: Embedder, crawledData: seq<Doc>)
    ensures var ps := Pieces(split, crawledData, ChunkSize, ChunkOverlap);
            var calls := PopulateCalls(split, embedder, crawledData);
            && Flatten(CallDocuments(calls)) == Texts(ps) == Flatten(SplitAll(split, crawledData, ChunkSize, ChunkOverlap))
            && Flatten(CallMetadatas(calls)) == Metas(ps)
            && Flatten(CallIds(calls)) == Ids(ps) && Distinct(Ids(ps))
            && Flatten(CallEmbeddings(calls)) == EmbedAll(embedder, DefaultModel, Texts(ps))
  {
    var ps := Pieces(split, crawledData, ChunkSize, ChunkOverlap);
    CallsPartition(Texts(ps), Metas(ps), Ids(ps), EmbedAll(embedder, DefaultModel, Texts(ps)), AddBatchSize);
    PiecesGrouped(split, crawledData, ChunkSize, ChunkOverlap);
    IdsDistinct(split, crawledData, ChunkSize, ChunkOverlap);
  }
}
