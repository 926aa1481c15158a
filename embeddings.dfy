/** `compute_embeddings_parallel` and the embedding function it is given: the documents are
    cut into consecutive batches, every batch is embedded (`pool.map` keeps batch order),
    and the per-batch lists are flattened back into one list. The embedding model is a
    parameter of the model. */
module Embeddings {
  import opened Seqs

  /** The vector a model returns for one text; its numbers are never inspected. */
  type Embedding = seq<real>

  /** `ollama.embeddings(model=..., prompt=...)["embedding"]`, as a function of the model
      name and the text. */
  type Embedder = (string, string) -> Embedding

  /** The model `OllamaEmbeddingFunction` uses unless told otherwise. */
  const DefaultModel := "llama3.2"

  /** An `OllamaEmbeddingFunction` object: only its model name. */
  datatype OllamaEmbeddingFunction = OllamaEmbeddingFunction(modelName: string)

  /** One embedding per text, in input order. */
  function EmbedAll(embedder: Embedder, model: string, input: seq<string>): (r: seq<Embedding>)
    ensures |r| == |input| && forall k :: 0 <= k < |input| ==> r[k] == embedder(model, input[k])
  {
    seq(|input|, k requires 0 <= k < |input| => embedder(model, input[k]))
  }

  /** An `OllamaEmbeddingFunction` seen as a function from a batch of texts to their
      embeddings; `Call` computes it. */
  function BatchEmbedder(embedder: Embedder, model: string): seq<string> -> seq<Embedding>
  {
    b => EmbedAll(embedder, model, b)
  }

  /** `OllamaEmbeddingFunction.__call__(input)`: asks the model for each text in turn and
      appends the answers. */
  method Call(f: OllamaEmbeddingFunction, embedder: Embedder, input: seq<string>)
    returns (embeddings: seq<Embedding>)
    ensures embeddings == EmbedAll(embedder, f.modelName, input)
  {
    embeddings := [];
    for idx := 0 to |input|
      invariant embeddings == EmbedAll(embedder, f.modelName, input[..idx])
    {
      embeddings := embeddings + [embedder(f.modelName, input[idx])];
    }
    assert input[..|input|] == input;
  }

  /** `[documents[i : i + batch_size] for i in range(0, len(documents), batch_size)]`.
      A zero batch size raises `ValueError`; a negative one gives no batch at all. A slice
      `documents[i : i + batch_size]` stops at the end of the list, which is the same as
      stopping at `min(i + batch_size, len(documents))`. */
  function Batches<T>(documents: seq<T>, batchSize: int): (r: Result<seq<seq<T>>>)
    ensures r.ValueError? <==> batchSize == 0
    ensures batchSize < 0 ==> r == Ok([])
    ensures batchSize > 0 ==> r.Ok? && (r.value == [] <==> documents == [])
  {
    match RangeFromZero(|documents|, batchSize)
    case ValueError => ValueError
    case Ok(starts) =>
      // a negative step yields no start, so the width matters only when it is positive
      Ok(Windows(documents, starts, if batchSize < 0 then 0 else batchSize, |documents|))
  }

  /** Putting the batches back together gives the documents again. */
  lemma BatchesRoundTrip<T>(documents: seq<T>, batchSize: int)
    requires batchSize > 0
    ensures Batches(documents, batchSize).Ok?
    ensures Flatten(Batches(documents, batchSize).value) == documents
  {
    WindowsRoundTrip(documents, batchSize);
  }

  /** Every batch is non-empty and at most `batch_size` long; all but the last are exactly
      `batch_size` long. */
  lemma BatchSizes<T>(documents: seq<T>, batchSize: int)
    requires batchSize > 0
    ensures var bs := Batches(documents, batchSize).value;
            forall k :: 0 <= k < |bs| ==>
              0 < |bs[k]| <= batchSize && (k < |bs| - 1 ==> |bs[k]| == batchSize)
  {
    assert Batches(documents, batchSize).value == Windows(documents, Range(0, |documents|, batchSize), batchSize, |documents|);
    WindowSizes(documents, batchSize);
  }

  /** `compute_embeddings_parallel(embedding_function, documents, batch_size)`: embed every
      batch, in batch order, and flatten. */
  function ComputeEmbeddingsParallel<T, E>(embed: seq<T> -> seq<E>, documents: seq<T>, batchSize: int)
    : (r: Result<seq<E>>)
    ensures r.ValueError? <==> batchSize == 0
    ensures batchSize < 0 ==> r == Ok([])
  {
    match Batches(documents, batchSize)
    case ValueError => ValueError
    case Ok(batches) => Ok(Flatten(MapSeq(embed, batches)))
  }

  /** With an embedding function that answers one embedding per input, there are as many
      embeddings as documents. */
  lemma EmbeddingsCount<T, E>(embed: seq<T> -> seq<E>, documents: seq<T>, batchSize: int)
    requires batchSize > 0
    requires forall b :: |embed(b)| == |b|
    ensures ComputeEmbeddingsParallel(embed, documents, batchSize).Ok?
    ensures |ComputeEmbeddingsParallel(embed, documents, batchSize).value| == |documents|
  {
    var batches := Batches(documents, batchSize).value;
    FlattenSameLength(batches, MapSeq(embed, batches));
    BatchesRoundTrip(documents, batchSize);
  }

  /** With `OllamaEmbeddingFunction`, embedding `k` of the result is the embedding of
      document `k`: batching and flattening keep the input order. */
  lemma EmbeddingsInOrder(embedder: Embedder, model: string, documents: seq<string>, batchSize: int)
    requires batchSize > 0
    ensures ComputeEmbeddingsParallel(BatchEmbedder(embedder, model), documents, batchSize)
            == Ok(EmbedAll(embedder, model, documents))
  {
    var embed := BatchEmbedder(embedder, model);
    var f := t => embedder(model, t);
    var batches := Batches(documents, batchSize).value;
    var yss := MapSeq(embed, batches);
    forall k | 0 <= k < |batches| ensures yss[k] == MapSeq(f, batches[k]) {
      assert yss[k] == EmbedAll(embedder, model, batches[k]);
    }
    FlattenMapInside(f, batches, yss);
    BatchesRoundTrip(documents, batchSize);
    assert MapSeq(f, documents) == EmbedAll(embedder, model, documents);
  }
}
