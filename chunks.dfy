/** `split_into_chunks`: every crawled page is cut into chunks by a text splitter, and three
    parallel lists are built — the chunks, a metadata record per chunk, and an id
    `doc_{i}_chunk_{j}` per chunk. The splitter is a parameter of the model. */
module Chunks {
  import opened Seqs

  /** A crawled page as `populate_collection` receives it: `{"url": ..., "content": ...}`. */
  datatype Doc = Doc(url: string, content: string)

  /** `{"source": url, "doc_id": i, "chunk_index": j}`. */
  datatype Metadata = Metadata(source: string, docId: nat, chunkIndex: nat)

  /** One chunk together with its metadata. */
  datatype Piece = Piece(chunk: string, meta: Metadata)

  /** `RecursiveCharacterTextSplitter(chunk_size, chunk_overlap, ...).split_text(text)`,
      as a function of the text, the chunk size and the overlap. */
  type Splitter = (string, int, int) -> seq<string>

  predicate IsDigit(c: char)
  {
    '0' <= c <= '9'
  }

  function DigitChar(d: nat): (c: char)
    requires d < 10
    ensures IsDigit(c) && c as int - '0' as int == d
  {
    ('0' as int + d) as char
  }

  /** `str(n)` for a non-negative integer: decimal digits without leading zeros. */
  function Decimal(n: nat): (s: string)
    ensures |s| > 0 && forall k :: 0 <= k < |s| ==> IsDigit(s[k])
    ensures s[0] == '0' ==> n == 0
  {
    if n < 10 then [DigitChar(n)] else Decimal(n / 10) + [DigitChar(n % 10)]
  }

  /** `int(s)` for a string of decimal digits. */
  function ParseDecimal(s: string): nat
    requires forall k :: 0 <= k < |s| ==> IsDigit(s[k])
  {
    if s == [] then 0
    else
      assert IsDigit(s[|s| - 1]);
      ParseDecimal(s[..|s| - 1]) * 10 + (s[|s| - 1] as int - '0' as int)
  }

  /** Reading back the decimal text of `n` gives `n`. */
  lemma {:induction false} DecimalRoundTrip(n: nat)
    ensures ParseDecimal(Decimal(n)) == n
  {
    var s := Decimal(n);
    if n >= 10 {
      DecimalRoundTrip(n / 10);
      assert s[..|s| - 1] == Decimal(n / 10);
    } else {
      assert s[..|s| - 1] == [];
    }
  }

  /** Different numbers have different decimal texts. */
  lemma DecimalInjective(a: nat, b: nat)
    requires Decimal(a) == Decimal(b)
    ensures a == b
  {
    DecimalRoundTrip(a);
    DecimalRoundTrip(b);
  }

  /** `f"doc_{i}_chunk_{j}"`. */
  function ChunkId(i: nat, j: nat): (id: string)
    ensures StartsWith(id, "doc_") && |id| == 11 + |Decimal(i)| + |Decimal(j)|
  {
    "doc_" + Decimal(i) + "_chunk_" + Decimal(j)
  }

  /** The document number of an id ends at the first non-digit after `doc_`. */
  lemma ChunkIdLayout(i: nat, j: nat)
    ensures var id, d := ChunkId(i, j), Decimal(i);
            && |id| == 4 + |d| + 7 + |Decimal(j)|
            && id[4..4 + |d|] == d && id[4 + |d|] == '_' && id[4 + |d| + 7..] == Decimal(j)
            && forall k :: 4 <= k < 4 + |d| ==> IsDigit(id[k])
  {
    var id, d := ChunkId(i, j), Decimal(i);
    assert id == "doc_" + d + "_chunk_" + Decimal(j);
    forall k | 4 <= k < 4 + |d| ensures id[k] == d[k - 4] {
    }
  }

  /** Two chunk ids are equal only for the same document and chunk number. */
  lemma ChunkIdInjective(i: nat, j: nat, i': nat, j': nat)
    requires ChunkId(i, j) == ChunkId(i', j')
    ensures i == i' && j == j'
  {
    var id := ChunkId(i, j);
    var d, d' := Decimal(i), Decimal(i');
    ChunkIdLayout(i, j);
    ChunkIdLayout(i', j');
    assert |d'| <= |d| by {
      assert !IsDigit(id[4 + |d|]);
    }
    assert |d| <= |d'| by {
      assert !IsDigit(id[4 + |d'|]);
    }
    DecimalInjective(i, i');
    DecimalInjective(j, j');
  }

  /** The pieces of document number `i`: its chunks in the splitter's order, numbered from 0. */
  function DocPieces(split: Splitter, doc: Doc, i: nat, chunkSize: int, overlap: int): (r: seq<Piece>)
    ensures var chunks := split(doc.content, chunkSize, overlap);
            |r| == |chunks| &&
            forall j :: 0 <= j < |r| ==> r[j] == Piece(chunks[j], Metadata(doc.url, i, j))
  {
    var chunks := split(doc.content, chunkSize, overlap);
    seq(|chunks|, j requires 0 <= j < |chunks| => Piece(chunks[j], Metadata(doc.url, i, j)))
  }

  /** The pieces of all documents, grouped by document in input order. Every piece is chunk
      number `chunkIndex` of document number `docId`, and carries that document's url. */
  function Pieces(split: Splitter, data: seq<Doc>, chunkSize: int, overlap: int): (r: seq<Piece>)
    ensures forall k :: 0 <= k < |r| ==>
              var m := r[k].meta;
              && m.docId < |data|
              && m.source == data[m.docId].url
              && m.chunkIndex < |split(data[m.docId].content, chunkSize, overlap)|
              && r[k].chunk == split(data[m.docId].content, chunkSize, overlap)[m.chunkIndex]
    decreases |data|
  {
    if data == [] then []
    else
      var n := |data| - 1;
      Pieces(split, data[..n], chunkSize, overlap) + DocPieces(split, data[n], n, chunkSize, overlap)
  }

  function Texts(ps: seq<Piece>): (r: seq<string>)
    ensures |r| == |ps| && forall k :: 0 <= k < |ps| ==> r[k] == ps[k].chunk
  {
    seq(|ps|, k requires 0 <= k < |ps| => ps[k].chunk)
  }

  function Metas(ps: seq<Piece>): (r: seq<Metadata>)
    ensures |r| == |ps| && forall k :: 0 <= k < |ps| ==> r[k] == ps[k].meta
  {
    seq(|ps|, k requires 0 <= k < |ps| => ps[k].meta)
  }

  function Ids(ps: seq<Piece>): (r: seq<string>)
    ensures |r| == |ps| && forall k :: 0 <= k < |ps| ==> r[k] == ChunkId(ps[k].meta.docId, ps[k].meta.chunkIndex)
  {
    seq(|ps|, k requires 0 <= k < |ps| => ChunkId(ps[k].meta.docId, ps[k].meta.chunkIndex))
  }

  /** The splitter's output for every document, in input order. */
  function SplitAll(split: Splitter, data: seq<Doc>, chunkSize: int, overlap: int): (r: seq<seq<string>>)
    ensures |r| == |data| && forall i :: 0 <= i < |data| ==> r[i] == split(data[i].content, chunkSize, overlap)
  {
    seq(|data|, i requires 0 <= i < |data| => split(data[i].content, chunkSize, overlap))
  }

  /** The chunk list is every document's chunks, concatenated in document order with the
      splitter's order kept inside each document. */
  lemma {:induction false} PiecesGrouped(split: Splitter, data: seq<Doc>, chunkSize: int, overlap: int)
    ensures Texts(Pieces(split, data, chunkSize, overlap)) == Flatten(SplitAll(split, data, chunkSize, overlap))
    decreases |data|
  {
    if data != [] {
      var n := |data| - 1;
      var before := Pieces(split, data[..n], chunkSize, overlap);
      var last := DocPieces(split, data[n], n, chunkSize, overlap);
      PiecesGrouped(split, data[..n], chunkSize, overlap);
      assert SplitAll(split, data, chunkSize, overlap)[..n] == SplitAll(split, data[..n], chunkSize, overlap);
      assert Texts(before + last) == Texts(before) + Texts(last);
    }
  }

  /** Pieces are in strictly increasing (document, chunk) order. */
  predicate Ascending(ps: seq<Piece>)
  {
    forall k, l :: 0 <= k < l < |ps| ==>
      ps[k].meta.docId < ps[l].meta.docId
      || (ps[k].meta.docId == ps[l].meta.docId && ps[k].meta.chunkIndex < ps[l].meta.chunkIndex)
  }

  lemma {:induction false} PiecesAscending(split: Splitter, data: seq<Doc>, chunkSize: int, overlap: int)
    ensures Ascending(Pieces(split, data, chunkSize, overlap))
    decreases |data|
  {
    if data != [] {
      var n := |data| - 1;
      var before := Pieces(split, data[..n], chunkSize, overlap);
      var last := DocPieces(split, data[n], n, chunkSize, overlap);
      PiecesAscending(split, data[..n], chunkSize, overlap);
      var all := before + last;
      forall k, l | 0 <= k < l < |all|
        ensures all[k].meta.docId < all[l].meta.docId
                || (all[k].meta.docId == all[l].meta.docId && all[k].meta.chunkIndex < all[l].meta.chunkIndex)
      {
        if l < |before| {
          assert all[k] == before[k] && all[l] == before[l];
        } else if k < |before| {
          assert all[k] == before[k] && all[l] == last[l - |before|];
        } else {
          assert all[k] == last[k - |before|] && all[l] == last[l - |before|];
        }
      }
    }
  }

  /** The ids handed to the collection are pairwise distinct. */
  lemma IdsDistinct(split: Splitter, data: seq<Doc>, chunkSize: int, overlap: int)
    ensures Distinct(Ids(Pieces(split, data, chunkSize, overlap)))
  {
    var ps := Pieces(split, data, chunkSize, overlap);
    var ids := Ids(ps);
    PiecesAscending(split, data, chunkSize, overlap);
    forall k, l | 0 <= k < l < |ids| ensures ids[k] != ids[l] {
      if ids[k] == ids[l] {
        ChunkIdInjective(ps[k].meta.docId, ps[k].meta.chunkIndex, ps[l].meta.docId, ps[l].meta.chunkIndex);
      }
    }
  }

  /** The three lists hold, position by position, the chunk, the metadata and the id of
      the pieces in `ps`. */
  predicate Aligned(chunks: seq<string>, metadatas: seq<Metadata>, ids: seq<string>, ps: seq<Piece>)
  {
    chunks == Texts(ps) && metadatas == Metas(ps) && ids == Ids(ps)
  }

  lemma AlignedSnoc(chunks: seq<string>, metadatas: seq<Metadata>, ids: seq<string>, ps: seq<Piece>, p: Piece)
    requires Aligned(chunks, metadatas, ids, ps)
    ensures Aligned(chunks + [p.chunk], metadatas + [p.meta], ids + [ChunkId(p.meta.docId, p.meta.chunkIndex)], ps + [p])
  {
  }

  lemma PiecesSnoc(split: Splitter, data: seq<Doc>, chunkSize: int, overlap: int, i: nat)
    requires i < |data|
    ensures Pieces(split, data[..i + 1], chunkSize, overlap)
            == Pieces(split, data[..i], chunkSize, overlap) + DocPieces(split, data[i], i, chunkSize, overlap)
  {
    assert data[..i + 1][..i] == data[..i];
  }

  /** `split_into_chunks(crawled_data, chunk_size, chunk_overlap)`: the nested loops append
      one chunk, one metadata record and one id per piece, so the three lists stay aligned
      with the pieces of all documents. */
  method SplitIntoChunks(split: Splitter, data: seq<Doc>, chunkSize: int, overlap: int)
    returns (chunks: seq<string>, metadatas: seq<Metadata>, ids: seq<string>)
    ensures Aligned(chunks, metadatas, ids, Pieces(split, data, chunkSize, overlap))
  {
    chunks, metadatas, ids := [], [], [];
    for i := 0 to |data|
      invariant Aligned(chunks, metadatas, ids, Pieces(split, data[..i], chunkSize, overlap))
    {
      var entry := data[i];
      var docChunks := split(entry.content, chunkSize, overlap);
      ghost var before := Pieces(split, data[..i], chunkSize, overlap);
      ghost var mine := DocPieces(split, entry, i, chunkSize, overlap);
      for j := 0 to |docChunks|
        invariant Aligned(chunks, metadatas, ids, before + mine[..j])
      {
        AlignedSnoc(chunks, metadatas, ids, before + mine[..j], mine[j]);
        assert before + mine[..j + 1] == before + mine[..j] + [mine[j]];
        chunks := chunks + [docChunks[j]];
        metadatas := metadatas + [Metadata(entry.url, i, j)];
        ids := ids + [ChunkId(i, j)];
      }
      PiecesSnoc(split, data, chunkSize, overlap, i);
      assert mine[..|docChunks|] == mine;
    }
    assert data[..|data|] == data;
  }
}
