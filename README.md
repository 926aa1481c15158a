# Crawler — a Dafny model of the level-by-level crawl and the vector-store bookkeeping

This project models the core of the Crawler repository. That core is a site-scoped web crawl, `start_scraping`, which works one depth level at a time, plus the bookkeeping that feeds crawled pages to a vector store.

## The crawl loop

`start_scraping(base_url, max_depth)` keeps three pieces of state:
- a `visited` map;
- a `to_visit` list of `(url, depth)` pairs;
- a `results` list.

Each round of its `while to_visit` loop does the following:
1. It filters `to_visit` into a batch. URLs already visited are skipped, and so are tasks deeper than `max_depth`. Every kept URL is marked visited straight away.
2. It clears `to_visit`. An empty batch ends the loop.
3. It fetches the batch with `pool.map`, which keeps the batch order.
4. It appends one result per page.
5. It queues every link of every page, once the link is normalised (`normalize_link`), when the link stays under `base_url` and is not visited yet. The link is queued one level below the page that holds it.

The repository has three copies of this loop, two of them identical. Each copy is modelled as an imperative method:
- `modules/process_manager/master.py` is modelled by `Master.StartScraping`. Its code is the same as `src/modules/process_manager/master.py`.
- `tests/scrapping_multi.py` is modelled by `ScrappingMulti.StartScraping`. This copy normalises links inline, and it queues links at the depth left over in the filter loop's variable.

Each method is proved to return exactly `Frontier.CrawlResults`, which is one pure reference definition of the crawl. The crawl's properties are then proved once, about that reference, in module `CrawlProperties`. Those properties are:
- no URL is fetched twice;
- depths stay within `0..max_depth`;
- everything fetched stays on-site;
- every fetched page after the seed was found on a page fetched before it, one level up;
- pages come level by level;
- the crawl is complete;
- the loop runs at most `max_depth + 2` rounds.

`ScrapperLinear.RecursiveScrape` models `recursive_scrape`, the depth-first predecessor of the crawl.

The fetcher (`worker` / `extract_text_and_links`) is a parameter of the model. It is a function from a URL to the page it answers: the URL it reports, the page text and the raw links.

## Feeding the vector store

- `split_into_chunks` is modelled as `Chunks.SplitIntoChunks`. It cuts every page with a text splitter and builds three aligned lists: chunks, metadata records and ids `doc_{i}_chunk_{j}`.
- `compute_embeddings_parallel` is modelled as `Embeddings.ComputeEmbeddingsParallel`. It slices the documents into batches `documents[i:i+batch_size]` over `range(0, len(documents), batch_size)`, embeds each batch and flattens the results. The copy in `src/modules/process_manager/master.py:28-42` is the same computation with another default batch size.
- `batch_add` is modelled as `VectorStore.BatchAdd`. It hands the four lists to `collection.add` in windows `[start, min(start + batch_size, total))`.
- `populate_collection` is modelled as `VectorStore.PopulateCollection`, which chains the three.

The text splitter, the embedding model and the collection are abstract:
- the splitter is a function;
- the embedding model is a function;
- the collection is a class that records the `add` calls it receives.

Python's `range` with a zero step raises `ValueError`, and the model keeps that error as a `Result`. A negative step gives an empty range.

## Behaviour notes

The model keeps these behaviours of the crawl loop in `src/modules/process_manager/master.py`:
- **Result order.** Results come back in batch order, because `pool.map` keeps the order of its input (line 72).
- **When the loop stops.** A round whose filtered batch is empty still runs, and then hits `break` (lines 57-70). So the loop runs up to `max_depth + 2` rounds: the last of them fetches nothing.
- **Negative `max_depth`.** The seed `(base_url, 0)` is deeper than `max_depth`, so the first round's batch is empty. The loop runs one round and returns `[]` (lines 61 and 68-70).

## Model

| member | source | states |
|---|---|---|
| Links.NormalizeLink | src/modules/process_manager/master.py:11-12 | a root-relative link (one starting with `/`) comes back under the base URL |
| Links.NormalizeLinkResolves | src/modules/process_manager/master.py:11-12 | a link starting with `/` becomes the base URL followed by the link, which can be read back after the base; any other link is returned unchanged |
| Links.OnSiteCases | src/modules/process_manager/master.py:77-78 | after normalisation every root-relative link is on-site; any other link is on-site exactly when it already starts with the base URL |
| Links.NormalizeIdempotent | src/modules/process_manager/master.py:11-12 | normalising twice equals normalising once when the base URL is not itself root-relative |
| Links.NormalizeNotIdempotentForRootRelativeBase | src/modules/process_manager/master.py:11-12 | with a root-relative base URL, normalising twice differs from normalising once ("/a" against "/b") |
| Frontier.Select | src/modules/process_manager/master.py:60-64 | the new visited set is the old one plus the batch's URLs; every batch task comes from `to_visit`, lies at most at `max_depth` and was not visited before; batch URLs are pairwise distinct; every task of `to_visit` at a fetchable depth ends up visited |
| Frontier.BatchAtLevel | src/modules/process_manager/master.py:60-64 | the batch filtered from a frontier on one level lies on that level |
| Frontier.Queue | src/modules/process_manager/master.py:76-79 | the link loop queues at most one task per link |
| Frontier.QueueSound | src/modules/process_manager/master.py:76-79 | every queued task carries the parent depth + 1, starts with the base URL, was not visited, and comes from one of the page's links after normalisation |
| Frontier.QueueComplete | src/modules/process_manager/master.py:76-79 | every link that normalises to an on-site, unvisited URL is queued at the parent depth + 1 |
| Frontier.NextRoundSound | src/modules/process_manager/master.py:74-79 | every task of the next frontier is an on-site, unvisited link of the page of some batch task, one level below that task |
| Frontier.NextRoundComplete | src/modules/process_manager/master.py:74-79 | every on-site, unvisited link of every fetched page is in the next frontier, one level below its page's task |
| Frontier.NextRoundHas | src/modules/process_manager/master.py:74-79 | whatever the link loop queues for one page of the batch is part of the next frontier |
| Frontier.NextRoundAtLevel | src/modules/process_manager/master.py:74-80 | a batch on one level yields a next frontier wholly on the next level |
| Frontier.Fetched | src/modules/process_manager/master.py:72 | `pool.map` gives one page per task, page `i` being the fetch of task `i`'s URL |
| Frontier.Run | src/modules/process_manager/master.py:57-80 | the tasks fetched so far stay a prefix of every later fetch log, and a non-empty frontier runs at least one more round |
| Frontier.Crawl | src/modules/process_manager/master.py:45-83 | the loop runs at least one round; with `max_depth < 0` it runs exactly one and fetches nothing; otherwise the seed `(base_url, 0)` is fetched first |
| Frontier.CrawlResults | src/modules/process_manager/master.py:45-83 | one result per fetched task; no results when `max_depth < 0`; otherwise the first result is the seed's page |
| Master.SelectBatch | modules/process_manager/master.py:24-30 | the filter loop computes exactly the batch and visited set of `Select` |
| Master.QueueLinks | modules/process_manager/master.py:43-46 | the link loop appends exactly `Queue` of the page's links at depth + 1 |
| Master.CollectRound | modules/process_manager/master.py:40-47 | results grow by the pages in batch order, and the next frontier is exactly `NextRound` of the batch |
| Master.StartScraping | modules/process_manager/master.py:13-50 | the returned results are exactly the reference crawl's results, and the loop runs as many rounds as the reference counts |
| ScrappingMulti.LeftoverDepthIsLevel | tests/scrapping_multi.py:39-40 | the loop variable `depth` left over from the filter loop is the current level, whether its last entry was kept or skipped |
| ScrappingMulti.FilterRound | tests/scrapping_multi.py:39-45 | the filter loop computes the batch and visited set of `Select`, and leaves `depth` at the last entry's depth |
| ScrappingMulti.QueueLinks | tests/scrapping_multi.py:54-57 | the inline-normalising link loop appends exactly `Queue` of the links at depth + 1 |
| ScrappingMulti.CollectRound | tests/scrapping_multi.py:52-57 | with the leftover `depth` as the level of the batch, results grow by the pages in order and the next frontier is exactly `NextRound` |
| ScrappingMulti.StartScraping | tests/scrapping_multi.py:27-61 | the returned results are exactly the reference crawl's results, and the loop runs as many rounds as the reference counts |
| CrawlProperties.InitInv | src/modules/process_manager/master.py:49-52 | the initial state (empty visited, `[(base_url, 0)]`, no results) satisfies the loop invariant |
| CrawlProperties.StepShape | src/modules/process_manager/master.py:57-80 | a round with a non-empty batch keeps visited equal to the fetched URLs, fetched URLs distinct, depths ordered and bounded, the frontier on one level |
| CrawlProperties.StepLinks | src/modules/process_manager/master.py:57-80 | a round keeps every fetched task discovered from an earlier page, every waiting task on-site with a parent, and every on-site link of a fetched page visited or waiting |
| CrawlProperties.Exit | src/modules/process_manager/master.py:57-70 | when the loop stops, the invariant gives the whole post-condition of the crawl |
| CrawlProperties.CrawlPost | src/modules/process_manager/master.py:45-83 | the finished crawl satisfies the post-condition: distinct URLs, bounded depths, seed first, bounded rounds, provenance, level order, completeness |
| CrawlProperties.CrawlNoDuplicates | src/modules/process_manager/master.py:60-64 | no URL is fetched twice, within a round or across rounds |
| CrawlProperties.CrawlDepthBounded | src/modules/process_manager/master.py:61 | every fetched task lies between depth 0 and `max_depth` |
| CrawlProperties.CrawlRounds | src/modules/process_manager/master.py:57-70 | the loop runs at least once and at most `max_depth + 2` times, exactly once when `max_depth < 0` |
| CrawlProperties.CrawlOnSite | src/modules/process_manager/master.py:76-79 | every fetched URL starts with the base URL |
| CrawlProperties.CrawlProvenance | src/modules/process_manager/master.py:74-79 | every fetched task after the seed comes, one level down, from a link of a page fetched before it |
| CrawlProperties.CrawlLevelOrder | src/modules/process_manager/master.py:57-80 | depths never decrease along the fetch order |
| CrawlProperties.CrawlComplete | src/modules/process_manager/master.py:74-80 | every on-site link of a page fetched above `max_depth` is itself fetched |
| CrawlProperties.CrawlDepthZero | src/modules/process_manager/master.py:52-80 | with `max_depth == 0` exactly the seed is fetched, however many links it has |
| CrawlProperties.CrawlNoLinks | src/modules/process_manager/master.py:74-80 | when no page has links (every fetch failing, say), only the seed is fetched |
| CrawlProperties.CrawlResultsUnique | src/modules/process_manager/master.py:72-75 | with a fetcher that reports the URL it was given, result URLs are pairwise distinct and as many as the URLs marked visited |
| ScrapperLinear.RecursiveScrape | tests/scrapper_linear.py:16-37 | `results` only grows; depth 0 or a visited URL changes nothing; otherwise the page of `url` comes first; every appended page is the page of its URL, unvisited before, fetched once, fewer than `depth` hops from `url`, on-site and reached from an earlier page (depth-first preorder); `visited` grows by exactly the appended URLs; a page without links appends only itself |
| Seqs.PySlice | modules/persistency/vector_storage.py:141-144 | a Python slice `s[a:b]` with non-negative bounds stays inside the list, is `s[a..b]` when both bounds are in range, runs to the end when only `b` is past it, and is empty when the bounds cross or `a` is past the end |
| Seqs.Range | modules/persistency/vector_storage.py:137 | `range(start, stop, step)` is empty exactly when `start >= stop`, starts at `start`, stays below `stop`, and its last element is within one step of `stop` |
| Seqs.RangeStep | modules/persistency/vector_storage.py:137 | consecutive elements of a range are one step apart |
| Seqs.RangeFromZero | modules/persistency/vector_storage.py:137 | `range(0, stop, step)` raises `ValueError` exactly when `step == 0` and is empty when `step < 0` |
| Seqs.WindowsRoundTrip | modules/persistency/vector_storage.py:44-46 | concatenating the windows over `range(0, len(s), width)` gives `s` back |
| Seqs.WindowSizes | modules/persistency/vector_storage.py:44-46 | every window is non-empty and at most `width` long, and all but the last are exactly `width` long |
| Seqs.FlattenMapInside | modules/persistency/vector_storage.py:55 | flattening per-batch results of an element-wise map equals mapping over the flattened batches |
| Embeddings.EmbedAll | modules/persistency/vector_storage.py:21-29 | one embedding per input text, in order: embedding `k` is the model's embedding of text `k` |
| Embeddings.Call | modules/persistency/vector_storage.py:21-29 | `__call__` returns exactly `EmbedAll` of its input under its model name |
| Embeddings.Batches | modules/persistency/vector_storage.py:44-46 | batching raises `ValueError` exactly for a zero batch size, gives no batch for a negative one, and for a positive one gives no batch exactly when there are no documents |
| Embeddings.BatchesRoundTrip | modules/persistency/vector_storage.py:44-46 | the batches put back together are the documents |
| Embeddings.BatchSizes | modules/persistency/vector_storage.py:44-46 | every batch is non-empty and at most `batch_size` long, and all but the last are exactly `batch_size` long |
| Embeddings.ComputeEmbeddingsParallel | modules/persistency/vector_storage.py:40-58 | raises `ValueError` exactly for a zero batch size and returns nothing for a negative one |
| Embeddings.EmbeddingsCount | modules/persistency/vector_storage.py:53-55 | with one embedding per input, there are as many embeddings as documents |
| Embeddings.EmbeddingsInOrder | modules/persistency/vector_storage.py:50-55 | with `OllamaEmbeddingFunction`, embedding `k` of the result is the embedding of document `k` |
| Chunks.DigitChar | modules/persistency/vector_storage.py:127 | the character of a digit is a decimal digit with that value |
| Chunks.Decimal | modules/persistency/vector_storage.py:127 | the decimal text of a number is non-empty, all digits, and has no leading zero |
| Chunks.DecimalRoundTrip | modules/persistency/vector_storage.py:127 | reading back the decimal text of `n` gives `n` |
| Chunks.DecimalInjective | modules/persistency/vector_storage.py:127 | different numbers have different decimal texts |
| Chunks.ChunkId | modules/persistency/vector_storage.py:127 | the id starts with `doc_` and is 11 characters longer than the decimal texts of the two numbers together |
| Chunks.ChunkIdLayout | modules/persistency/vector_storage.py:127 | `doc_{i}_chunk_{j}` has `str(i)` right after `doc_`, followed by a non-digit, and ends with `str(j)` |
| Chunks.ChunkIdInjective | modules/persistency/vector_storage.py:127 | two chunk ids are equal only for the same document and chunk number |
| Chunks.Pieces | modules/persistency/vector_storage.py:116-127 | every piece is chunk `chunk_index` of document `doc_id` and carries that document's url as `source` |
| Chunks.PiecesGrouped | modules/persistency/vector_storage.py:116-121 | the chunk list is the documents' chunks concatenated in document order, with the splitter's order kept within each document |
| Chunks.PiecesAscending | modules/persistency/vector_storage.py:116-127 | pieces come in strictly increasing (document, chunk) order |
| Chunks.IdsDistinct | modules/persistency/vector_storage.py:116-127 | the ids are pairwise distinct |
| Chunks.SplitIntoChunks | modules/persistency/vector_storage.py:103-130 | the three returned lists hold, position by position, the chunk, the metadata and the id of every piece |
| VectorStore.Collection.Add | modules/persistency/vector_storage.py:146-151 | an `add` call is appended to the collection's log |
| VectorStore.WindowCall | modules/persistency/vector_storage.py:138-151 | a window call holds at most `batch_size` documents, and at least one when its start lies inside the list and the batch size is positive |
| VectorStore.WindowCallAligned | modules/persistency/vector_storage.py:138-150 | one window cuts all four lists with the same bounds `[start, min(start + batch_size, total))` |
| VectorStore.Calls | modules/persistency/vector_storage.py:137-151 | there are no calls for a non-positive batch size, and one window call per start of `range(0, total, batch_size)` otherwise |
| VectorStore.AddWindows | modules/persistency/vector_storage.py:137-151 | the loop appends one `add` call per start, in order, and nothing else |
| VectorStore.BatchAdd | modules/persistency/vector_storage.py:133-154 | raises `ValueError` exactly for a zero batch size, and the collection receives exactly the window calls |
| VectorStore.NoCallsWhenEmpty | modules/persistency/vector_storage.py:137 | no `add` call is made for empty input or a non-positive batch size |
| VectorStore.CallsAligned | modules/persistency/vector_storage.py:138-150 | every window is non-empty, at most `batch_size` long, all but the last exactly `batch_size` long, and each call's four lists have one same length |
| VectorStore.CallsPartition | modules/persistency/vector_storage.py:137-150 | the windows cover every index exactly once and in order: the calls' documents, metadatas, ids and embeddings, put back together, are the four input lists |
| VectorStore.PopulateCalls | modules/persistency/vector_storage.py:157-165 | every `add` call `populate_collection` makes holds between 1 and 200 documents, with as many metadatas, ids and embeddings |
| VectorStore.PopulateCollection | modules/persistency/vector_storage.py:157-165 | the collection receives exactly the calls built from the split, embedded and windowed chunks |
| VectorStore.PopulateStoresEveryChunk | modules/persistency/vector_storage.py:157-165 | every chunk of every page is stored exactly once, in order, with its own metadata, a distinct id and its own embedding |

## Left out

- The network fetch and HTML parsing (`extract_text_and_links`, `worker`, and `requests` with BeautifulSoup) are left out. The fetcher is a function parameter. A failed fetch is simply a page with no links, a case the lemma `CrawlNoLinks` covers.
- `multiprocessing.Manager` and `Pool` are left out. The model is sequential, and `pool.map` is an ordered map. The shared `Manager` proxies become plain local state.
- The `visited` dict (`visited[url] = True`) is modelled as a set of URLs, because only its keys are ever read.
- `.worker.worker` and `utils.normalize_link` are not part of this model. The worker is taken to return the fetcher's tuple, and `normalize_link` is taken to be the definition in `src/modules/process_manager/master.py`.
- `ScrapperLinear.RecursiveScrape` takes `depth` as a natural number. With a negative `depth`, the guard `depth == 0` in `recursive_scrape` never fires, and the recursion is bounded only by the visited set.
- `ScrapperLinear.RecursiveScrape` passes `results` and `visited` in and returns their new values. The Python function instead mutates the caller's list and set in place. The model does not capture aliasing between the caller's two objects.
- Ollama (`ollama.embeddings`, `ollama.generate`), ChromaDB (`chromadb.Client`, `create_collection`, `collection.query`) and `RecursiveCharacterTextSplitter` are abstracted:
  - the embedding model and the splitter are function parameters;
  - the collection is a log of `add` calls.
- `RecursiveCharacterTextSplitter` raises when the overlap exceeds the chunk size. The splitter is abstract here, so that error is not modelled.
- `Chunks.SplitIntoChunks` builds a `Metadata` record with `docId` and `chunkIndex` as naturals. Python's `enumerate` only yields such values, so nothing is lost.
- `compute_embeddings_parallel` and `batch_add` take any integer batch size. Non-integer batch sizes (which make `range` raise `TypeError`) are not modelled.
- The `processes` argument and the default batch sizes are left out: the default is 50 in `src/modules/process_manager/master.py:28` and 30 in `modules/persistency/vector_storage.py:40`. The model takes the batch size as an argument. `populate_collection` passes 30 and 200 explicitly, and `VectorStore.PopulateCollection` uses those values.
- The following are not part of this model, being I/O, UI or foreign calls:
  - `get_prompt`, `get_ollama_response`, `process_query`, `process_all_queries`, `get_questions`, `get_mock_data`, `initialize_chromadb`, `create_collection` and `main` in `modules/persistency/vector_storage.py`;
  - the text store, the Streamlit UI, the process glue, the tester and the logger.
- Logging and timing calls are left out; they do not affect any returned value.
- `Master.StartScraping` and `ScrappingMulti.StartScraping` do not return `visited`. The relation `len(results) == len(visited)` is stated through the reference crawl instead: `CrawlResultsUnique` gives as many results as fetched URLs, and the invariant `CrawlProperties.InvShape` of the reference crawl keeps `visited` equal to the set of fetched URLs, and both methods are proved to compute that crawl.
