/** `start_scraping` as the process manager runs it: a `while to_visit` loop that filters
    the frontier into a batch, fetches the batch, records one result per page and queues
    the next level. Each method is proved to compute the reference definitions of module
    Frontier, so the lemmas of module CrawlProperties describe what it returns. */
module Master {
  import opened Seqs
  import opened Links
  import opened Frontier

  /** The filter loop over `list(to_visit)`: skip visited URLs and tasks deeper than
      `maxDepth`, mark every kept URL visited before it is fetched. */
  method SelectBatch(toVisit: seq<Task>, visited: set<string>, maxDepth: int)
    returns (batch: seq<Task>, visited': set<string>)
    ensures batch == Select(toVisit, visited, maxDepth).0
    ensures visited' == Select(toVisit, visited, maxDepth).1
  {
    batch, visited' := [], visited;
    var i := 0;
    while i < |toVisit|
      invariant 0 <= i <= |toVisit|
      invariant batch == Select(toVisit[..i], visited, maxDepth).0
      invariant visited' == Select(toVisit[..i], visited, maxDepth).1
    {
      SelectSnoc(toVisit, visited, maxDepth, i);
      var t := toVisit[i];
      if !(t.url in visited' || t.depth > maxDepth) {
        visited' := visited' + {t.url};
        batch := batch + [t];
      }
      i := i + 1;
    }
    assert toVisit[..|toVisit|] == toVisit;
  }

  /** The `for link in links` loop for one page fetched at `depth`: normalise, keep on-site
      links that are not visited yet, one level below. */
  method QueueLinks(links: seq<string>, baseUrl: string, visited: set<string>, depth: int, next: seq<Task>)
    returns (next': seq<Task>)
    ensures next' == next + Queue(links, baseUrl, visited, depth + 1)
  {
    next' := next;
    var j := 0;
    while j < |links|
      invariant 0 <= j <= |links|
      invariant next' == next + Queue(links[..j], baseUrl, visited, depth + 1)
    {
      QueueExtend(next, links, baseUrl, visited, depth + 1, j);
      var fullLink := NormalizeLink(links[j], baseUrl);
      if StartsWith(fullLink, baseUrl) && fullLink !in visited {
        next' := next' + [Task(fullLink, depth + 1)];
      }
      j := j + 1;
    }
    assert links[..|links|] == links;
  }

  /** The zip loop over the batch and the ordered `pool.map` output: append each page to
      `results` and queue its links at the fetching task's depth plus one. */
  method CollectRound(batch: seq<Task>, output: seq<Page>, baseUrl: string, visited: set<string>,
                      results: seq<Page>)
    returns (results': seq<Page>, nextRound: seq<Task>)
    requires |output| == |batch|
    ensures results' == results + output
    ensures nextRound == NextRound(batch, output, baseUrl, visited)
  {
    results', nextRound := results, [];
    var k := 0;
    while k < |batch|
      invariant 0 <= k <= |batch|
      invariant results' == results + output[..k]
      invariant nextRound == NextRound(batch[..k], output[..k], baseUrl, visited)
    {
      results' := results' + [output[k]];
      nextRound := QueueLinks(output[k].links, baseUrl, visited, batch[k].depth, nextRound);
      assert results' == results + output[..k + 1] by {
        TakeSnoc(output, k);
      }
      assert nextRound == NextRound(batch[..k + 1], output[..k + 1], baseUrl, visited) by {
        NextRoundSnoc(batch, output, baseUrl, visited, k);
      }
      k := k + 1;
    }
    assert batch[..|batch|] == batch && output[..|output|] == output;
  }

  /** `start_scraping(base_url, max_depth, function)`: the crawl from `[(base_url, 0)]`.
      It returns exactly the reference crawl's results, and its loop runs exactly as many
      rounds as the reference counts. */
  method StartScraping(fetch: Fetcher, baseUrl: string, maxDepth: int)
    returns (results: seq<Page>, ghost rounds: nat)
    ensures results == CrawlResults(fetch, baseUrl, maxDepth)
    ensures rounds == Crawl(fetch, baseUrl, maxDepth).rounds
  {
    var visited: set<string> := {};
    results := [];
    var toVisit := [Task(baseUrl, 0)];
    ghost var log: seq<Task> := [];
    ghost var level: nat := 0;
    rounds := 0;
    while toVisit != []
      invariant AtLevel(toVisit, level)
      invariant Run(fetch, baseUrl, maxDepth, visited, toVisit, log, level) == Crawl(fetch, baseUrl, maxDepth)
      invariant results == Fetched(fetch, log)
      invariant rounds == level
      decreases maxDepth + 1 - level
    {
      ghost var frontier, before := toVisit, visited;
      var batch, seen := SelectBatch(toVisit, visited, maxDepth);
      visited := seen;
      toVisit := [];
      rounds := rounds + 1;
      if batch == [] {
        RunStops(fetch, baseUrl, maxDepth, before, frontier, log, level);
        break;
      }
      assert batch[0] in batch;
      var output := Fetched(fetch, batch);
      var nextRound;
      results, nextRound := CollectRound(batch, output, baseUrl, visited, results);
      assert toVisit + nextRound == nextRound;
      toVisit := toVisit + nextRound;
      RunStep(fetch, baseUrl, maxDepth, before, frontier, log, level, batch, seen);
      FetchedAppend(fetch, log, batch);
      log := log + batch;
      level := level + 1;
    }
  }
}
