/** The multi-process `start_scraping` kept with the tests. It differs from module Master
    in two places: the batch holds only URLs, so the depth given to the next round's links
    is the loop variable `depth` left over from the filter loop, and links are normalised
    inline. Both are proved harmless: the method returns exactly the reference crawl. */
module ScrappingMulti {
  import opened Seqs
  import opened Links
  import opened Frontier

  /** The variable `depth` keeps the depth of the last entry of `to_visit` after the filter
      loop, whether that entry was kept or skipped; since a frontier lies on one level, that
      is the current level. */
  lemma LeftoverDepthIsLevel(toVisit: seq<Task>, level: int)
    requires toVisit != [] && AtLevel(toVisit, level)
    ensures toVisit[|toVisit| - 1].depth == level
  {
    assert toVisit[|toVisit| - 1] in toVisit;
  }

  /** The filter loop `for url, depth in list(to_visit)`. Besides the batch and the new
      visited set it returns the value the loop variable `depth` holds afterwards. */
  method FilterRound(toVisit: seq<Task>, visited: set<string>, maxDepth: int)
    returns (batch: seq<Task>, visited': set<string>, depth: int)
    requires toVisit != []
    ensures batch == Select(toVisit, visited, maxDepth).0
    ensures visited' == Select(toVisit, visited, maxDepth).1
    ensures depth == toVisit[|toVisit| - 1].depth
  {
    batch, visited' := [], visited;
    depth := toVisit[0].depth;
    var i := 0;
    while i < |toVisit|
      invariant 0 <= i <= |toVisit|
      invariant batch == Select(toVisit[..i], visited, maxDepth).0
      invariant visited' == Select(toVisit[..i], visited, maxDepth).1
      invariant depth == toVisit[if i == 0 then 0 else i - 1].depth
    {
      SelectSnoc(toVisit, visited, maxDepth, i);
      var url := toVisit[i].url;
      depth := toVisit[i].depth;
      if !(url in visited' || depth > maxDepth) {
        visited' := visited' + {url};
        batch := batch + [Task(url, depth)];
      }
      i := i + 1;
    }
    assert toVisit[..|toVisit|] == toVisit;
  }

  /** The loop `for link in links` with the normalisation written inline: on-site links
      not visited yet are queued at `depth + 1`. */
  method QueueLinks(links: seq<string>, baseUrl: string, visited: set<string>, depth: int, next: seq<Task>)
    returns (next': seq<Task>)
    ensures next' == next + Queue(links, baseUrl, visited, depth + 1)
  {
    next' := next;
    var j := 0;
    while j < |links|
      invariant 0 <= j <= |links|
      invariant next' == next + Queue(links[..j], baseUrl, visited, depth + 1)
    {
      var link := links[j];
      var fullLink := if StartsWith(link, "/") then baseUrl + link else link;
      assert fullLink == NormalizeLink(links[j], baseUrl);
      QueueExtend(next, links, baseUrl, visited, depth + 1, j);
      if StartsWith(fullLink, baseUrl) && fullLink !in visited {
        next' := next' + [Task(fullLink, depth + 1)];
      }
      j := j + 1;
    }
    assert links[..|links|] == links;
  }

  /** The loop `for url, text, links in output`: append each page to `results` and queue
      its links at the leftover `depth` plus one. The ghost `batch` holds the tasks the
      pages were fetched for; since they all sit at `depth`, the round queues exactly what
      the reference round queues one level below each fetching task. */
  method CollectRound(ghost batch: seq<Task>, output: seq<Page>, baseUrl: string, visited: set<string>,
                      depth: int, results: seq<Page>)
    returns (results': seq<Page>, nextRound: seq<Task>)
    requires |output| == |batch| && AtLevel(batch, depth)
    ensures results' == results + output
    ensures nextRound == NextRound(batch, output, baseUrl, visited)
  {
    results', nextRound := results, [];
    var k := 0;
    while k < |output|
      invariant 0 <= k <= |output|
      invariant results' == results + output[..k]
      invariant nextRound == NextRound(batch[..k], output[..k], baseUrl, visited)
    {
      results' := results' + [output[k]];
      ghost var queued := nextRound;
      nextRound := QueueLinks(output[k].links, baseUrl, visited, depth, nextRound);
      assert results' == results + output[..k + 1] by {
        TakeSnoc(output, k);
      }
      assert nextRound == NextRound(batch[..k + 1], output[..k + 1], baseUrl, visited) by {
        AtLevelIndex(batch, k, depth);
        assert nextRound == queued + Queue(output[k].links, baseUrl, visited, batch[k].depth + 1);
        NextRoundSnoc(batch, output, baseUrl, visited, k);
      }
      k := k + 1;
    }
    assert batch[..|batch|] == batch && output[..|output|] == output;
  }

  /** `start_scraping(base_url, max_depth)`: returns exactly the reference crawl's results
      and runs as many rounds as the reference counts. */
  method StartScraping(fetch: Fetcher, baseUrl: string, maxDepth: int)
    returns (results: seq<Page>, ghost rounds: nat)
    ensures results == CrawlResults(fetch, baseUrl, maxDepth)
    ensures rounds == Crawl(fetch, baseUrl, maxDepth).rounds
  {
    var visited: set<string> := {};
    results := [];
    var toVisit := [Task(baseUrl, 0)];
    ghost var log: seq<Task> := [];
    ghost var level: nat := 0;
    rounds := 0;
    while toVisit != []
      invariant AtLevel(toVisit, level)
      invariant Run(fetch, baseUrl, maxDepth, visited, toVisit, log, level) == Crawl(fetch, baseUrl, maxDepth)
      invariant results == Fetched(fetch, log)
      invariant rounds == level
      decreases maxDepth + 1 - level
    {
      ghost var frontier, before := toVisit, visited;
      var batch, seen, depth := FilterRound(toVisit, visited, maxDepth);
      visited := seen;
      toVisit := [];
      rounds := rounds + 1;
      if batch == [] {
        RunStops(fetch, baseUrl, maxDepth, before, frontier, log, level);
        break;
      }
      assert batch[0] in batch;
      var output := Fetched(fetch, batch);
      var nextRound;
      LeftoverDepthIsLevel(frontier, level);
      BatchAtLevel(frontier, before, maxDepth, level);
      results, nextRound := CollectRound(batch, output, baseUrl, visited, depth, results);
      assert toVisit + nextRound == nextRound;
      toVisit := toVisit + nextRound;
      RunStep(fetch, baseUrl, maxDepth, before, frontier, log, level, batch, seen);
      FetchedAppend(fetch, log, batch);
      log := log + batch;
      level := level + 1;
    }
  }
}
