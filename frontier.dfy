/** The reference definition of the site-scoped, level-by-level crawl: what one round
    of `start_scraping` does to the visited set, the frontier (`to_visit`) and the
    results, and the whole crawl as the repetition of rounds. The imperative loops in
    modules Master and ScrappingMulti are proved to compute exactly this. */
module Frontier {
  import opened Seqs
  import opened Links

  /** An entry of `to_visit`: a URL and the depth it was discovered at. */
  datatype Task = Task(url: string, depth: int)

  /** The worker's answer for one URL, `(url, text, links)`, stored as one result dict. */
  datatype Page = Page(url: string, text: string, links: seq<string>)

  /** The page fetcher (HTTP GET plus HTML parsing) as an uninterpreted function. */
  type Fetcher = string -> Page

  /** What the whole crawl did: the tasks fetched, in order, and how many rounds of the
      `while` loop ran. */
  datatype Trace = Trace(dispatched: seq<Task>, rounds: nat)

  function UrlsOf(ts: seq<Task>): set<string>
  {
    set t | t in ts :: t.url
  }

  predicate DistinctUrls(ts: seq<Task>)
  {
    forall i, j :: 0 <= i < j < |ts| ==> ts[i].url != ts[j].url
  }

  /** Every task of `ts` sits at depth `level`. */
  predicate AtLevel(ts: seq<Task>, level: int)
  {
    forall t :: t in ts ==> t.depth == level
  }

  lemma AtLevelIndex(ts: seq<Task>, k: nat, level: int)
    requires k < |ts| && AtLevel(ts, level)
    ensures ts[k].depth == level
  {
    assert ts[k] in ts;
  }

  /** Some link of `links` normalises to `url`. */
  predicate LinkedFrom(links: seq<string>, url: string, baseUrl: string)
  {
    exists i :: 0 <= i < |links| && NormalizeLink(links[i], baseUrl) == url
  }

  /** The filter loop of a round: walk `to_visit` in order, skip entries that are already
      visited or deeper than `maxDepth`, and mark every kept URL visited at once. Returns
      the batch and the new visited set. */
  function Select(toVisit: seq<Task>, visited: set<string>, maxDepth: int): (r: (seq<Task>, set<string>))
    ensures r.1 == visited + UrlsOf(r.0)
    ensures forall t :: t in r.0 ==> t in toVisit && t.depth <= maxDepth && t.url !in visited
    ensures DistinctUrls(r.0)
    ensures forall t :: t in toVisit && t.depth <= maxDepth ==> t.url in r.1
    decreases |toVisit|
  {
    if toVisit == [] then ([], visited)
    else
      var n := |toVisit| - 1;
      var prev := Select(toVisit[..n], visited, maxDepth);
      var t := toVisit[n];
      assert forall u :: u in toVisit ==> u in toVisit[..n] || u == t;
      if t.url in prev.1 || t.depth > maxDepth then prev
      else (prev.0 + [t], prev.1 + {t.url})
  }

  /** The batch of a round lies on the round's level. */
  lemma BatchAtLevel(toVisit: seq<Task>, visited: set<string>, maxDepth: int, level: int)
    requires AtLevel(toVisit, level)
    ensures AtLevel(Select(toVisit, visited, maxDepth).0, level)
  {
  }

  /** The inner link loop for one fetched page: normalise each link and queue it at
      `depth` when it stays on-site and is not yet visited. */
  function Queue(links: seq<string>, baseUrl: string, visited: set<string>, depth: int): (queued: seq<Task>)
    ensures |queued| <= |links|
    decreases |links|
  {
    if links == [] then []
    else
      var n := |links| - 1;
      var full := NormalizeLink(links[n], baseUrl);
      Queue(links[..n], baseUrl, visited, depth)
      + (if StartsWith(full, baseUrl) && full !in visited then [Task(full, depth)] else [])
  }

  /** Everything queued for a page is on-site, unvisited, at `depth`, and the normalised
      form of one of the page's links. */
  lemma {:induction false} QueueSound(links: seq<string>, baseUrl: string, visited: set<string>, depth: int, t: Task)
    requires t in Queue(links, baseUrl, visited, depth)
    ensures t.depth == depth && StartsWith(t.url, baseUrl) && t.url !in visited && LinkedFrom(links, t.url, baseUrl)
    decreases |links|
  {
    var n := |links| - 1;
    var prefix := links[..n];
    if t in Queue(prefix, baseUrl, visited, depth) {
      QueueSound(prefix, baseUrl, visited, depth, t);
      var i :| 0 <= i < n && NormalizeLink(prefix[i], baseUrl) == t.url;
      assert prefix[i] == links[i];
    } else {
      assert NormalizeLink(links[n], baseUrl) == t.url;
    }
  }

  /** Every on-site link not yet visited is queued. */
  lemma {:induction false} QueueComplete(links: seq<string>, baseUrl: string, visited: set<string>, depth: int, i: int)
    requires 0 <= i < |links| && OnSite(links[i], baseUrl) && NormalizeLink(links[i], baseUrl) !in visited
    ensures Task(NormalizeLink(links[i], baseUrl), depth) in Queue(links, baseUrl, visited, depth)
    decreases |links|
  {
    var n := |links| - 1;
    if i < n {
      assert links[..n][i] == links[i];
      QueueComplete(links[..n], baseUrl, visited, depth, i);
    }
  }

  /** The per-result loop of a round: the batch is zipped with the fetched pages and each
      page's links are queued one level below the task that fetched it. */
  function NextRound(batch: seq<Task>, pages: seq<Page>, baseUrl: string, visited: set<string>): (next: seq<Task>)
    requires |pages| == |batch|
    decreases |batch|
  {
    if batch == [] then []
    else
      var n := |batch| - 1;
      NextRound(batch[..n], pages[..n], baseUrl, visited) + Queue(pages[n].links, baseUrl, visited, batch[n].depth + 1)
  }

  /** Everything a round queues comes from one page of the batch: it is on-site, was not
      visited when queued, sits one level below the task that fetched that page, and is
      the normalised form of one of that page's links. */
  lemma {:induction false} NextRoundSound(batch: seq<Task>, pages: seq<Page>, baseUrl: string, visited: set<string>, t: Task)
    requires |pages| == |batch|
    requires t in NextRound(batch, pages, baseUrl, visited)
    ensures exists k :: 0 <= k < |batch| && t.depth == batch[k].depth + 1 && StartsWith(t.url, baseUrl)
                        && t.url !in visited && LinkedFrom(pages[k].links, t.url, baseUrl)
    decreases |batch|
  {
    var n := |batch| - 1;
    if t in NextRound(batch[..n], pages[..n], baseUrl, visited) {
      NextRoundSound(batch[..n], pages[..n], baseUrl, visited, t);
      var k :| 0 <= k < n && t.depth == batch[..n][k].depth + 1 && StartsWith(t.url, baseUrl)
               && t.url !in visited && LinkedFrom(pages[..n][k].links, t.url, baseUrl);
      assert batch[..n][k] == batch[k] && pages[..n][k] == pages[k];
    } else {
      QueueSound(pages[n].links, baseUrl, visited, batch[n].depth + 1, t);
    }
  }

  /** The last page's links come last in the round. */
  lemma NextRoundLast(batch: seq<Task>, pages: seq<Page>, baseUrl: string, visited: set<string>)
    requires |pages| == |batch| > 0
    ensures var n := |batch| - 1;
            NextRound(batch, pages, baseUrl, visited)
            == NextRound(batch[..n], pages[..n], baseUrl, visited) + Queue(pages[n].links, baseUrl, visited, batch[n].depth + 1)
  {
  }

  /** Whatever one page of the batch queues is part of the round. */
  lemma {:induction false} NextRoundHas(batch: seq<Task>, pages: seq<Page>, baseUrl: string, visited: set<string>, k: int, t: Task)
    requires |pages| == |batch| && 0 <= k < |batch|
    requires t in Queue(pages[k].links, baseUrl, visited, batch[k].depth + 1)
    ensures t in NextRound(batch, pages, baseUrl, visited)
    decreases |batch|
  {
    var n := |batch| - 1;
    NextRoundLast(batch, pages, baseUrl, visited);
    if k < n {
      assert batch[..n][k] == batch[k] && pages[..n][k] == pages[k];
      NextRoundHas(batch[..n], pages[..n], baseUrl, visited, k, t);
    }
  }

  /** Conversely, every on-site, unvisited link of every page of the batch is queued. */
  lemma NextRoundComplete(batch: seq<Task>, pages: seq<Page>, baseUrl: string, visited: set<string>, k: int, i: int)
    requires |pages| == |batch|
    requires 0 <= k < |batch| && 0 <= i < |pages[k].links|
    requires OnSite(pages[k].links[i], baseUrl) && NormalizeLink(pages[k].links[i], baseUrl) !in visited
    ensures Task(NormalizeLink(pages[k].links[i], baseUrl), batch[k].depth + 1) in NextRound(batch, pages, baseUrl, visited)
  {
    QueueComplete(pages[k].links, baseUrl, visited, batch[k].depth + 1, i);
    NextRoundHas(batch, pages, baseUrl, visited, k, Task(NormalizeLink(pages[k].links[i], baseUrl), batch[k].depth + 1));
  }



  /** `pool.map` of the fetcher over the batch: one page per task, in batch order. */
  function Fetched(fetch: Fetcher, batch: seq<Task>): (pages: seq<Page>)
    ensures |pages| == |batch|
    ensures forall i :: 0 <= i < |batch| ==> pages[i] == fetch(batch[i].url)
  {
    seq(|batch|, i requires 0 <= i < |batch| => fetch(batch[i].url))
  }

  /** Everything queued by a round whose batch lies on one level lies on the next. */
  lemma NextRoundAtLevel(batch: seq<Task>, pages: seq<Page>, baseUrl: string, visited: set<string>, level: int)
    requires |pages| == |batch|
    requires AtLevel(batch, level)
    ensures AtLevel(NextRound(batch, pages, baseUrl, visited), level + 1)
  {
    forall t | t in NextRound(batch, pages, baseUrl, visited) ensures t.depth == level + 1 {
      NextRoundSound(batch, pages, baseUrl, visited, t);
      var k :| 0 <= k < |batch| && t.depth == batch[k].depth + 1;
      AtLevelIndex(batch, k, level);
    }
  }

  /** The `while to_visit` loop from the state reached after `level` rounds. A round with
      an empty batch is still counted: it is the one that hits `break`. */
  function Run(fetch: Fetcher, baseUrl: string, maxDepth: int, visited: set<string>,
               toVisit: seq<Task>, log: seq<Task>, level: nat): (tr: Trace)
    requires AtLevel(toVisit, level)
    ensures StartsWith(tr.dispatched, log)
    ensures toVisit != [] ==> level < tr.rounds
    decreases maxDepth + 1 - level
  {
    if toVisit == [] then Trace(log, level)
    else
      var batch := Select(toVisit, visited, maxDepth).0;
      var seen := Select(toVisit, visited, maxDepth).1;
      if batch == [] then Trace(log, level + 1)
      else
        assert batch[0] in batch;
        var next := NextRound(batch, Fetched(fetch, batch), baseUrl, seen);
        NextRoundAtLevel(batch, Fetched(fetch, batch), baseUrl, seen, level);
        var rest := Run(fetch, baseUrl, maxDepth, seen, next, log + batch, level + 1);
        StartsWithShorter(rest.dispatched, log, batch);
        rest
  }

  /** One unfolding of `Run` for a round with a non-empty batch. */
  lemma RunStep(fetch: Fetcher, baseUrl: string, maxDepth: int, visited: set<string>,
                toVisit: seq<Task>, log: seq<Task>, level: nat, batch: seq<Task>, seen: set<string>)
    requires AtLevel(toVisit, level) && toVisit != []
    requires batch == Select(toVisit, visited, maxDepth).0 && seen == Select(toVisit, visited, maxDepth).1
    requires batch != []
    ensures AtLevel(NextRound(batch, Fetched(fetch, batch), baseUrl, seen), level + 1)
    ensures Run(fetch, baseUrl, maxDepth, visited, toVisit, log, level)
            == Run(fetch, baseUrl, maxDepth, seen, NextRound(batch, Fetched(fetch, batch), baseUrl, seen),
                   log + batch, level + 1)
  {
    assert batch[0] in batch;
    NextRoundAtLevel(batch, Fetched(fetch, batch), baseUrl, seen, level);
  }

  /** The loop stops: either `to_visit` is empty or the round's batch is. */
  lemma RunStops(fetch: Fetcher, baseUrl: string, maxDepth: int, visited: set<string>,
                 toVisit: seq<Task>, log: seq<Task>, level: nat)
    requires AtLevel(toVisit, level)
    requires toVisit == [] || Select(toVisit, visited, maxDepth).0 == []
    ensures Run(fetch, baseUrl, maxDepth, visited, toVisit, log, level)
            == Trace(log, if toVisit == [] then level else level + 1)
  {
  }

  /** One more step of the filter loop. */
  lemma SelectSnoc(toVisit: seq<Task>, visited: set<string>, maxDepth: int, i: int)
    requires 0 <= i < |toVisit|
    ensures var prev := Select(toVisit[..i], visited, maxDepth);
            var t := toVisit[i];
            Select(toVisit[..i + 1], visited, maxDepth)
            == if t.url in prev.1 || t.depth > maxDepth then prev else (prev.0 + [t], prev.1 + {t.url})
  {
    assert toVisit[..i + 1][..i] == toVisit[..i];
  }

  /** One more step of the link loop. */
  lemma QueueSnoc(links: seq<string>, baseUrl: string, visited: set<string>, depth: int, j: int)
    requires 0 <= j < |links|
    ensures var full := NormalizeLink(links[j], baseUrl);
            Queue(links[..j + 1], baseUrl, visited, depth)
            == Queue(links[..j], baseUrl, visited, depth)
               + (if StartsWith(full, baseUrl) && full !in visited then [Task(full, depth)] else [])
  {
    assert links[..j + 1][..j] == links[..j];
  }

  /** One more step of the link loop, appended to what was queued before it. */
  lemma QueueExtend(prefix: seq<Task>, links: seq<string>, baseUrl: string, visited: set<string>, depth: int, j: int)
    requires 0 <= j < |links|
    ensures var full := NormalizeLink(links[j], baseUrl);
            prefix + Queue(links[..j + 1], baseUrl, visited, depth)
            == if StartsWith(full, baseUrl) && full !in visited
               then prefix + Queue(links[..j], baseUrl, visited, depth) + [Task(full, depth)]
               else prefix + Queue(links[..j], baseUrl, visited, depth)
  {
    QueueSnoc(links, baseUrl, visited, depth, j);
  }

  /** One more step of the per-result loop. */
  lemma NextRoundSnoc(batch: seq<Task>, pages: seq<Page>, baseUrl: string, visited: set<string>, k: int)
    requires |pages| == |batch| && 0 <= k < |batch|
    ensures NextRound(batch[..k + 1], pages[..k + 1], baseUrl, visited)
            == NextRound(batch[..k], pages[..k], baseUrl, visited) + Queue(pages[k].links, baseUrl, visited, batch[k].depth + 1)
  {
    assert batch[..k + 1][..k] == batch[..k] && pages[..k + 1][..k] == pages[..k];
  }

  /** Fetching two lists one after the other is fetching their concatenation. */
  lemma FetchedAppend(fetch: Fetcher, a: seq<Task>, b: seq<Task>)
    ensures Fetched(fetch, a + b) == Fetched(fetch, a) + Fetched(fetch, b)
  {
  }

  /** `start_scraping(base_url, max_depth, ...)`: the crawl from `[(base_url, 0)]` with
      nothing visited. */
  function Crawl(fetch: Fetcher, baseUrl: string, maxDepth: int): (tr: Trace)
    ensures 1 <= tr.rounds
    ensures maxDepth < 0 ==> tr == Trace([], 1)
    ensures maxDepth >= 0 ==> |tr.dispatched| > 0 && tr.dispatched[0] == Task(baseUrl, 0)
  {
    assert [Task(baseUrl, 0)][..0] == [];
    Run(fetch, baseUrl, maxDepth, {}, [Task(baseUrl, 0)], [], 0)
  }

  /** The list `start_scraping` returns: one result per fetched task, in fetch order. */
  function CrawlResults(fetch: Fetcher, baseUrl: string, maxDepth: int): (results: seq<Page>)
    ensures |results| == |Crawl(fetch, baseUrl, maxDepth).dispatched|
    ensures maxDepth < 0 ==> results == []
    ensures maxDepth >= 0 ==> |results| > 0 && results[0] == fetch(baseUrl)
  {
    Fetched(fetch, Crawl(fetch, baseUrl, maxDepth).dispatched)
  }
}
