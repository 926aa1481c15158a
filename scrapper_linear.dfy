/** `recursive_scrape`, the depth-first predecessor of the level-by-level crawl: it marks
    a URL visited, records its page, then recurses into every on-site, unvisited link with
    one less unit of depth. The caller's `results` list and `visited` set are threaded
    through as values. */
module ScrapperLinear {
  import opened Seqs
  import opened Links
  import opened Frontier

  /** What `extract_text_and_links` answers: the page text and its raw links (a failure
      gives `("", [])`). */
  datatype Extracted = Extracted(text: string, links: seq<string>)

  type Extractor = string -> Extracted

  /** The result dict recorded for `url`. */
  function Entry(extract: Extractor, url: string): Page
  {
    Page(url, extract(url).text, extract(url).links)
  }

  function UrlsOfPages(ps: seq<Page>): set<string>
  {
    set p | p in ps :: p.url
  }

  /** Entry `k` of `added` was reached by following a link of an earlier entry, one hop
      further from the start URL. */
  ghost predicate ChildOf(baseUrl: string, added: seq<Page>, hops: seq<nat>, k: int)
    requires 0 <= k < |added| == |hops|
  {
    exists j :: 0 <= j < k && hops[k] == hops[j] + 1 && LinkedFrom(added[j].links, added[k].url, baseUrl)
  }

  /** Every appended entry is the page of its URL. */
  predicate Recorded(extract: Extractor, added: seq<Page>)
  {
    forall k :: 0 <= k < |added| ==> added[k] == Entry(extract, added[k].url)
  }

  /** No appended URL was visited before the call, and each lies fewer than `depth` hops
      from the start URL. */
  predicate Fresh(visited: set<string>, depth: nat, added: seq<Page>, hops: seq<nat>)
    requires |hops| == |added|
  {
    forall k :: 0 <= k < |added| ==> added[k].url !in visited && hops[k] < depth
  }

  predicate DistinctPages(added: seq<Page>)
  {
    forall i, j :: 0 <= i < j < |added| ==> added[i].url != added[j].url
  }

  /** Every entry after the first is on-site and was reached from an entry before it. */
  ghost predicate Reached(baseUrl: string, added: seq<Page>, hops: seq<nat>)
    requires |hops| == |added|
  {
    forall k :: 0 < k < |added| ==> StartsWith(added[k].url, baseUrl) && ChildOf(baseUrl, added, hops, k)
  }

  /** The entries one call of `recursive_scrape(url, depth, ...)` appends, with each entry's
      distance in hops from `url`: the first is `url` itself; every entry is the page of its
      URL; no URL was visited before the call or appears twice; every entry lies fewer than
      `depth` hops away; every later entry is on-site and was reached from an entry before
      it (depth-first preorder). */
  ghost predicate Grown(extract: Extractor, baseUrl: string, url: string, depth: nat,
                        visited: set<string>, added: seq<Page>, hops: seq<nat>)
  {
    && |hops| == |added|
    && (|added| > 0 ==> added[0].url == url && hops[0] == 0)
    && Recorded(extract, added)
    && Fresh(visited, depth, added, hops)
    && DistinctPages(added)
    && Reached(baseUrl, added, hops)
  }

  function Shift(hops: seq<nat>): (r: seq<nat>)
    ensures |r| == |hops| && forall k :: 0 <= k < |hops| ==> r[k] == hops[k] + 1
  {
    seq(|hops|, k requires 0 <= k < |hops| => hops[k] + 1)
  }

  lemma UrlsOfPagesAppend(a: seq<Page>, b: seq<Page>)
    ensures UrlsOfPages(a + b) == UrlsOfPages(a) + UrlsOfPages(b)
  {
    assert forall p :: p in a + b <==> p in a || p in b;
  }

  /** The start page alone is a valid beginning of the appended entries. */
  lemma GrownStart(extract: Extractor, baseUrl: string, url: string, depth: nat, visited: set<string>)
    requires depth > 0 && url !in visited
    ensures Grown(extract, baseUrl, url, depth, visited, [Entry(extract, url)], [0])
  {
  }

  lemma RecordedAppend(extract: Extractor, a: seq<Page>, b: seq<Page>)
    requires Recorded(extract, a) && Recorded(extract, b)
    ensures Recorded(extract, a + b)
  {
    forall k | |a| <= k < |a + b| ensures (a + b)[k] == Entry(extract, (a + b)[k].url) {
      assert (a + b)[k] == b[k - |a|];
    }
  }

  lemma FreshAppend(visited: set<string>, depth: nat, a: seq<Page>, hops: seq<nat>, b: seq<Page>, bHops: seq<nat>)
    requires depth > 0 && |hops| == |a| && |bHops| == |b|
    requires Fresh(visited, depth, a, hops)
    requires Fresh(visited + UrlsOfPages(a), depth - 1, b, bHops)
    ensures Fresh(visited, depth, a + b, hops + Shift(bHops))
  {
    forall k | |a| <= k < |a + b| ensures (a + b)[k].url !in visited && (hops + Shift(bHops))[k] < depth {
      assert (a + b)[k] == b[k - |a|];
    }
  }

  lemma DistinctAppend(visited: set<string>, depth: nat, a: seq<Page>, b: seq<Page>, bHops: seq<nat>)
    requires |bHops| == |b|
    requires DistinctPages(a) && DistinctPages(b)
    requires Fresh(visited + UrlsOfPages(a), depth, b, bHops)
    ensures DistinctPages(a + b)
  {
    var all, n := a + b, |a|;
    forall i, j | 0 <= i < j < |all| ensures all[i].url != all[j].url {
      if i < n && j >= n {
        assert all[i] in a;
        assert all[j] == b[j - n];
      } else if i >= n {
        assert all[i] == b[i - n] && all[j] == b[j - n];
      }
    }
  }

  lemma ReachedAppend(baseUrl: string, a: seq<Page>, hops: seq<nat>, child: string, b: seq<Page>, bHops: seq<nat>)
    requires |hops| == |a| > 0 && |bHops| == |b| && hops[0] == 0
    requires Reached(baseUrl, a, hops) && Reached(baseUrl, b, bHops)
    requires StartsWith(child, baseUrl) && LinkedFrom(a[0].links, child, baseUrl)
    requires |b| > 0 ==> b[0].url == child && bHops[0] == 0
    ensures Reached(baseUrl, a + b, hops + Shift(bHops))
  {
    var all, allHops, n := a + b, hops + Shift(bHops), |a|;
    forall k | 0 < k < |all| ensures StartsWith(all[k].url, baseUrl) && ChildOf(baseUrl, all, allHops, k) {
      if k < n {
        assert ChildOf(baseUrl, a, hops, k);
        var j :| 0 <= j < k && hops[k] == hops[j] + 1 && LinkedFrom(a[j].links, a[k].url, baseUrl);
        assert all[j] == a[j] && all[k] == a[k] && allHops[j] == hops[j] && allHops[k] == hops[k];
      } else if k == n {
        assert all[k] == b[0] && allHops[k] == 1 && allHops[0] == 0 && all[0] == a[0];
      } else {
        assert all[k] == b[k - n] && allHops[k] == bHops[k - n] + 1;
        assert ChildOf(baseUrl, b, bHops, k - n);
        var j :| 0 <= j < k - n && bHops[k - n] == bHops[j] + 1 && LinkedFrom(b[j].links, b[k - n].url, baseUrl);
        assert all[n + j] == b[j] && allHops[n + j] == bHops[j] + 1;
      }
    }
  }

  /** Appending what a recursive call on a link of the start page added keeps `Grown`. */
  lemma GrownChild(extract: Extractor, baseUrl: string, url: string, depth: nat, visited: set<string>,
                   added: seq<Page>, hops: seq<nat>, child: string, more: seq<Page>, moreHops: seq<nat>)
    requires depth > 0
    requires Grown(extract, baseUrl, url, depth, visited, added, hops) && |added| > 0
    requires StartsWith(child, baseUrl) && LinkedFrom(added[0].links, child, baseUrl)
    requires Grown(extract, baseUrl, child, depth - 1, visited + UrlsOfPages(added), more, moreHops)
    ensures Grown(extract, baseUrl, url, depth, visited, added + more, hops + Shift(moreHops))
  {
    RecordedAppend(extract, added, more);
    FreshAppend(visited, depth, added, hops, more, moreHops);
    DistinctAppend(visited, depth - 1, added, more, moreHops);
    ReachedAppend(baseUrl, added, hops, child, more, moreHops);
  }

  /** The loop of `recursive_scrape` after one recursive call on the link `child` of the
      start page: the call's entries extend the ones before it. */
  lemma ChildStep(extract: Extractor, baseUrl: string, url: string, depth: nat, visited: set<string>,
                  results: seq<Page>, cur: seq<Page>, hops: seq<nat>,
                  child: string, r: seq<Page>, v: set<string>, h: seq<nat>)
    requires depth > 0
    requires |results| < |cur| && cur[..|results|] == results && cur[|results|] == Entry(extract, url)
    requires Grown(extract, baseUrl, url, depth, visited, cur[|results|..], hops)
    requires StartsWith(child, baseUrl) && LinkedFrom(extract(url).links, child, baseUrl)
    requires |cur| <= |r| && r[..|cur|] == cur
    requires Grown(extract, baseUrl, child, depth - 1, visited + UrlsOfPages(cur[|results|..]), r[|cur|..], h)
    requires v == visited + UrlsOfPages(cur[|results|..]) + UrlsOfPages(r[|cur|..])
    ensures |results| < |r| && r[..|results|] == results && r[|results|] == Entry(extract, url)
    ensures Grown(extract, baseUrl, url, depth, visited, r[|results|..], hops + Shift(h))
    ensures v == visited + UrlsOfPages(r[|results|..])
  {
    var added, more := cur[|results|..], r[|cur|..];
    assert r == cur + more;
    assert r[|results|..] == added + more;
    assert added[0] == Entry(extract, url);
    GrownChild(extract, baseUrl, url, depth, visited, added, hops, child, more, h);
    UrlsOfPagesAppend(added, more);
  }

  /** `recursive_scrape(url, depth, base, results, visited)`. */
  method RecursiveScrape(extract: Extractor, url: string, depth: nat, baseUrl: string,
                         results: seq<Page>, visited: set<string>)
    returns (results': seq<Page>, visited': set<string>, ghost hops: seq<nat>)
    ensures |results| <= |results'| && results'[..|results|] == results
    ensures Grown(extract, baseUrl, url, depth, visited, results'[|results|..], hops)
    ensures visited' == visited + UrlsOfPages(results'[|results|..])
    ensures depth == 0 || url in visited ==> results' == results && visited' == visited
    ensures depth > 0 && url !in visited ==> |results'| > |results| && results'[|results|] == Entry(extract, url)
    ensures extract(url).links == [] ==> |results'| <= |results| + 1
    decreases depth
  {
    if depth == 0 || url in visited {
      assert results[|results|..] == [];
      return results, visited, [];
    }
    visited' := visited + {url};
    var fetched := extract(url);
    results' := results + [Page(url, fetched.text, fetched.links)];
    hops := [0];
    GrownStart(extract, baseUrl, url, depth, visited);
    assert results'[|results|..] == [Entry(extract, url)];
    var i := 0;
    while i < |fetched.links|
      invariant 0 <= i <= |fetched.links|
      invariant |results| < |results'| && results'[..|results|] == results
      invariant results'[|results|] == Entry(extract, url)
      invariant i == 0 ==> |results'| == |results| + 1
      invariant Grown(extract, baseUrl, url, depth, visited, results'[|results|..], hops)
      invariant visited' == visited + UrlsOfPages(results'[|results|..])
    {
      var link := fetched.links[i];
      var fullLink := if StartsWith(link, "/") then baseUrl + link else link;
      if StartsWith(fullLink, baseUrl) && fullLink !in visited' {
        assert LinkedFrom(fetched.links, fullLink, baseUrl) by {
          assert NormalizeLink(fetched.links[i], baseUrl) == fullLink;
        }
        var r, v, h := RecursiveScrape(extract, fullLink, depth - 1, baseUrl, results', visited');
        ChildStep(extract, baseUrl, url, depth, visited, results, results', hops, fullLink, r, v, h);
        results', visited', hops := r, v, hops + Shift(h);
      }
      i := i + 1;
    }
  }
}
