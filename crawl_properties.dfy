/** What the level-by-level crawl guarantees, proved once about the reference definition
    `Frontier.Crawl`; every loop proved equal to it inherits these facts. */
module CrawlProperties {
  import opened Seqs
  import opened Links
  import opened Frontier

  /** Task `k` of the log was discovered from an earlier task one level up: one of that
      earlier page's links normalises to it. */
  ghost predicate HasParent(fetch: Fetcher, baseUrl: string, log: seq<Task>, k: int)
    requires 0 <= k < |log|
  {
    exists j :: 0 <= j < k && log[j].depth + 1 == log[k].depth
                && LinkedFrom(fetch(log[j].url).links, log[k].url, baseUrl)
  }

  /** Tasks appear level by level. */
  predicate LevelOrdered(log: seq<Task>)
  {
    forall i, j :: 0 <= i <= j < |log| ==> log[i].depth <= log[j].depth
  }

  /** Every on-site link found on the page of `task`, when `task` lies above `maxDepth`,
      has been marked visited or waits in `toVisit` one level down. */
  ghost predicate LinksHandled(fetch: Fetcher, baseUrl: string, maxDepth: int, task: Task,
                               visited: set<string>, toVisit: seq<Task>)
  {
    task.depth < maxDepth ==>
      forall i :: 0 <= i < |fetch(task.url).links| && OnSite(fetch(task.url).links[i], baseUrl)
                  ==> NormalizeLink(fetch(task.url).links[i], baseUrl) in visited
                      || Task(NormalizeLink(fetch(task.url).links[i], baseUrl), task.depth + 1) in toVisit
  }

  /** `LinksHandled` for every fetched task. */
  ghost predicate Closed(fetch: Fetcher, baseUrl: string, maxDepth: int, log: seq<Task>,
                         visited: set<string>, toVisit: seq<Task>)
  {
    forall k :: 0 <= k < |log| ==> LinksHandled(fetch, baseUrl, maxDepth, log[k], visited, toVisit)
  }

  /** Every fetched task other than the seed stays on-site and was discovered from an
      earlier fetched page one level up. */
  ghost predicate Discovered(fetch: Fetcher, baseUrl: string, log: seq<Task>)
  {
    forall k :: 0 < k < |log| ==> StartsWith(log[k].url, baseUrl) && HasParent(fetch, baseUrl, log, k)
  }

  /** Every waiting task is on-site and was found on a fetched page one level up. */
  ghost predicate Provenance(fetch: Fetcher, baseUrl: string, log: seq<Task>, toVisit: seq<Task>)
  {
    forall t :: t in toVisit ==>
      StartsWith(t.url, baseUrl)
      && exists j :: 0 <= j < |log| && log[j].depth + 1 == t.depth
                     && LinkedFrom(fetch(log[j].url).links, t.url, baseUrl)
  }

  /** Fetched tasks sit on the levels already processed and never below `maxDepth`. */
  predicate DepthsBelow(log: seq<Task>, level: int, maxDepth: int)
  {
    forall k :: 0 <= k < |log| ==> 0 <= log[k].depth < level && log[k].depth <= maxDepth
  }

  /** The bookkeeping part of the loop state at the top of round `level`: the frontier
      lies on one level, the visited set is the set of fetched URLs, no URL was fetched
      twice, depths grow with the fetch order and stay below `level` and `maxDepth`, and
      the seed came first. */
  ghost predicate InvShape(baseUrl: string, maxDepth: int, visited: set<string>,
                           toVisit: seq<Task>, log: seq<Task>, level: nat)
  {
    && AtLevel(toVisit, level)
    && visited == UrlsOf(log)
    && DistinctUrls(log)
    && DepthsBelow(log, level, maxDepth)
    && LevelOrdered(log)
    && (level == 0 ==> log == [] && toVisit == [Task(baseUrl, 0)])
    && (level > 0 ==> |log| > 0 && log[0] == Task(baseUrl, 0) && level <= maxDepth + 1)
  }

  /** The link part of the loop state: where fetched and waiting tasks came from, and
      that every link found so far has been dealt with. */
  ghost predicate InvLinks(fetch: Fetcher, baseUrl: string, maxDepth: int, visited: set<string>,
                           toVisit: seq<Task>, log: seq<Task>, level: nat)
  {
    && Discovered(fetch, baseUrl, log)
    && (level > 0 ==> Provenance(fetch, baseUrl, log, toVisit))
    && Closed(fetch, baseUrl, maxDepth, log, visited, toVisit)
  }

  /** The state of the `while to_visit` loop at the top of round `level`. */
  ghost predicate Inv(fetch: Fetcher, baseUrl: string, maxDepth: int, visited: set<string>,
                      toVisit: seq<Task>, log: seq<Task>, level: nat)
  {
    InvShape(baseUrl, maxDepth, visited, toVisit, log, level)
    && InvLinks(fetch, baseUrl, maxDepth, visited, toVisit, log, level)
  }

  /** What holds of a finished crawl. */
  ghost predicate Post(fetch: Fetcher, baseUrl: string, maxDepth: int, tr: Trace)
  {
    var d := tr.dispatched;
    && DistinctUrls(d)
    && (forall k :: 0 <= k < |d| ==> 0 <= d[k].depth <= maxDepth)
    && (maxDepth < 0 ==> d == [] && tr.rounds == 1)
    && (maxDepth >= 0 ==> |d| > 0 && d[0] == Task(baseUrl, 0) && 1 <= tr.rounds <= maxDepth + 2)
    && Discovered(fetch, baseUrl, d)
    && LevelOrdered(d)
    && Closed(fetch, baseUrl, maxDepth, d, UrlsOf(d), [])
  }

  /** The traces that satisfy `Post`, gathered into one set so that the inductive step
      carries `Post` as a single fact. */
  ghost function Finished(fetch: Fetcher, baseUrl: string, maxDepth: int): iset<Trace>
  {
    iset tr | Post(fetch, baseUrl, maxDepth, tr)
  }

  /** A state of the `while to_visit` loop: the visited set, the frontier, the tasks
      fetched so far and the level. */
  datatype State = State(visited: set<string>, toVisit: seq<Task>, log: seq<Task>, level: nat)

  /** The loop states that satisfy `Inv`, gathered into one set for the same reason; the
      two halves of `Inv` get a set each. */
  ghost function Consistent(fetch: Fetcher, baseUrl: string, maxDepth: int): iset<State>
  {
    iset s: State | Inv(fetch, baseUrl, maxDepth, s.visited, s.toVisit, s.log, s.level)
  }

  ghost function Shaped(baseUrl: string, maxDepth: int): iset<State>
  {
    iset s: State | InvShape(baseUrl, maxDepth, s.visited, s.toVisit, s.log, s.level)
  }

  ghost function Linked(fetch: Fetcher, baseUrl: string, maxDepth: int): iset<State>
  {
    iset s: State | InvLinks(fetch, baseUrl, maxDepth, s.visited, s.toVisit, s.log, s.level)
  }

  lemma Consistency(fetch: Fetcher, baseUrl: string, maxDepth: int, s: State)
    ensures s in Consistent(fetch, baseUrl, maxDepth) <==> Inv(fetch, baseUrl, maxDepth, s.visited, s.toVisit, s.log, s.level)
  {
  }

  lemma Shaping(baseUrl: string, maxDepth: int, s: State)
    ensures s in Shaped(baseUrl, maxDepth) <==> InvShape(baseUrl, maxDepth, s.visited, s.toVisit, s.log, s.level)
  {
  }

  lemma Linking(fetch: Fetcher, baseUrl: string, maxDepth: int, s: State)
    ensures s in Linked(fetch, baseUrl, maxDepth) <==> InvLinks(fetch, baseUrl, maxDepth, s.visited, s.toVisit, s.log, s.level)
  {
  }

  lemma Joined(fetch: Fetcher, baseUrl: string, maxDepth: int, s: State)
    ensures s in Consistent(fetch, baseUrl, maxDepth)
            <==> s in Shaped(baseUrl, maxDepth) && s in Linked(fetch, baseUrl, maxDepth)
  {
    Consistency(fetch, baseUrl, maxDepth, s);
    Shaping(baseUrl, maxDepth, s);
    Linking(fetch, baseUrl, maxDepth, s);
  }

  /** The loop states from which the loop goes on to finish with trace `tr`. */
  ghost function Leading(fetch: Fetcher, baseUrl: string, maxDepth: int, tr: Trace): iset<State>
  {
    iset s: State | AtLevel(s.toVisit, s.level) && tr == Run(fetch, baseUrl, maxDepth, s.visited, s.toVisit, s.log, s.level)
  }

  lemma Leads(fetch: Fetcher, baseUrl: string, maxDepth: int, s: State, tr: Trace)
    ensures s in Leading(fetch, baseUrl, maxDepth, tr)
            <==> AtLevel(s.toVisit, s.level) && tr == Run(fetch, baseUrl, maxDepth, s.visited, s.toVisit, s.log, s.level)
  {
  }

  /** The loop stops at the top of this round: `to_visit` is empty, or nothing in it is
      kept and the round hits `break`. */
  predicate Stops(toVisit: seq<Task>, visited: set<string>, maxDepth: int)
  {
    toVisit == [] || Select(toVisit, visited, maxDepth).0 == []
  }

  /** The state at the top of the next round, after the batch of this one is fetched. */
  ghost function After(fetch: Fetcher, baseUrl: string, maxDepth: int, s: State): State
  {
    var batch, seen := Select(s.toVisit, s.visited, maxDepth).0, Select(s.toVisit, s.visited, maxDepth).1;
    State(seen, NextRound(batch, Fetched(fetch, batch), baseUrl, seen), s.log + batch, s.level + 1)
  }

  lemma UrlsOfAppend(a: seq<Task>, b: seq<Task>)
    ensures UrlsOf(a + b) == UrlsOf(a) + UrlsOf(b)
  {
    assert forall t :: t in a + b <==> t in a || t in b;
  }

  lemma UrlsOfIndex(a: seq<Task>, k: int)
    requires 0 <= k < |a|
    ensures a[k].url in UrlsOf(a)
  {
    assert a[k] in a;
  }

  /** The initial state `visited = {}`, `to_visit = [(base_url, 0)]`, `results = []`. */
  lemma InitInv(fetch: Fetcher, baseUrl: string, maxDepth: int)
    ensures Inv(fetch, baseUrl, maxDepth, {}, [Task(baseUrl, 0)], [], 0)
  {
  }

  lemma StepDistinct(visited: set<string>, log: seq<Task>, batch: seq<Task>)
    requires visited == UrlsOf(log) && DistinctUrls(log) && DistinctUrls(batch)
    requires forall t :: t in batch ==> t.url !in visited
    ensures DistinctUrls(log + batch)
  {
    var log' := log + batch;
    forall i, j | 0 <= i < j < |log'| ensures log'[i].url != log'[j].url {
      if j >= |log| && i < |log| {
        UrlsOfIndex(log, i);
        assert log'[j] in batch;
      } else if j >= |log| {
        assert log'[i] == batch[i - |log|] && log'[j] == batch[j - |log|];
      }
    }
  }

  lemma StepDepths(log: seq<Task>, batch: seq<Task>, level: nat, maxDepth: int)
    requires DepthsBelow(log, level, maxDepth) && LevelOrdered(log)
    requires AtLevel(batch, level)
    requires forall t :: t in batch ==> t.depth <= maxDepth
    ensures DepthsBelow(log + batch, level + 1, maxDepth)
    ensures LevelOrdered(log + batch)
  {
    var log' := log + batch;
    forall k | 0 <= k < |log'| ensures 0 <= log'[k].depth < level + 1 && log'[k].depth <= maxDepth {
      if k >= |log| { assert log'[k] in batch; }
    }
    forall i, j | 0 <= i <= j < |log'| ensures log'[i].depth <= log'[j].depth {
      if j >= |log| { assert log'[j] in batch; }
      if i >= |log| { assert log'[i] in batch; }
    }
  }

  /** A parent found in the log stays a parent once the log grows. */
  lemma HasParentKept(fetch: Fetcher, baseUrl: string, log: seq<Task>, batch: seq<Task>, k: int)
    requires 0 <= k < |log| && HasParent(fetch, baseUrl, log, k)
    ensures HasParent(fetch, baseUrl, log + batch, k)
  {
    var j :| 0 <= j < k && log[j].depth + 1 == log[k].depth
             && LinkedFrom(fetch(log[j].url).links, log[k].url, baseUrl);
    assert (log + batch)[j] == log[j] && (log + batch)[k] == log[k];
  }

  /** A task taken from a frontier whose provenance is known has its parent in the log. */
  lemma HasParentNew(fetch: Fetcher, baseUrl: string, log: seq<Task>, toVisit: seq<Task>, batch: seq<Task>, k: int)
    requires Provenance(fetch, baseUrl, log, toVisit)
    requires |log| <= k < |log| + |batch| && batch[k - |log|] in toVisit
    ensures StartsWith((log + batch)[k].url, baseUrl) && HasParent(fetch, baseUrl, log + batch, k)
  {
    var t := batch[k - |log|];
    assert (log + batch)[k] == t;
    var j :| 0 <= j < |log| && log[j].depth + 1 == t.depth
             && LinkedFrom(fetch(log[j].url).links, t.url, baseUrl);
    assert (log + batch)[j] == log[j];
  }

  lemma StepDiscovered(fetch: Fetcher, baseUrl: string, log: seq<Task>, toVisit: seq<Task>, batch: seq<Task>)
    requires Discovered(fetch, baseUrl, log)
    requires Provenance(fetch, baseUrl, log, toVisit)
    requires forall t :: t in batch ==> t in toVisit
    ensures Discovered(fetch, baseUrl, log + batch)
  {
    var log' := log + batch;
    forall k | 0 < k < |log'| ensures StartsWith(log'[k].url, baseUrl) && HasParent(fetch, baseUrl, log', k) {
      if k < |log| {
        assert log'[k] == log[k];
        HasParentKept(fetch, baseUrl, log, batch, k);
      } else {
        assert batch[k - |log|] in batch;
        HasParentNew(fetch, baseUrl, log, toVisit, batch, k);
      }
    }
  }

  lemma StepProvenance(fetch: Fetcher, baseUrl: string, log: seq<Task>, batch: seq<Task>, seen: set<string>)
    ensures Provenance(fetch, baseUrl, log + batch, NextRound(batch, Fetched(fetch, batch), baseUrl, seen))
  {
    var pages := Fetched(fetch, batch);
    var log' := log + batch;
    forall t | t in NextRound(batch, pages, baseUrl, seen)
      ensures StartsWith(t.url, baseUrl)
              && exists j :: 0 <= j < |log'| && log'[j].depth + 1 == t.depth
                             && LinkedFrom(fetch(log'[j].url).links, t.url, baseUrl)
    {
      NextRoundSound(batch, pages, baseUrl, seen, t);
      var k :| 0 <= k < |batch| && t.depth == batch[k].depth + 1 && StartsWith(t.url, baseUrl)
               && t.url !in seen && LinkedFrom(pages[k].links, t.url, baseUrl);
      assert log'[|log| + k] == batch[k];
    }
  }

  /** A task handled before the round stays handled after it: whatever waited in the old
      frontier at a fetchable depth has been marked visited by the filter loop. */
  lemma HandledCarried(fetch: Fetcher, baseUrl: string, maxDepth: int, task: Task, visited: set<string>,
                       toVisit: seq<Task>, seen: set<string>, next: seq<Task>)
    requires LinksHandled(fetch, baseUrl, maxDepth, task, visited, toVisit)
    requires visited <= seen
    requires forall t :: t in toVisit && t.depth <= maxDepth ==> t.url in seen
    ensures LinksHandled(fetch, baseUrl, maxDepth, task, seen, next)
  {
  }

  /** A task fetched in this round has its links handled by the next frontier. */
  lemma HandledNew(fetch: Fetcher, baseUrl: string, maxDepth: int, batch: seq<Task>, pages: seq<Page>,
                   seen: set<string>, m: int)
    requires |pages| == |batch| && 0 <= m < |batch| && pages[m] == fetch(batch[m].url)
    ensures LinksHandled(fetch, baseUrl, maxDepth, batch[m], seen, NextRound(batch, pages, baseUrl, seen))
  {
    var links := fetch(batch[m].url).links;
    forall i | 0 <= i < |links| && OnSite(links[i], baseUrl) && NormalizeLink(links[i], baseUrl) !in seen
      ensures Task(NormalizeLink(links[i], baseUrl), batch[m].depth + 1) in NextRound(batch, pages, baseUrl, seen)
    {
      NextRoundComplete(batch, pages, baseUrl, seen, m, i);
    }
  }

  lemma StepClosed(fetch: Fetcher, baseUrl: string, maxDepth: int, visited: set<string>,
                   toVisit: seq<Task>, log: seq<Task>, batch: seq<Task>, pages: seq<Page>, seen: set<string>)
    requires Closed(fetch, baseUrl, maxDepth, log, visited, toVisit)
    requires visited <= seen
    requires forall t :: t in toVisit && t.depth <= maxDepth ==> t.url in seen
    requires |pages| == |batch| && forall m :: 0 <= m < |batch| ==> pages[m] == fetch(batch[m].url)
    ensures Closed(fetch, baseUrl, maxDepth, log + batch, seen, NextRound(batch, pages, baseUrl, seen))
  {
    var next := NextRound(batch, pages, baseUrl, seen);
    var log' := log + batch;
    forall k | 0 <= k < |log'| ensures LinksHandled(fetch, baseUrl, maxDepth, log'[k], seen, next) {
      if k < |log| {
        assert log'[k] == log[k];
        HandledCarried(fetch, baseUrl, maxDepth, log[k], visited, toVisit, seen, next);
      } else {
        assert log'[k] == batch[k - |log|];
        HandledNew(fetch, baseUrl, maxDepth, batch, pages, seen, k - |log|);
      }
    }
  }

  /** After a round with a non-empty batch, the visited set is still the set of fetched
      URLs, none of them fetched twice, and depths still grow and stay bounded. */
  lemma ShapeLog(fetch: Fetcher, baseUrl: string, maxDepth: int, s: State)
    requires s in Shaped(baseUrl, maxDepth) && !Stops(s.toVisit, s.visited, maxDepth)
    ensures var a := After(fetch, baseUrl, maxDepth, s);
            a.visited == UrlsOf(a.log) && DistinctUrls(a.log) && DepthsBelow(a.log, a.level, maxDepth) && LevelOrdered(a.log)
  {
    var visited, toVisit, log, level := s.visited, s.toVisit, s.log, s.level;
    var batch := Select(toVisit, visited, maxDepth).0;
    Shaping(baseUrl, maxDepth, s);
    BatchAtLevel(toVisit, visited, maxDepth, level);
    UrlsOfAppend(log, batch);
    StepDistinct(visited, log, batch);
    StepDepths(log, batch, level, maxDepth);
  }

  /** After a round with a non-empty batch, the new frontier lies one level down, the seed
      heads the log, and the level has not passed `maxDepth + 1`. */
  lemma ShapeFrontier(fetch: Fetcher, baseUrl: string, maxDepth: int, s: State)
    requires s in Shaped(baseUrl, maxDepth) && !Stops(s.toVisit, s.visited, maxDepth)
    ensures var a := After(fetch, baseUrl, maxDepth, s);
            AtLevel(a.toVisit, a.level) && |a.log| > 0 && a.log[0] == Task(baseUrl, 0) && a.level <= maxDepth + 1
  {
    var visited, toVisit, log, level := s.visited, s.toVisit, s.log, s.level;
    var batch, seen := Select(toVisit, visited, maxDepth).0, Select(toVisit, visited, maxDepth).1;
    Shaping(baseUrl, maxDepth, s);
    BatchAtLevel(toVisit, visited, maxDepth, level);
    NextRoundAtLevel(batch, Fetched(fetch, batch), baseUrl, seen, level);
    assert batch[0] in batch && batch[0] in toVisit;
    if level == 0 {
      assert toVisit[..0] == [];
      assert batch == [Task(baseUrl, 0)];
    }
  }

  /** A round with a non-empty batch keeps the bookkeeping half of the invariant. */
  lemma StepShape(fetch: Fetcher, baseUrl: string, maxDepth: int, s: State)
    requires s in Shaped(baseUrl, maxDepth) && !Stops(s.toVisit, s.visited, maxDepth)
    ensures After(fetch, baseUrl, maxDepth, s) in Shaped(baseUrl, maxDepth)
  {
    ShapeLog(fetch, baseUrl, maxDepth, s);
    ShapeFrontier(fetch, baseUrl, maxDepth, s);
    Shaping(baseUrl, maxDepth, After(fetch, baseUrl, maxDepth, s));
  }

  /** Any round keeps the link half of the invariant. */
  lemma StepLinks(fetch: Fetcher, baseUrl: string, maxDepth: int, s: State)
    requires s in Shaped(baseUrl, maxDepth) && s in Linked(fetch, baseUrl, maxDepth)
    ensures After(fetch, baseUrl, maxDepth, s) in Linked(fetch, baseUrl, maxDepth)
  {
    var visited, toVisit, log, level := s.visited, s.toVisit, s.log, s.level;
    var batch, seen := Select(toVisit, visited, maxDepth).0, Select(toVisit, visited, maxDepth).1;
    Shaping(baseUrl, maxDepth, s);
    Linking(fetch, baseUrl, maxDepth, s);
    if level == 0 {
      assert toVisit == [Task(baseUrl, 0)] && toVisit[..0] == [];
      assert log + batch == batch;
      assert Discovered(fetch, baseUrl, batch) by {
        assert Select(toVisit[..0], visited, maxDepth).0 == [];
        assert |batch| <= 1;
      }
    } else {
      StepDiscovered(fetch, baseUrl, log, toVisit, batch);
    }
    StepProvenance(fetch, baseUrl, log, batch, seen);
    StepClosed(fetch, baseUrl, maxDepth, visited, toVisit, log, batch, Fetched(fetch, batch), seen);
    assert InvLinks(fetch, baseUrl, maxDepth, seen, NextRound(batch, Fetched(fetch, batch), baseUrl, seen),
                    log + batch, level + 1);
    Linking(fetch, baseUrl, maxDepth, After(fetch, baseUrl, maxDepth, s));
  }

  /** The loop ends because `to_visit` is empty. */
  lemma ExitEmpty(fetch: Fetcher, baseUrl: string, maxDepth: int, visited: set<string>,
                  log: seq<Task>, level: nat, tr: Trace)
    requires Inv(fetch, baseUrl, maxDepth, visited, [], log, level)
    requires tr == Run(fetch, baseUrl, maxDepth, visited, [], log, level)
    ensures Post(fetch, baseUrl, maxDepth, tr)
  {
  }

  /** The loop ends at `break`: the round's batch is empty. */
  lemma ExitNoBatch(fetch: Fetcher, baseUrl: string, maxDepth: int, visited: set<string>,
                    toVisit: seq<Task>, log: seq<Task>, level: nat, tr: Trace)
    requires Inv(fetch, baseUrl, maxDepth, visited, toVisit, log, level)
    requires toVisit != [] && Select(toVisit, visited, maxDepth).0 == []
    requires tr == Run(fetch, baseUrl, maxDepth, visited, toVisit, log, level)
    ensures Post(fetch, baseUrl, maxDepth, tr)
  {
    var (batch, seen) := Select(toVisit, visited, maxDepth);
    assert seen == visited;
    if level == 0 {
      assert Task(baseUrl, 0) in toVisit;
    }
    ExitClosed(fetch, baseUrl, maxDepth, visited, toVisit, log);
  }

  lemma ExitClosed(fetch: Fetcher, baseUrl: string, maxDepth: int, visited: set<string>,
                   toVisit: seq<Task>, log: seq<Task>)
    requires Closed(fetch, baseUrl, maxDepth, log, visited, toVisit)
    requires visited == UrlsOf(log)
    requires forall t :: t in toVisit && t.depth <= maxDepth ==> t.url in visited
    ensures Closed(fetch, baseUrl, maxDepth, log, UrlsOf(log), [])
  {
    forall k | 0 <= k < |log| ensures LinksHandled(fetch, baseUrl, maxDepth, log[k], UrlsOf(log), []) {
      HandledCarried(fetch, baseUrl, maxDepth, log[k], visited, toVisit, visited, []);
    }
  }

  /** A round that stops ends the crawl, and the finished crawl satisfies `Post`. */
  lemma Exit(fetch: Fetcher, baseUrl: string, maxDepth: int, visited: set<string>,
             toVisit: seq<Task>, log: seq<Task>, level: nat, tr: Trace)
    requires Inv(fetch, baseUrl, maxDepth, visited, toVisit, log, level)
    requires tr == Run(fetch, baseUrl, maxDepth, visited, toVisit, log, level)
    requires Stops(toVisit, visited, maxDepth)
    ensures Post(fetch, baseUrl, maxDepth, tr)
  {
    if toVisit == [] {
      ExitEmpty(fetch, baseUrl, maxDepth, visited, log, level, tr);
    } else {
      ExitNoBatch(fetch, baseUrl, maxDepth, visited, toVisit, log, level, tr);
    }
  }

  /** A round that does not stop runs on a level no deeper than `maxDepth`. */
  lemma Bounded(fetch: Fetcher, baseUrl: string, maxDepth: int, s: State)
    requires s in Shaped(baseUrl, maxDepth) && !Stops(s.toVisit, s.visited, maxDepth)
    ensures s.level <= maxDepth
  {
    Shaping(baseUrl, maxDepth, s);
    var batch := Select(s.toVisit, s.visited, maxDepth).0;
    assert batch[0] in batch && batch[0] in s.toVisit;
  }

  /** A round that does not stop leaves a consistent state. */
  lemma Advance(fetch: Fetcher, baseUrl: string, maxDepth: int, s: State)
    requires s in Consistent(fetch, baseUrl, maxDepth) && !Stops(s.toVisit, s.visited, maxDepth)
    ensures After(fetch, baseUrl, maxDepth, s) in Consistent(fetch, baseUrl, maxDepth)
  {
    Joined(fetch, baseUrl, maxDepth, s);
    StepShape(fetch, baseUrl, maxDepth, s);
    StepLinks(fetch, baseUrl, maxDepth, s);
    Joined(fetch, baseUrl, maxDepth, After(fetch, baseUrl, maxDepth, s));
  }

  /** A round that does not stop leaves a state that finishes the same crawl. */
  lemma Proceed(fetch: Fetcher, baseUrl: string, maxDepth: int, s: State, tr: Trace)
    requires s in Leading(fetch, baseUrl, maxDepth, tr) && !Stops(s.toVisit, s.visited, maxDepth)
    ensures After(fetch, baseUrl, maxDepth, s) in Leading(fetch, baseUrl, maxDepth, tr)
  {
    var batch, seen := Select(s.toVisit, s.visited, maxDepth).0, Select(s.toVisit, s.visited, maxDepth).1;
    var next := NextRound(batch, Fetched(fetch, batch), baseUrl, seen);
    var after := State(seen, next, s.log + batch, s.level + 1);
    assert After(fetch, baseUrl, maxDepth, s) == after;
    assert AtLevel(next, s.level + 1) && tr == Run(fetch, baseUrl, maxDepth, seen, next, s.log + batch, s.level + 1) by {
      Leads(fetch, baseUrl, maxDepth, s, tr);
      RunStep(fetch, baseUrl, maxDepth, s.visited, s.toVisit, s.log, s.level, batch, seen);
    }
    Leads(fetch, baseUrl, maxDepth, after, tr);
  }

  /** Whatever consistent state the loop starts from, the crawl it finishes satisfies `Post`. */
  lemma {:induction false} RunPost(fetch: Fetcher, baseUrl: string, maxDepth: int, s: State, tr: Trace)
    requires s in Consistent(fetch, baseUrl, maxDepth) && s in Leading(fetch, baseUrl, maxDepth, tr)
    ensures Post(fetch, baseUrl, maxDepth, tr)
    decreases maxDepth + 1 - s.level, 1
  {
    if Stops(s.toVisit, s.visited, maxDepth) {
      Consistency(fetch, baseUrl, maxDepth, s);
      Leads(fetch, baseUrl, maxDepth, s, tr);
      Exit(fetch, baseUrl, maxDepth, s.visited, s.toVisit, s.log, s.level, tr);
    } else {
      RunPostAdvance(fetch, baseUrl, maxDepth, s, tr);
    }
  }

  /** The inductive step of `RunPost`: a round that does not stop. */
  lemma {:induction false} RunPostAdvance(fetch: Fetcher, baseUrl: string, maxDepth: int, s: State, tr: Trace)
    requires s in Consistent(fetch, baseUrl, maxDepth) && s in Leading(fetch, baseUrl, maxDepth, tr)
    requires !Stops(s.toVisit, s.visited, maxDepth)
    ensures tr in Finished(fetch, baseUrl, maxDepth)
    decreases maxDepth + 1 - s.level, 0
  {
    Joined(fetch, baseUrl, maxDepth, s);
    Bounded(fetch, baseUrl, maxDepth, s);
    Advance(fetch, baseUrl, maxDepth, s);
    Proceed(fetch, baseUrl, maxDepth, s, tr);
    RunPost(fetch, baseUrl, maxDepth, After(fetch, baseUrl, maxDepth, s), tr);
  }

  lemma CrawlPost(fetch: Fetcher, baseUrl: string, maxDepth: int)
    ensures Post(fetch, baseUrl, maxDepth, Crawl(fetch, baseUrl, maxDepth))
  {
    var tr := Crawl(fetch, baseUrl, maxDepth);
    var init := State({}, [Task(baseUrl, 0)], [], 0);
    InitInv(fetch, baseUrl, maxDepth);
    Consistency(fetch, baseUrl, maxDepth, init);
    Leads(fetch, baseUrl, maxDepth, init, tr);
    RunPost(fetch, baseUrl, maxDepth, init, tr);
  }

  lemma ParentAbove(fetch: Fetcher, baseUrl: string, d: seq<Task>, k: int)
    requires Discovered(fetch, baseUrl, d) && 0 < k < |d|
    ensures exists j :: 0 <= j < k && d[j].depth + 1 == d[k].depth
                        && LinkedFrom(fetch(d[j].url).links, d[k].url, baseUrl)
  {
    assert HasParent(fetch, baseUrl, d, k);
  }

  /** No URL is fetched twice, within a round or across rounds. */
  lemma CrawlNoDuplicates(fetch: Fetcher, baseUrl: string, maxDepth: int)
    ensures DistinctUrls(Crawl(fetch, baseUrl, maxDepth).dispatched)
  {
    CrawlPost(fetch, baseUrl, maxDepth);
  }

  /** Every fetched task lies between depth 0 and `maxDepth`; deeper links are never fetched. */
  lemma CrawlDepthBounded(fetch: Fetcher, baseUrl: string, maxDepth: int, k: int)
    requires 0 <= k < |Crawl(fetch, baseUrl, maxDepth).dispatched|
    ensures 0 <= Crawl(fetch, baseUrl, maxDepth).dispatched[k].depth <= maxDepth
  {
    CrawlPost(fetch, baseUrl, maxDepth);
  }

  /** The `while` loop runs at least once and at most `maxDepth + 2` times (once when
      `maxDepth` is negative). */
  lemma CrawlRounds(fetch: Fetcher, baseUrl: string, maxDepth: int)
    ensures 1 <= Crawl(fetch, baseUrl, maxDepth).rounds
    ensures maxDepth < 0 ==> Crawl(fetch, baseUrl, maxDepth).rounds == 1
    ensures maxDepth >= 0 ==> Crawl(fetch, baseUrl, maxDepth).rounds <= maxDepth + 2
  {
    CrawlPost(fetch, baseUrl, maxDepth);
  }

  /** Everything fetched stays under `baseUrl`. */
  lemma CrawlOnSite(fetch: Fetcher, baseUrl: string, maxDepth: int, k: int)
    requires 0 <= k < |Crawl(fetch, baseUrl, maxDepth).dispatched|
    ensures StartsWith(Crawl(fetch, baseUrl, maxDepth).dispatched[k].url, baseUrl)
  {
    CrawlPost(fetch, baseUrl, maxDepth);
    if k == 0 {
      assert baseUrl[..|baseUrl|] == baseUrl;
    }
  }

  /** Every fetched task other than the seed was found, one level down, among the links of
      a page fetched before it. */
  lemma CrawlProvenance(fetch: Fetcher, baseUrl: string, maxDepth: int, k: int)
    requires 0 < k < |Crawl(fetch, baseUrl, maxDepth).dispatched|
    ensures var d := Crawl(fetch, baseUrl, maxDepth).dispatched;
            exists j :: 0 <= j < k && d[j].depth + 1 == d[k].depth
                        && LinkedFrom(fetch(d[j].url).links, d[k].url, baseUrl)
  {
    CrawlPost(fetch, baseUrl, maxDepth);
    ParentAbove(fetch, baseUrl, Crawl(fetch, baseUrl, maxDepth).dispatched, k);
  }

  /** Pages are fetched level by level: depths never decrease along the fetch order. */
  lemma CrawlLevelOrder(fetch: Fetcher, baseUrl: string, maxDepth: int)
    ensures LevelOrdered(Crawl(fetch, baseUrl, maxDepth).dispatched)
  {
    CrawlPost(fetch, baseUrl, maxDepth);
  }

  /** The crawl is complete: an on-site link of a page fetched above `maxDepth` has itself
      been fetched. */
  lemma CrawlComplete(fetch: Fetcher, baseUrl: string, maxDepth: int, k: int, i: int)
    requires 0 <= k < |Crawl(fetch, baseUrl, maxDepth).dispatched|
    requires Crawl(fetch, baseUrl, maxDepth).dispatched[k].depth < maxDepth
    requires 0 <= i < |fetch(Crawl(fetch, baseUrl, maxDepth).dispatched[k].url).links|
    requires OnSite(fetch(Crawl(fetch, baseUrl, maxDepth).dispatched[k].url).links[i], baseUrl)
    ensures NormalizeLink(fetch(Crawl(fetch, baseUrl, maxDepth).dispatched[k].url).links[i], baseUrl)
            in UrlsOf(Crawl(fetch, baseUrl, maxDepth).dispatched)
  {
    CrawlPost(fetch, baseUrl, maxDepth);
    var d := Crawl(fetch, baseUrl, maxDepth).dispatched;
    assert LinksHandled(fetch, baseUrl, maxDepth, d[k], UrlsOf(d), []);
  }

  /** A second fetched task is a link of the seed page, one level down. */
  lemma CrawlSecond(fetch: Fetcher, baseUrl: string, maxDepth: int)
    requires 1 < |Crawl(fetch, baseUrl, maxDepth).dispatched|
    ensures var d := Crawl(fetch, baseUrl, maxDepth).dispatched;
            d[1].depth == 1 <= maxDepth && LinkedFrom(fetch(baseUrl).links, d[1].url, baseUrl)
  {
    CrawlPost(fetch, baseUrl, maxDepth);
    ParentAbove(fetch, baseUrl, Crawl(fetch, baseUrl, maxDepth).dispatched, 1);
  }

  /** With `maxDepth == 0` exactly one page, the seed, is fetched, however many links it has. */
  lemma CrawlDepthZero(fetch: Fetcher, baseUrl: string)
    ensures Crawl(fetch, baseUrl, 0).dispatched == [Task(baseUrl, 0)]
    ensures CrawlResults(fetch, baseUrl, 0) == [fetch(baseUrl)]
  {
    var d := Crawl(fetch, baseUrl, 0).dispatched;
    if |d| > 1 {
      CrawlSecond(fetch, baseUrl, 0);
      assert false;
    }
    assert d == [Task(baseUrl, 0)];
  }

  /** When no fetched page has links (every fetch failing, say), only the seed is fetched. */
  lemma CrawlNoLinks(fetch: Fetcher, baseUrl: string, maxDepth: int)
    requires maxDepth >= 0
    requires forall u :: fetch(u).links == []
    ensures Crawl(fetch, baseUrl, maxDepth).dispatched == [Task(baseUrl, 0)]
  {
    var d := Crawl(fetch, baseUrl, maxDepth).dispatched;
    if |d| > 1 {
      CrawlSecond(fetch, baseUrl, maxDepth);
      assert false;
    }
    assert d == [Task(baseUrl, 0)];
  }

  /** Tasks with pairwise distinct URLs carry as many URLs as there are tasks. */
  lemma UrlsOfDistinct(d: seq<Task>)
    requires DistinctUrls(d)
    ensures |UrlsOf(d)| == |d|
  {
    var urls := seq(|d|, i requires 0 <= i < |d| => d[i].url);
    assert Distinct(urls);
    DistinctCardinality(urls);
    assert (set x | x in urls) == UrlsOf(d) by {
      forall x | x in UrlsOf(d) ensures x in urls {
        var t :| t in d && t.url == x;
        var i :| 0 <= i < |d| && d[i] == t;
        assert urls[i] == x;
      }
    }
  }

  /** With a fetcher that answers for the URL it was given, the results carry pairwise
      distinct URLs, as many as were marked visited. */
  lemma CrawlResultsUnique(fetch: Fetcher, baseUrl: string, maxDepth: int)
    requires forall u :: fetch(u).url == u
    ensures var rs := CrawlResults(fetch, baseUrl, maxDepth);
            forall i, j :: 0 <= i < j < |rs| ==> rs[i].url != rs[j].url
    ensures |CrawlResults(fetch, baseUrl, maxDepth)| == |UrlsOf(Crawl(fetch, baseUrl, maxDepth).dispatched)|
  {
    CrawlPost(fetch, baseUrl, maxDepth);
    UrlsOfDistinct(Crawl(fetch, baseUrl, maxDepth).dispatched);
  }
}
