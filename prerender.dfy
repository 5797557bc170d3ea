/** `PrerenderService`: the render path split at its waiting points, the
    admission gate, the active-render alert, the sitemap warmup and its
    timer tick. The browser driver, the HTTP client and the notification
    channel are outside the model: what they return is passed in, and the
    messages handed to the channel are collected in `outbox`. */
module Prerender {
  import opened Wrappers
  import Text
  import opened Cache
  import opened BrowserPool
  import opened PrerenderRules

  /** One `render` call, from admission to completion. */
  type Ticket = Waiter

  /** How the synchronous first part of `render` ends: with a validation
      error, with the cached page, admitted to render at once, or queued
      behind the gate until `processQueue` wakes it. */
  datatype RenderStart = Rejected(error: UrlError) | Served(result: PrerenderResult) | Admitted(ticket: Ticket) | Queued(ticket: Ticket)

  /** A render error restarts the browser it held when its message contains
      "Protocol error". */
  predicate RestartsBrowser(browser: Option<BrowserId>, outcome: Result<string, string>) {
    browser.Some? && outcome.Failure? && Text.Includes(outcome.error, "Protocol error")
  }

  /** The pool after `performRender` ends with `outcome` (the page's HTML or
      the error message) while holding `browser`, if it got one: a restart
      for a protocol error, otherwise a release. */
  function PoolAfterRender(p: PoolState, browser: Option<BrowserId>, outcome: Result<string, string>, relaunched: bool): PoolState {
    if browser.None? then p
    else if RestartsBrowser(browser, outcome) then Replaced(p, browser.value, relaunched)
    else Released(p, browser.value)
  }

  /** Every finished render gives its browser back: released, or replaced by
      a fresh free one. Only a restart whose relaunch fails loses it: the
      dead handle stays owned and counted busy with nobody holding it. */
  lemma RenderReturnsBrowser(p: PoolState, held: set<BrowserId>, browser: BrowserId, outcome: Result<string, string>, relaunched: bool)
    requires Leased(p, held) && Fresh(p) && browser in held
    ensures var q := PoolAfterRender(p, Some(browser), outcome, relaunched);
            && (!RestartsBrowser(Some(browser), outcome) || relaunched ==> Leased(q, held - {browser}))
            && (RestartsBrowser(Some(browser), outcome) && !relaunched ==>
                  q == p && StatsOf(q).busy == |held - {browser}| + 1)
  {
    if RestartsBrowser(Some(browser), outcome) {
      ReplaceKeepsLease(p, held, browser, relaunched);
      if !relaunched {
        LeaseBoundsBusy(p, held);
      }
    } else {
      ReleaseKeepsLease(p, held, browser);
    }
  }

  class PrerenderService {
    const pool: BrowserPoolService
    const cache: CacheService
    const security: SecurityConfig
    /** `performance.maxConcurrentRenders` */
    const maxConcurrentRenders: nat
    /** The host name `new URL(url)` yields, `None` when it throws. */
    const hostOf: string -> Option<string>
    /** The auto-warmup period fixed by `scheduleAutoWarmup` at construction. */
    const autoWarmupSeconds: nat

    var stats: RenderStats
    var activeRenders: set<Ticket>
    /** The waiters of `waitForSlot`, oldest first. */
    var renderQueue: seq<Ticket>
    /** The ticket the next `render` call gets. */
    var nextTicket: Ticket
    var warmupStatus: WarmupStatus
    var sitemapUrls: seq<string>
    var lastTelegramProgress: nat
    var notifyActiveRendersThreshold: nat
    /** The messages handed to the notification channel, oldest first. */
    var outbox: seq<Notice>

    ghost predicate Valid()
      reads this, pool, cache
    {
      && pool.Valid()
      && cache.Valid()
      && (forall t :: t in activeRenders ==> t < nextTicket)
      && (forall t :: t in renderQueue ==> t < nextTicket)
    }

    function Warmup(): WarmupState
      reads this
    {
      WarmupState(warmupStatus, sitemapUrls, lastTelegramProgress, outbox)
    }

    /** The service starts idle, and its auto-warmup period follows the page
        TTL of the cache. */
    constructor (pool: BrowserPoolService, cache: CacheService, security: SecurityConfig,
                 maxConcurrentRenders: nat, hostOf: string -> Option<string>)
      requires pool.Valid() && cache.Valid()
      ensures Valid()
      ensures this.pool == pool && this.cache == cache && this.security == security
      ensures this.maxConcurrentRenders == maxConcurrentRenders && this.hostOf == hostOf
      ensures autoWarmupSeconds == AutoWarmupIntervalSeconds(cache.stdTTL)
      ensures stats == ZeroRenderStats && activeRenders == {} && renderQueue == [] && nextTicket == 0
      ensures Warmup() == WarmupState(IdleWarmup, [], 0, []) && notifyActiveRendersThreshold == 0
    {
      this.pool := pool;
      this.cache := cache;
      this.security := security;
      this.maxConcurrentRenders := maxConcurrentRenders;
      this.hostOf := hostOf;
      autoWarmupSeconds := AutoWarmupIntervalSeconds(cache.stdTTL);
      stats := ZeroRenderStats;
      activeRenders := {};
      renderQueue := [];
      nextTicket := 0;
      warmupStatus := IdleWarmup;
      sitemapUrls := [];
      lastTelegramProgress := 0;
      notifyActiveRendersThreshold := 0;
      outbox := [];
    }

    /** `render` up to the point where it waits: count the request, validate
        the URL, answer from the page cache, or pass the gate. */
    method Render(url: string, optionsJson: string) returns (r: RenderStart)
      requires Valid()
      modifies this`stats, this`renderQueue, this`nextTicket, cache
      ensures Valid()
      ensures var verdict := ValidateUrl(url, security, hostOf);
              var key := CacheKey(url, optionsJson);
              && (r.Rejected? <==> verdict.Fail?)
              && (r.Rejected? ==> r.error == verdict.error && stats == Bump(Bump(old(stats), Request), Errored)
                                  && cache.stats == old(cache.stats))
              && (r.Served? <==> verdict.Pass? && key in old(cache.pageCache))
              && (r.Served? ==> r.result == PrerenderResult(old(cache.pageCache)[key].html, true, None)
                                && stats == Bump(Bump(old(stats), Request), Hit)
                                && cache.stats == old(cache.stats).(pageHits := old(cache.stats).pageHits + 1))
              && (r.Admitted? <==> verdict.Pass? && key !in old(cache.pageCache) && |activeRenders| < maxConcurrentRenders)
              && (r.Admitted? || r.Queued? ==>
                    && r.ticket == old(nextTicket) && nextTicket == old(nextTicket) + 1
                    && stats == Bump(old(stats), Request)
                    && cache.stats == old(cache.stats).(pageMisses := old(cache.stats).pageMisses + 1))
              && (r.Rejected? || r.Served? ==> nextTicket == old(nextTicket))
      ensures renderQueue == if r.Queued? then old(renderQueue) + [r.ticket] else old(renderQueue)
      ensures cache.pageCache == old(cache.pageCache)
      ensures cache.resourceKeys == old(cache.resourceKeys) && cache.resourceCache == old(cache.resourceCache)
    {
      stats := Bump(stats, Request);
      var verdict := ValidateUrl(url, security, hostOf);
      if verdict.Fail? {
        stats := Bump(stats, Errored);
        return Rejected(verdict.error);
      }
      var cached := cache.GetPage(CacheKey(url, optionsJson));
      if cached.Some? {
        stats := Bump(stats, Hit);
        return Served(PrerenderResult(cached.value.html, true, None));
      }
      var ticket := nextTicket;
      nextTicket := nextTicket + 1;
      var admitted := WaitForSlot(ticket);
      r := if admitted then Admitted(ticket) else Queued(ticket);
    }

    /** `waitForSlot`: go on while fewer renders than the limit are active,
        otherwise join the end of the queue. */
    method WaitForSlot(ticket: Ticket) returns (admitted: bool)
      modifies this`renderQueue
      ensures admitted <==> |activeRenders| < maxConcurrentRenders
      ensures renderQueue == if admitted then old(renderQueue) else old(renderQueue) + [ticket]
    {
      admitted := |activeRenders| < maxConcurrentRenders;
      if !admitted {
        renderQueue := renderQueue + [ticket];
      }
    }

    /** `processQueue`: wake waiters from the front while the active count
        is below the limit. */
    method ProcessQueue() returns (woken: seq<Ticket>)
      modifies this`renderQueue
      ensures (woken, renderQueue) == Drain(old(renderQueue), |activeRenders|, maxConcurrentRenders)
    {
      woken := [];
      while |renderQueue| > 0 && |activeRenders| < maxConcurrentRenders
        invariant woken + renderQueue == old(renderQueue)
        invariant |activeRenders| >= maxConcurrentRenders ==> woken == []
        decreases |renderQueue|
      {
        var head := renderQueue[0];
        assert renderQueue == [head] + renderQueue[1..];
        woken := woken + [head];
        renderQueue := renderQueue[1..];
      }
      if |activeRenders| < maxConcurrentRenders {
        assert renderQueue == [];
        assert woken == woken + renderQueue == old(renderQueue);
      } else {
        assert woken == [];
        assert renderQueue == woken + renderQueue == old(renderQueue);
      }
    }

    /** `checkActiveRenders`: alert once per distinct count at or above the
        threshold; re-arm below it. */
    method CheckActiveRenders()
      modifies this`notifyActiveRendersThreshold, this`outbox
      ensures var (level, sent) := AlertStep(old(notifyActiveRendersThreshold), |activeRenders|);
              && notifyActiveRendersThreshold == level
              && outbox == old(outbox) + (if sent then [ActiveRendersAlert(|activeRenders|)] else [])
    {
      if |activeRenders| >= ActiveRendersThreshold && notifyActiveRendersThreshold != |activeRenders| {
        notifyActiveRendersThreshold := |activeRenders|;
        outbox := outbox + [ActiveRendersAlert(|activeRenders|)];
      }
      if |activeRenders| < ActiveRendersThreshold {
        notifyActiveRendersThreshold := 0;
      }
    }

    /** The start of `performRender`: the render becomes active and the
        alert is checked. The browser is then taken with `pool.GetBrowser`. */
    method BeginRender(ticket: Ticket)
      requires Valid() && ticket < nextTicket
      modifies this`activeRenders, this`notifyActiveRendersThreshold, this`outbox
      ensures Valid()
      ensures activeRenders == old(activeRenders) + {ticket}
      ensures var (level, sent) := AlertStep(old(notifyActiveRendersThreshold), |activeRenders|);
              && notifyActiveRendersThreshold == level
              && outbox == old(outbox) + (if sent then [ActiveRendersAlert(|activeRenders|)] else [])
    {
      activeRenders := activeRenders + {ticket};
      CheckActiveRenders();
    }

    /** The end of `performRender` and of `render`. On success the page is
        stored under its cache key and counted; on failure the error is
        counted. The browser, if one was taken, is restarted for a protocol
        error (`relaunched` says whether that worked) and released
        otherwise; then the render leaves the active set, the queue is
        drained and the alert re-checked. */
    method CompleteRender(ticket: Ticket, url: string, optionsJson: string, browser: Option<BrowserId>,
                          outcome: Result<string, string>, relaunched: bool, now: int, startTime: int)
      returns (reply: RenderReply, woken: seq<Ticket>)
      requires Valid()
      modifies this`stats, this`activeRenders, this`renderQueue, this`notifyActiveRendersThreshold, this`outbox, cache, pool
      ensures Valid()
      ensures outcome.Success? ==>
        && reply == Rendered(PrerenderResult(outcome.value, false, Some(now - startTime)))
        && stats == Bump(old(stats), Succeeded)
        && cache.pageCache == old(cache.pageCache)[CacheKey(url, optionsJson) := PageEntry(outcome.value, now, PageTtl(cache.stdTTL))]
      ensures outcome.Failure? ==>
        && reply == RenderError(outcome.error)
        && stats == Bump(old(stats), Errored)
        && cache.pageCache == old(cache.pageCache)
      ensures cache.resourceKeys == old(cache.resourceKeys) && cache.resourceCache == old(cache.resourceCache)
      ensures cache.stats == old(cache.stats)
      ensures pool.State() == PoolAfterRender(old(pool.State()), browser, outcome, relaunched)
      ensures activeRenders == old(activeRenders) - {ticket}
      ensures (woken, renderQueue) == Drain(old(renderQueue), |activeRenders|, maxConcurrentRenders)
      ensures var (level, sent) := AlertStep(old(notifyActiveRendersThreshold), |activeRenders|);
              && notifyActiveRendersThreshold == level
              && outbox == old(outbox) + (if sent then [ActiveRendersAlert(|activeRenders|)] else [])
    {
      reply := RecordOutcome(url, optionsJson, outcome, now, startTime);
      ReturnBrowser(browser, outcome, relaunched);
      activeRenders := activeRenders - {ticket};
      woken := ProcessQueue();
      CheckActiveRenders();
    }

    /** The outcome part of `performRender`: fresh HTML is cached under the
        request's key and counted a success; an error is counted and
        reported. */
    method RecordOutcome(url: string, optionsJson: string, outcome: Result<string, string>, now: int, startTime: int)
      returns (reply: RenderReply)
      requires cache.Valid()
      modifies this`stats, cache
      ensures cache.Valid()
      ensures outcome.Success? ==>
        && reply == Rendered(PrerenderResult(outcome.value, false, Some(now - startTime)))
        && stats == Bump(old(stats), Succeeded)
        && cache.pageCache == old(cache.pageCache)[CacheKey(url, optionsJson) := PageEntry(outcome.value, now, PageTtl(cache.stdTTL))]
      ensures outcome.Failure? ==>
        && reply == RenderError(outcome.error)
        && stats == Bump(old(stats), Errored)
        && cache.pageCache == old(cache.pageCache)
      ensures cache.resourceKeys == old(cache.resourceKeys) && cache.resourceCache == old(cache.resourceCache)
      ensures cache.stats == old(cache.stats)
    {
      match outcome {
        case Success(html) =>
          cache.SetPage(CacheKey(url, optionsJson), html, now);
          stats := Bump(stats, Succeeded);
          reply := Rendered(PrerenderResult(html, false, Some(now - startTime)));
        case Failure(message) =>
          stats := Bump(stats, Errored);
          reply := RenderError(message);
      }
    }

    /** The `finally` part of `performRender`: a held browser is restarted
        after a protocol error and released otherwise. */
    method ReturnBrowser(browser: Option<BrowserId>, outcome: Result<string, string>, relaunched: bool)
      requires pool.Valid()
      modifies pool
      ensures pool.Valid()
      ensures pool.State() == PoolAfterRender(old(pool.State()), browser, outcome, relaunched)
    {
      if browser.Some? {
        if RestartsBrowser(browser, outcome) {
          pool.RestartBrowser(browser.value, relaunched);
        } else {
          pool.ReleaseBrowser(browser.value);
        }
      }
    }

    /** `resetStats`: the render counters and the cache's hit counters go
        back to zero. */
    method ResetStats()
      requires Valid()
      modifies this`stats, cache
      ensures Valid()
      ensures stats == ZeroRenderStats && cache.stats == ZeroCounters
      ensures cache.pageCache == old(cache.pageCache)
      ensures cache.resourceKeys == old(cache.resourceKeys) && cache.resourceCache == old(cache.resourceCache)
    {
      stats := ZeroRenderStats;
      cache.ResetStats();
    }

    /** The page loop of `warmupBySitemap`: each page is counted done or
        failed and leaves the queue, and a progress message goes out each
        time the percentage done has grown by 10 points since the last one. */
    method SweepPages(urls: seq<string>, replies: nat -> RenderReply)
      requires warmupStatus.total == |urls| && warmupStatus.queue == urls
      requires warmupStatus.done == 0 && warmupStatus.errors == 0 && warmupStatus.lastError.None?
      requires lastTelegramProgress == 0
      modifies this`warmupStatus, this`lastTelegramProgress, this`outbox
      ensures var sw := SweepAfter(replies, |urls|, |urls|);
              && warmupStatus == old(warmupStatus).(done := sw.done, errors := sw.errors, queue := [], lastError := sw.lastError)
              && lastTelegramProgress == sw.lastProgress
              && outbox == old(outbox) + sw.notices
    {
      var i := 0;
      while i < |urls|
        invariant 0 <= i <= |urls|
        invariant var sw := SweepAfter(replies, |urls|, i);
                  && warmupStatus == old(warmupStatus).(done := sw.done, errors := sw.errors, queue := urls[i..], lastError := sw.lastError)
                  && lastTelegramProgress == sw.lastProgress
                  && outbox == old(outbox) + sw.notices
        invariant warmupStatus.done + warmupStatus.errors + |warmupStatus.queue| == warmupStatus.total
      {
        assert urls[i..][1..] == urls[i + 1..];
        RecordRender(replies(i), SweepAfter(replies, |urls|, i), old(outbox));
        i := i + 1;
      }
    }

    /** One pass of the warmup loop once the render of the page at the head
        of the queue has ended with `reply`: count it as done or as an error,
        drop the page from the queue, and report progress when the
        percentage has grown by ten points since the last report. `before`
        is the loop state so far, `base` the outbox before the loop. */
    method RecordRender(reply: RenderReply, ghost before: Sweep, ghost base: seq<Notice>)
      requires warmupStatus.total > 0 && warmupStatus.queue != []
      requires warmupStatus.done == before.done && warmupStatus.errors == before.errors
      requires warmupStatus.lastError == before.lastError
      requires lastTelegramProgress == before.lastProgress && outbox == base + before.notices
      modifies this`warmupStatus, this`lastTelegramProgress, this`outbox
      ensures var sw := SweepStep(before, reply, old(warmupStatus.total));
              && warmupStatus == old(warmupStatus).(done := sw.done, errors := sw.errors, queue := old(warmupStatus.queue)[1..], lastError := sw.lastError)
              && lastTelegramProgress == sw.lastProgress
              && outbox == base + sw.notices
      ensures warmupStatus.done + warmupStatus.errors + |warmupStatus.queue| ==
              old(warmupStatus.done + warmupStatus.errors + |warmupStatus.queue|)
    {
      match reply {
        case Rendered(_) =>
          warmupStatus := warmupStatus.(done := warmupStatus.done + 1);
        case RenderError(message) =>
          warmupStatus := warmupStatus.(errors := warmupStatus.errors + 1, lastError := Some(message));
      }
      warmupStatus := warmupStatus.(queue := warmupStatus.queue[1..]);
      var percent := Percent(warmupStatus.done, warmupStatus.total);
      if percent - lastTelegramProgress >= 10 {
        lastTelegramProgress := percent;
        outbox := outbox + [WarmupProgress(percent, warmupStatus.done, warmupStatus.total)];
      }
    }

    /** `warmupBySitemap` on the sitemap at `sitemapUrl`, `fetch` giving what
        downloading and parsing a URL yields, `replies(i)` how the render of
        the i-th listed page ends. */
    method WarmupBySitemap(sitemapUrl: string, fetch: string -> Result<SitemapTree, string>, replies: nat -> RenderReply,
                           startedAt: int, finishedAt: int)
      returns (r: Result<WarmupStatus, WarmupError>)
      modifies this`warmupStatus, this`sitemapUrls, this`lastTelegramProgress, this`outbox
      ensures (Warmup(), r) == WarmupRun(old(Warmup()), fetch(sitemapUrl), replies, startedAt, finishedAt)
    {
      if warmupStatus.inProgress {
        return Failure(WarmupAlreadyRunning);
      }
      warmupStatus := WarmupStatus(true, 0, 0, 0, [], Some(startedAt), None, None);
      outbox := outbox + [WarmupStarted];
      var fetched := fetch(sitemapUrl);
      if fetched.Failure? {
        warmupStatus := warmupStatus.(inProgress := false, lastError := Some(fetched.error));
        assert old(outbox) + [WarmupStarted] + [WarmupFailed(fetched.error)] == old(outbox) + [WarmupStarted, WarmupFailed(fetched.error)];
        outbox := outbox + [WarmupFailed(fetched.error)];
        return Success(warmupStatus);
      }
      var urls := ExtractLocs(fetched.value);
      sitemapUrls := urls;
      warmupStatus := warmupStatus.(total := |urls|, queue := urls);
      lastTelegramProgress := 0;
      SweepPages(urls, replies);
      warmupStatus := warmupStatus.(inProgress := false, finishedAt := Some(finishedAt));
      outbox := outbox + [WarmupFinished];
      r := Success(warmupStatus);
    }

    /** One tick of the auto-warmup timer: a new run on the first URL of
        the last extracted list, unless the list is empty or a run is in
        progress. */
    method AutoWarmupTick(fetch: string -> Result<SitemapTree, string>, replies: nat -> RenderReply, startedAt: int, finishedAt: int)
      returns (ran: bool)
      modifies this`warmupStatus, this`sitemapUrls, this`lastTelegramProgress, this`outbox
      ensures ran <==> AutoWarmupTarget(old(sitemapUrls), old(warmupStatus.inProgress)).Some?
      ensures !ran ==> Warmup() == old(Warmup())
      ensures ran ==> Warmup() == WarmupRun(old(Warmup()), fetch(old(sitemapUrls)[0]), replies, startedAt, finishedAt).0
    {
      var target := AutoWarmupTarget(sitemapUrls, warmupStatus.inProgress);
      ran := target.Some?;
      if ran {
        var _ := WarmupBySitemap(target.value, fetch, replies, startedAt, finishedAt);
      }
    }
  }

  /** The gate does not bound concurrency. With a limit of one render, one
      active render and two waiters, finishing the active render wakes both
      waiters at once, and once both begin, two renders are active. */
  method GateOvershoots(service: PrerenderService, finished: Ticket, first: Ticket, second: Ticket,
                        url: string, optionsJson: string, browser: Option<BrowserId>,
                        outcome: Result<string, string>, relaunched: bool, now: int)
    requires service.Valid() && service.maxConcurrentRenders == 1
    requires service.activeRenders == {finished} && service.renderQueue == [first, second]
    requires first != second
    modifies service, service.cache, service.pool
    ensures service.Valid()
    ensures service.activeRenders == {first, second} && service.renderQueue == []
    ensures |service.activeRenders| == 2 > service.maxConcurrentRenders
  {
    assert first in service.renderQueue && second in service.renderQueue;
    assert first < service.nextTicket && second < service.nextTicket;
    var reply, woken := service.CompleteRender(finished, url, optionsJson, browser, outcome, relaunched, now, now);
    assert service.activeRenders == {};
    assert woken == [first, second];
    service.BeginRender(woken[0]);
    service.BeginRender(woken[1]);
    assert |{first, second}| == 2;
  }

  /** A first request for a page on an idle service with a fresh pool is
      admitted, takes a browser, and ends with the page rendered and stored
      under its cache key. */
  method RenderOnIdle(service: PrerenderService, url: string, html: string, now: int)
    returns (first: RenderReply)
    requires service.Valid()
    requires ValidateUrl(url, service.security, service.hostOf).Pass?
    requires service.maxConcurrentRenders > 0 && service.activeRenders == {}
    requires CacheKey(url, DefaultOptionsJson) !in service.cache.pageCache
    requires service.pool.State() == PoolState([], [], false, 0) && service.pool.poolSize > 0
    modifies service, service.cache, service.pool
    ensures service.Valid()
    ensures first == Rendered(PrerenderResult(html, false, Some(0)))
    ensures CacheKey(url, DefaultOptionsJson) in service.cache.pageCache
    ensures service.cache.pageCache[CacheKey(url, DefaultOptionsJson)].html == html
  {
    var start := service.Render(url, DefaultOptionsJson);
    assert start.Admitted?;
    service.BeginRender(start.ticket);
    var launch := (i: nat) => true;
    assert LaunchesFrom(launch, 0, service.pool.poolSize) == service.pool.poolSize;
    var acquired := service.pool.GetBrowser(launch);
    assert acquired.Acquired?;
    var woken;
    first, woken := service.CompleteRender(start.ticket, url, DefaultOptionsJson, Some(acquired.browser), Success(html), false, now, now);
  }

  /** A page rendered once is served from the cache by the next request for
      the same URL: the first request is admitted by an idle service, takes
      a browser from a freshly started pool, and stores the page; the second
      is a cache hit carrying the same HTML. */
  method RenderThenServe(url: string, html: string, security: SecurityConfig, hostOf: string -> Option<string>,
                         maxConcurrentRenders: nat, poolSize: nat, now: int)
    returns (first: RenderReply, second: RenderStart)
    requires ValidateUrl(url, security, hostOf).Pass?
    requires maxConcurrentRenders > 0 && poolSize > 0
    ensures first == Rendered(PrerenderResult(html, false, Some(0)))
    ensures second == Served(PrerenderResult(html, true, None))
  {
    var cache := new CacheService(100, None);
    var pool := new BrowserPoolService(poolSize);
    var service := new PrerenderService(pool, cache, security, maxConcurrentRenders, hostOf);
    first := RenderOnIdle(service, url, html, now);
    second := service.Render(url, DefaultOptionsJson);
  }
}
