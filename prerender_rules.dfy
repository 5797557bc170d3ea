/** The side-effect-free rules of `PrerenderService`: URL validation, the
    cache key, the request-blocking predicate, the batch result records, the
    `<loc>` extraction from a parsed sitemap, the auto-warmup period, and the
    value-level step functions that specify the service's mutable state (the
    admission gate, the active-render alert latch, the render counters and
    the warmup sweep). */
module PrerenderRules {
  import opened Wrappers
  import opened Text

  // ----- URL validation -----

  datatype InvalidReason = Unparseable | DomainNotAllowed

  /** The `BadRequest` errors of `validateUrl`. A host outside the allow-list
      is thrown inside the `try` and re-thrown as an invalid URL. */
  datatype UrlError = UrlRequired | UrlTooLong | InvalidUrl(reason: InvalidReason)

  /** `security`: `allowedDomains` and `maxUrlLength`. */
  datatype SecurityConfig = SecurityConfig(allowedDomains: seq<string>, maxUrlLength: nat)

  /** `validateUrl`; `hostOf(url)` is the `hostname` of `new URL(url)`, `None`
      when the URL constructor throws. */
  function ValidateUrl(url: string, security: SecurityConfig, hostOf: string -> Option<string>): (r: Outcome<UrlError>)
    ensures r.Pass? <==>
      && url != []
      && Utf16Length(url) <= security.maxUrlLength
      && hostOf(url).Some?
      && (security.allowedDomains == [] || hostOf(url).value in security.allowedDomains)
    ensures r == Fail(UrlRequired) <==> url == []
    ensures r == Fail(UrlTooLong) <==> url != [] && Utf16Length(url) > security.maxUrlLength
    ensures r == Fail(InvalidUrl(Unparseable)) ==> hostOf(url).None?
    ensures r == Fail(InvalidUrl(DomainNotAllowed)) ==>
      hostOf(url).Some? && security.allowedDomains != [] && hostOf(url).value !in security.allowedDomains
    ensures r.Pass? ==> |url| <= security.maxUrlLength
  {
    if url == [] then Fail(UrlRequired)
    else if Utf16Length(url) > security.maxUrlLength then Fail(UrlTooLong)
    else match hostOf(url)
      case None => Fail(InvalidUrl(Unparseable))
      case Some(host) =>
        if security.allowedDomains != [] && host !in security.allowedDomains then Fail(InvalidUrl(DomainNotAllowed))
        else Pass
  }

  // ----- cache key -----

  /** `JSON.stringify({})`: the options every caller in the service passes. */
  const DefaultOptionsJson: string := "{}"

  /** `getCacheKey`: the URL, a colon, and the serialised options. */
  function CacheKey(url: string, optionsJson: string): (key: string)
    ensures |key| == |url| + 1 + |optionsJson|
    ensures key[..|url|] == url && key[|url|] == ':' && key[|url| + 1..] == optionsJson
  {
    url + ":" + optionsJson
  }

  /** With the same options, different URLs get different keys. */
  lemma CacheKeySeparatesUrls(u1: string, u2: string, optionsJson: string)
    requires CacheKey(u1, optionsJson) == CacheKey(u2, optionsJson)
    ensures u1 == u2
  {
    var k := CacheKey(u1, optionsJson);
    assert |u1| == |u2|;
    assert u1 == k[..|u1|] == u2;
  }

  /** With the same URL, different options get different keys. */
  lemma CacheKeySeparatesOptions(url: string, o1: string, o2: string)
    requires CacheKey(url, o1) == CacheKey(url, o2)
    ensures o1 == o2
  {
    var k := CacheKey(url, o1);
    assert o1 == k[|url| + 1..] == o2;
  }

  // ----- request blocking -----

  /** The URL fragments whose requests are aborted. */
  const BlockedUrlParts: seq<string> := [
    "google-analytics", "googletagmanager", "facebook.com/tr", "doubleclick.net",
    "mc.yandex.ru", "metrika", "yandex.ru/watch", "tag.js", "voiceflow.com"
  ]

  /** Whether `url` contains one of `parts`. */
  function IncludesAny(url: string, parts: seq<string>): (r: bool)
    ensures r <==> exists i :: 0 <= i < |parts| && Includes(url, parts[i])
  {
    if parts == [] then false
    else Includes(url, parts[0]) || (assert forall i :: 0 < i < |parts| ==> parts[i] == parts[1..][i - 1];
                                     IncludesAny(url, parts[1..]))
  }

  /** The interception rule of `setupPage`: a request is aborted iff it loads
      a font or its URL contains one of the blocked fragments; every other
      request is continued. */
  function ShouldAbort(resourceType: string, url: string): (abort: bool)
    ensures abort <==> resourceType == "font" || exists i :: 0 <= i < |BlockedUrlParts| && Includes(url, BlockedUrlParts[i])
  {
    resourceType == "font" || IncludesAny(url, BlockedUrlParts)
  }

  /** Blocking is by substring, so a blocked URL stays blocked inside any
      longer URL (query strings, paths, other hosts). */
  lemma BlockedStaysBlocked(resourceType: string, url: string, before: string, after: string)
    requires ShouldAbort(resourceType, url)
    ensures ShouldAbort(resourceType, before + url + after)
  {
    if resourceType != "font" {
      var i :| 0 <= i < |BlockedUrlParts| && Includes(url, BlockedUrlParts[i]);
      IncludesInContext(url, BlockedUrlParts[i], before, after);
    }
  }

  // ----- render results and batches -----

  /** `PrerenderResult`; `duration` is absent on cache hits. */
  datatype PrerenderResult = PrerenderResult(html: string, fromCache: bool, duration: Option<int>)

  /** How one `render` call ended, for the callers that await it. */
  datatype RenderReply = Rendered(result: PrerenderResult) | RenderError(message: string)

  /** One record of `renderBatch`. */
  datatype BatchItem = BatchItem(url: string, success: bool, fromCache: bool, duration: int, error: Option<string>)

  /** The record for one URL: a success copies `fromCache` and uses
      `duration || 0`; a failure has `fromCache = false`, `duration = 0` and
      the error message. */
  function BatchItemFor(url: string, reply: RenderReply): (item: BatchItem)
    ensures item.url == url
    ensures item.success <==> reply.Rendered?
    ensures reply.Rendered? ==>
      item == BatchItem(url, true, reply.result.fromCache, reply.result.duration.GetOr(0), None)
    ensures reply.RenderError? ==> item == BatchItem(url, false, false, 0, Some(reply.message))
  {
    match reply
    case Rendered(result) => BatchItem(url, true, result.fromCache, result.duration.GetOr(0), None)
    case RenderError(message) => BatchItem(url, false, false, 0, Some(message))
  }

  /** `renderBatch`: one record per URL, in the order given, where `replies(i)`
      is how the render of `urls[i]` ended; a failure never aborts the batch. */
  function RenderBatch(urls: seq<string>, replies: nat -> RenderReply): (items: seq<BatchItem>)
    ensures |items| == |urls|
    ensures forall i :: 0 <= i < |urls| ==> items[i].url == urls[i] && (items[i].success <==> replies(i).Rendered?)
    ensures forall i :: 0 <= i < |urls| && replies(i).RenderError? ==>
      !items[i].fromCache && items[i].duration == 0 && items[i].error == Some(replies(i).message)
    ensures forall i :: 0 <= i < |urls| && replies(i).Rendered? ==>
      && items[i].fromCache == replies(i).result.fromCache && items[i].duration == replies(i).result.duration.GetOr(0)
      && items[i].error.None?
  {
    var items := seq(|urls|, i requires 0 <= i < |urls| => BatchItemFor(urls[i], replies(i)));
    assert forall i :: 0 <= i < |urls| ==> items[i] == BatchItemFor(urls[i], replies(i));
    items
  }

  /** Cache hits carry no duration, so their batch records report 0. */
  lemma CacheHitsReportZeroDuration(urls: seq<string>, replies: nat -> RenderReply, i: nat)
    requires i < |urls| && replies(i).Rendered? && replies(i).result.duration.None?
    ensures RenderBatch(urls, replies)[i].duration == 0
  {
  }

  // ----- sitemap extraction -----

  /** One `<url>` element as parsed: its `loc` children, if any. */
  datatype UrlEntry = UrlEntry(loc: Option<seq<string>>)

  /** The `<urlset>` element: its `url` children, if any. */
  datatype UrlSet = UrlSet(url: Option<seq<UrlEntry>>)

  /** The parsed sitemap document. */
  datatype SitemapTree = SitemapTree(urlset: Option<UrlSet>)

  /** `u.loc && u.loc[0]`: the first `<loc>` text, when there is one and it is
      not empty. */
  function EntryLoc(u: UrlEntry): (loc: Option<string>)
    ensures loc.Some? <==> u.loc.Some? && |u.loc.value| > 0 && u.loc.value[0] != []
    ensures loc.Some? ==> loc.value == u.loc.value[0]
  {
    if u.loc.Some? && |u.loc.value| > 0 && u.loc.value[0] != [] then Some(u.loc.value[0]) else None
  }

  /** The `<url>` elements, or none when the document has no `urlset.url`. */
  function UrlEntries(tree: SitemapTree): seq<UrlEntry> {
    if tree.urlset.Some? && tree.urlset.value.url.Some? then tree.urlset.value.url.value else []
  }

  /** The page URLs of a list of `<url>` elements, in document order. */
  function LocsOf(entries: seq<UrlEntry>): seq<string> {
    if entries == [] then []
    else
      var last := entries[|entries| - 1];
      LocsOf(entries[..|entries| - 1]) + (if EntryLoc(last).Some? then [EntryLoc(last).value] else [])
  }

  /** Extraction never yields more URLs than there are elements. */
  lemma {:induction false} LocsOfBounded(entries: seq<UrlEntry>)
    ensures |LocsOf(entries)| <= |entries|
  {
    if entries != [] {
      LocsOfBounded(entries[..|entries| - 1]);
    }
  }

  /** Every extracted URL is non-empty and is the first `<loc>` of some
      element. */
  lemma {:induction false} LocsOfSound(entries: seq<UrlEntry>, u: string)
    requires u in LocsOf(entries)
    ensures u != [] && exists j :: 0 <= j < |entries| && EntryLoc(entries[j]) == Some(u)
  {
    var n := |entries| - 1;
    var init := entries[..n];
    if u in LocsOf(init) {
      LocsOfSound(init, u);
      var j :| 0 <= j < |init| && EntryLoc(init[j]) == Some(u);
      assert entries[j] == init[j];
    } else {
      assert EntryLoc(entries[n]) == Some(u);
    }
  }

  /** When every element has a usable `<loc>`, none is dropped and the order
      is kept: the i-th URL is that of the i-th element. */
  lemma {:induction false} LocsOfComplete(entries: seq<UrlEntry>)
    requires forall j :: 0 <= j < |entries| ==> EntryLoc(entries[j]).Some?
    ensures |LocsOf(entries)| == |entries|
    ensures forall j :: 0 <= j < |entries| ==> LocsOf(entries)[j] == EntryLoc(entries[j]).value
  {
    if entries != [] {
      var init := entries[..|entries| - 1];
      assert forall j :: 0 <= j < |init| ==> init[j] == entries[j];
      LocsOfComplete(init);
    }
  }

  /** A single element contributes its usable `<loc>`, or nothing. */
  lemma LocsOfOne(u: UrlEntry)
    ensures LocsOf([u]) == if EntryLoc(u).Some? then [EntryLoc(u).value] else []
  {
    assert [u][..0] == [];
  }

  /** Extraction works element by element: the URLs of two runs of elements
      are those of the first run followed by those of the second, so every
      usable `<loc>` comes out, once, in document order. */
  lemma {:induction false} LocsOfAppend(a: seq<UrlEntry>, b: seq<UrlEntry>)
    ensures LocsOf(a + b) == LocsOf(a) + LocsOf(b)
  {
    if b == [] {
      assert a + b == a;
    } else {
      var init := b[..|b| - 1];
      var last := b[|b| - 1];
      LocsOfAppend(a, init);
      assert (a + b)[..|a + b| - 1] == a + init;
      assert (a + b)[|a + b| - 1] == last;
      var tail := if EntryLoc(last).Some? then [EntryLoc(last).value] else [];
      calc {
        LocsOf(a + b);
        LocsOf(a + init) + tail;
        LocsOf(a) + LocsOf(init) + tail;
        LocsOf(a) + (LocsOf(init) + tail);
      }
    }
  }

  /** The `<loc>` loop of `parseSitemap`, over the already-parsed document. */
  method ExtractLocs(tree: SitemapTree) returns (urls: seq<string>)
    ensures urls == LocsOf(UrlEntries(tree))
  {
    urls := [];
    if tree.urlset.Some? && tree.urlset.value.url.Some? {
      var entries := tree.urlset.value.url.value;
      var i := 0;
      while i < |entries|
        invariant 0 <= i <= |entries|
        invariant urls == LocsOf(entries[..i])
      {
        var u := entries[i];
        if u.loc.Some? && |u.loc.value| > 0 && u.loc.value[0] != [] {
          urls := urls + [u.loc.value[0]];
        }
        assert entries[..i + 1][..i] == entries[..i];
        i := i + 1;
      }
      assert entries[..i] == entries;
    }
  }

  // ----- auto-warmup -----

  /** The period of the auto-warmup timer in seconds: half the page TTL
      (3600 when the store has no numeric TTL), but at least 60. For a TTL of
      120 seconds or more, a re-warm comes at least once per half TTL. */
  function AutoWarmupIntervalSeconds(stdTTL: Option<nat>): (s: nat)
    ensures s >= 60
    ensures stdTTL.None? ==> s == 1800
    ensures stdTTL.GetOr(3600) >= 120 ==> 2 * s <= stdTTL.GetOr(3600) < 2 * s + 2
    ensures stdTTL.GetOr(3600) < 120 ==> s == 60
  {
    var ttl := stdTTL.GetOr(3600);
    if ttl / 2 < 60 then 60 else ttl / 2
  }

  /** The guard of the timer tick: it re-runs the sitemap warmup on
      `sitemapUrls[0]` when that list is non-empty and no run is in progress. */
  function AutoWarmupTarget(sitemapUrls: seq<string>, inProgress: bool): (target: Option<string>)
    ensures target.Some? <==> sitemapUrls != [] && !inProgress
    ensures target.Some? ==> target.value == sitemapUrls[0]
  {
    if sitemapUrls != [] && !inProgress then Some(sitemapUrls[0]) else None
  }

  /** `sitemapUrls` holds the page URLs of the last sitemap, so the tick
      re-warms the first page listed rather than the sitemap itself. */
  lemma AutoWarmupTargetsFirstPage(tree: SitemapTree)
    requires UrlEntries(tree) != [] && EntryLoc(UrlEntries(tree)[0]).Some?
    ensures AutoWarmupTarget(LocsOf(UrlEntries(tree)), false) == EntryLoc(UrlEntries(tree)[0])
  {
    var entries := UrlEntries(tree);
    LocsOfFirst(entries);
  }

  /** The first extracted URL is the `<loc>` of the first element when that
      element has one. */
  lemma {:induction false} LocsOfFirst(entries: seq<UrlEntry>)
    requires entries != [] && EntryLoc(entries[0]).Some?
    ensures LocsOf(entries) != [] && LocsOf(entries)[0] == EntryLoc(entries[0]).value
  {
    if |entries| > 1 {
      var init := entries[..|entries| - 1];
      assert init[0] == entries[0];
      LocsOfFirst(init);
    }
  }

  // ----- active-render alert latch -----

  /** The number of simultaneous renders that raises an alert. */
  const ActiveRendersThreshold: nat := 7

  /** `checkActiveRenders` on the latched level and the active count: the new
      level is the count when it is at the threshold or above and 0 below it;
      an alert goes out iff the count is at the threshold or above and
      differs from the latched level. */
  function AlertStep(level: nat, active: nat): (r: (nat, bool))
    ensures r.0 == if active >= ActiveRendersThreshold then active else 0
    ensures r.1 <==> active >= ActiveRendersThreshold && active != level
  {
    var (level1, sent) :=
      if active >= ActiveRendersThreshold && level != active then (active, true) else (level, false);
    (if active < ActiveRendersThreshold then 0 else level1, sent)
  }

  /** A second check at the same count sends nothing. */
  lemma AlertNotRepeated(level: nat, active: nat)
    ensures !AlertStep(AlertStep(level, active).0, active).1
  {
  }

  /** Falling below the threshold re-arms the latch: the next crossing alerts
      again, even at the count alerted before. */
  lemma AlertRearms(level: nat, low: nat, high: nat)
    requires low < ActiveRendersThreshold <= high
    ensures AlertStep(AlertStep(level, low).0, high).1
  {
  }

  // ----- admission gate -----

  /** A waiter in `renderQueue`, standing for its `resolve` callback. */
  type Waiter = nat

  /** `processQueue`: while the queue is non-empty and the active count is
      below the limit, wake the head. The loop never changes the active
      count, so it wakes every waiter at once or none. */
  function Drain(queue: seq<Waiter>, active: nat, max: nat): (r: (seq<Waiter>, seq<Waiter>))
    ensures r.0 + r.1 == queue
    ensures r.1 == [] || active >= max
    ensures r.0 == queue || r.0 == []
    ensures r.0 != [] ==> active < max
  {
    if active < max then (queue, []) else ([], queue)
  }

  // ----- render counters -----

  /** The `stats` record of the service. */
  datatype RenderStats = RenderStats(totalRequests: nat, successfulRenders: nat, errors: nat, cacheHits: nat)

  const ZeroRenderStats := RenderStats(0, 0, 0, 0)

  /** The counter increments made by `render`: every call counts a request,
      and then a cache hit, a successful render or an error. */
  datatype Tally = Request | Hit | Succeeded | Errored

  function Bump(s: RenderStats, t: Tally): RenderStats {
    match t
    case Request => s.(totalRequests := s.totalRequests + 1)
    case Hit => s.(cacheHits := s.cacheHits + 1)
    case Succeeded => s.(successfulRenders := s.successfulRenders + 1)
    case Errored => s.(errors := s.errors + 1)
  }

  function Finished(s: RenderStats): nat {
    s.cacheHits + s.successfulRenders + s.errors
  }

  /** A completed `render` adds one request and exactly one of a cache hit, a
      successful render or an error. */
  lemma CompletedRenderCountsOnce(s: RenderStats, t: Tally)
    requires t != Request
    ensures var s' := Bump(Bump(s, Request), t);
            && s'.totalRequests == s.totalRequests + 1
            && Finished(s') == Finished(s) + 1
            && (s'.cacheHits > s.cacheHits <==> t == Hit)
            && (s'.successfulRenders > s.successfulRenders <==> t == Succeeded)
            && (s'.errors > s.errors <==> t == Errored)
  {
  }

  // ----- sitemap warmup -----

  /** `WarmupStatus`. */
  datatype WarmupStatus = WarmupStatus(
    inProgress: bool, total: nat, done: nat, errors: nat, queue: seq<string>,
    startedAt: Option<int>, finishedAt: Option<int>, lastError: Option<string>)

  const IdleWarmup := WarmupStatus(false, 0, 0, 0, [], None, None, None)

  /** A message to the notification channel. */
  datatype Notice =
    | WarmupStarted
    | WarmupProgress(percent: nat, done: nat, total: nat)
    | WarmupFinished
    | WarmupFailed(message: string)
    | ActiveRendersAlert(active: nat)

  datatype WarmupError = WarmupAlreadyRunning

  /** The quantities the warmup loop updates: counts, last error, the last
      notified percentage and the progress messages so far. */
  datatype Sweep = Sweep(done: nat, errors: nat, lastError: Option<string>, lastProgress: nat, notices: seq<Notice>)

  /** The progress percentage, `floor(done / total * 100)` computed exactly. */
  function Percent(done: nat, total: nat): nat
    requires total > 0
  {
    (done * 100) / total
  }

  /** The percentage of a partial run is at most 100, and exactly 100 once
      every URL is done. */
  lemma PercentBounds(done: nat, total: nat)
    requires 0 < total && done <= total
    ensures Percent(done, total) <= 100
    ensures done == total ==> Percent(done, total) == 100
  {
    assert done * 100 <= total * 100;
    assert (total * 100) / total == 100;
  }

  /** One iteration of the warmup loop for a render that ended with `reply`. */
  function SweepStep(s: Sweep, reply: RenderReply, total: nat): Sweep
    requires total > 0
  {
    var s1 := match reply
      case Rendered(_) => s.(done := s.done + 1)
      case RenderError(m) => s.(errors := s.errors + 1, lastError := Some(m));
    var p := Percent(s1.done, total);
    if p - s1.lastProgress >= 10 then
      s1.(lastProgress := p, notices := s1.notices + [WarmupProgress(p, s1.done, total)])
    else s1
  }

  /** The loop state after the first `n` of `total` URLs, the i-th render
      having ended with `replies(i)`. */
  function SweepAfter(replies: nat -> RenderReply, total: nat, n: nat): Sweep
    requires n <= total
  {
    if n == 0 then Sweep(0, 0, None, 0, [])
    else SweepStep(SweepAfter(replies, total, n - 1), replies(n - 1), total)
  }

  /** The number of renders among the first `n` that succeeded. */
  function CountRendered(replies: nat -> RenderReply, n: nat): nat {
    if n == 0 then 0 else CountRendered(replies, n - 1) + (if replies(n - 1).Rendered? then 1 else 0)
  }

  /** Progress messages carry percentages of at most 100, the first at
      least 10 and each at least 10 above the one before; the last is the
      latched percentage. */
  ghost predicate ProgressSpaced(ns: seq<Notice>, last: nat) {
    && (forall i :: 0 <= i < |ns| ==> ns[i].WarmupProgress? && ns[i].percent <= 100)
    && (ns == [] ==> last == 0)
    && (ns != [] ==> ns[0].percent >= 10 && ns[|ns| - 1].percent == last)
    && (forall i :: 0 < i < |ns| ==> ns[i].percent >= ns[i - 1].percent + 10)
  }

  /** Every URL is counted once, as done or as an error, and `done` counts
      the successful renders. */
  lemma {:induction false} SweepCounts(replies: nat -> RenderReply, total: nat, n: nat)
    requires n <= total
    ensures SweepAfter(replies, total, n).done + SweepAfter(replies, total, n).errors == n
    ensures SweepAfter(replies, total, n).done == CountRendered(replies, n)
  {
    if n > 0 {
      SweepCounts(replies, total, n - 1);
    }
  }

  /** The progress messages of a run are spaced at least 10 points apart. */
  lemma {:induction false} SweepProgressSpaced(replies: nat -> RenderReply, total: nat, n: nat)
    requires n <= total
    ensures ProgressSpaced(SweepAfter(replies, total, n).notices, SweepAfter(replies, total, n).lastProgress)
  {
    if n > 0 {
      SweepProgressSpaced(replies, total, n - 1);
      SweepCounts(replies, total, n);
      PercentBounds(SweepAfter(replies, total, n).done, total);
    }
  }

  /** Hence a run sends at most ten progress messages. */
  lemma {:induction false} ProgressAtMostTen(ns: seq<Notice>, last: nat)
    requires ProgressSpaced(ns, last)
    ensures |ns| <= 10
  {
    if ns != [] {
      var k := |ns| - 1;
      ProgressGrows(ns, last, k);
    }
  }

  lemma {:induction false} ProgressGrows(ns: seq<Notice>, last: nat, k: nat)
    requires ProgressSpaced(ns, last) && k < |ns|
    ensures ns[k].percent >= 10 * (k + 1)
  {
    if k > 0 {
      ProgressGrows(ns, last, k - 1);
    }
  }

  /** The part of the service's state a sitemap warmup touches. */
  datatype WarmupState = WarmupState(status: WarmupStatus, sitemapUrls: seq<string>, lastProgress: nat, outbox: seq<Notice>)

  /** `warmupBySitemap`, where `fetched` is the downloaded and parsed sitemap
      (or the message of the failure), `replies(i)` is how the render of the
      i-th listed page ended, and the run starts at `startedAt` and ends at
      `finishedAt`. A run is refused while another is in progress; a failed
      download ends the run with its message as `lastError`, no
      `finishedAt` and the previous page list kept. */
  function WarmupRun(s: WarmupState, fetched: Result<SitemapTree, string>, replies: nat -> RenderReply,
                     startedAt: int, finishedAt: int): (WarmupState, Result<WarmupStatus, WarmupError>)
  {
    if s.status.inProgress then (s, Failure(WarmupAlreadyRunning))
    else
      match fetched
      case Failure(message) =>
        var st := WarmupStatus(false, 0, 0, 0, [], Some(startedAt), None, Some(message));
        (s.(status := st, outbox := s.outbox + [WarmupStarted, WarmupFailed(message)]), Success(st))
      case Success(tree) =>
        var urls := LocsOf(UrlEntries(tree));
        var sw := SweepAfter(replies, |urls|, |urls|);
        var st := WarmupStatus(false, |urls|, sw.done, sw.errors, [], Some(startedAt), Some(finishedAt), sw.lastError);
        (WarmupState(st, urls, sw.lastProgress, s.outbox + [WarmupStarted] + sw.notices + [WarmupFinished]), Success(st))
  }

  /** A run is refused exactly when one is in progress, and then changes
      nothing; an accepted run never leaves the service marked in progress,
      and returns the status it leaves behind. */
  lemma WarmupRunSettles(s: WarmupState, fetched: Result<SitemapTree, string>, replies: nat -> RenderReply, startedAt: int, finishedAt: int)
    ensures var (t, r) := WarmupRun(s, fetched, replies, startedAt, finishedAt);
            && (r.Failure? <==> s.status.inProgress)
            && (r.Failure? ==> t == s)
            && (r.Success? ==> !t.status.inProgress && r.value == t.status && t.status.startedAt == Some(startedAt))
            && (r.Success? ==> |t.outbox| >= |s.outbox| + 2 && t.outbox[..|s.outbox|] == s.outbox && t.outbox[|s.outbox|] == WarmupStarted)
  {
  }

  /** A completed run lists the extracted pages, accounts for every one of
      them as done or failed with an empty queue, counts as done exactly the
      successful renders, and sends at most ten progress messages. */
  lemma WarmupRunAccounts(s: WarmupState, tree: SitemapTree, replies: nat -> RenderReply, startedAt: int, finishedAt: int)
    requires !s.status.inProgress
    ensures var (t, r) := WarmupRun(s, Success(tree), replies, startedAt, finishedAt);
            var sw := SweepAfter(replies, |t.sitemapUrls|, |t.sitemapUrls|);
            && t.sitemapUrls == LocsOf(UrlEntries(tree))
            && t.status.total == |t.sitemapUrls|
            && t.status.done + t.status.errors == t.status.total
            && t.status.done == CountRendered(replies, t.status.total)
            && t.status.queue == []
            && t.status.finishedAt == Some(finishedAt)
            && t.outbox == s.outbox + [WarmupStarted] + sw.notices + [WarmupFinished]
            && |sw.notices| <= 10
            && ProgressSpaced(sw.notices, t.lastProgress)
  {
    var urls := LocsOf(UrlEntries(tree));
    SweepCounts(replies, |urls|, |urls|);
    SweepProgressSpaced(replies, |urls|, |urls|);
    var sw := SweepAfter(replies, |urls|, |urls|);
    ProgressAtMostTen(sw.notices, sw.lastProgress);
  }

  /** A failed download keeps the previous page list and the progress latch,
      records the failure message and reports it, and sets no end time. */
  lemma WarmupRunFetchFailure(s: WarmupState, message: string, replies: nat -> RenderReply, startedAt: int, finishedAt: int)
    requires !s.status.inProgress
    ensures var (t, r) := WarmupRun(s, Failure(message), replies, startedAt, finishedAt);
            && t.sitemapUrls == s.sitemapUrls && t.lastProgress == s.lastProgress
            && t.status.lastError == Some(message) && t.status.finishedAt.None?
            && t.status.total == 0 && t.outbox == s.outbox + [WarmupStarted, WarmupFailed(message)]
  {
  }

  /** When every render fails nothing is counted done and the last failure's
      message is kept. */
  lemma {:induction false} SweepAllFailed(replies: nat -> RenderReply, total: nat, n: nat)
    requires n <= total
    requires forall i :: 0 <= i < n ==> replies(i).RenderError?
    ensures SweepAfter(replies, total, n).done == 0
    ensures SweepAfter(replies, total, n).errors == n
    ensures n > 0 ==> SweepAfter(replies, total, n).lastError == Some(replies(n - 1).message)
    ensures SweepAfter(replies, total, n).notices == []
  {
    if n > 0 {
      SweepAllFailed(replies, total, n - 1);
    }
  }
}
