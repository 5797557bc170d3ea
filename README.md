# SPA-Prerender core in Dafny

SPA-Prerender is a NestJS service that renders single-page applications in a
pool of headless browsers and serves the resulting HTML to crawlers. This
project models the in-memory bookkeeping around rendering and proves
properties of that model:

- **`CacheService`** (`cache.dfy`, a class) has two regions. The page region
  is an abstract key-to-entry map. The resource region is an
  insertion-ordered map bounded by entry count, with FIFO eviction. Each
  region has its own hit and miss counters.
- **`BrowserPoolService`** (`browser_pool.dfy`, a class) is a lease pool over
  two arrays: `browsers` holds every owned handle, and `freeBrowsers` is a
  stack of the idle ones. Browser handles are numbers. A launch either fails
  or yields a handle that no earlier launch produced.
- **`PrerenderService`**:
  - `prerender_rules.dfy` holds the pure rules: URL validation, the cache
    key, the request filter, batch records, `<loc>` extraction and the
    auto-warmup period. It also holds the value-level step functions that
    specify the service's mutable state: the admission gate, the alert latch,
    the counters and the warmup sweep.
  - `prerender.dfy` holds the class itself. The render path is split at its
    waiting points:
    - `Render`: validate, look up the cache, pass the gate.
    - `BeginRender`: mark the render active.
    - `BrowserPoolService.GetBrowser`.
    - `CompleteRender`: store, restart or release, clean up.
- **`AdminController`** (`admin.dfy`): the log-tail pipeline of `getLogs`,
  the admin health report and the cache-clear dispatch.
- **`HealthController`** (`health.dfy`): the check and status derivation.
- **The DTOs** (`dto.dfy`): the validation and defaults of `BatchRenderDto`,
  `WarmupDto`, `ClearCacheDto` and `GetLogsDto` under the global
  transforming validation pipe.
- **Shared helpers**:
  - `wrappers.dfy`: Option, Result, Outcome.
  - `seqs.dfy`: distinctness, reversal, `slice(-n)`.
  - `text.dfy`: substring search, UTF-8 and UTF-16 lengths, JavaScript
    `trim`, `split` and `join`, ASCII lower-casing.

The model replaces everything outside the process with parameters:

- The browser driver:
  - the success of launch attempt `i` is `launch(i)`;
  - a render's result is an HTML string or an error message;
  - a restart's result is `relaunched`.
- URL parsing is `hostOf`.
- The sitemap download and XML parse together are `fetch`.
- The warmup renders' results are `replies(i)`.
- The `IsUrl` validator is `isUrl`.
- The clock is `now`, `startedAt` and `finishedAt`.
- Messages handed to the Telegram channel are appended to the `outbox`
  sequence.

## Where the code and the design differ

The model follows the code in each of these cases:

- A failed `init` leaves the browsers it launched in the pool, still marked
  uninitialised. The next `getBrowser` launches a full pool on top of them
  (`BrowserPool.FailedInitThenRetryOverfills`).
- `getBrowser` takes the most recently freed handle (a stack). A failed
  restart leaves the closed handle owned and counted busy.
  `busy` is `total - free` by definition. It counts exactly the handles held
  by renders, and stays within `0..total`, only while every acquired handle is
  returned exactly once (`BrowserPool.LeaseBoundsBusy`). A double release
  drives `busy` negative
  (`BrowserPool.DoubleReleaseMakesBusyNegative`).
- The admission gate does not bound concurrency. `processQueue` never changes
  the active set, so it wakes every waiter at once
  (`Prerender.GateOvershoots`).
- `setResource` evicts the oldest entry whenever the region is full, even
  when the key being set is already stored
  (`Cache.SetResourceEvictsEvenWhenPresent`).
- A failed sitemap download sets `lastError` but not `finishedAt`. A run
  refused because another is in progress is a `BadRequest`.
- The auto-warmup tick re-warms `sitemapUrls[0]`. That is the first page URL
  of the last sitemap, not the sitemap itself
  (`PrerenderRules.AutoWarmupTargetsFirstPage`).
- Progress messages follow `done` only. Failed renders never advance the
  percentage (`PrerenderRules.SweepAllFailed`).

## Model

| member | source | states |
|---|---|---|
| Cache.PageTtl | src/core/cache.service.ts:71 | the TTL is the store's `stdTTL` when it is set and non-zero, otherwise 3600; it is always positive |
| Cache.PageEntry | src/core/cache.service.ts:70-81 | the stored entry keeps the HTML, has `createdAt = timestamp = now` and the given TTL, and its recorded size is the HTML's UTF-8 byte length, one to four bytes per character |
| Cache.HitRate | src/core/cache.service.ts:160-167 | the rate is exactly 0 with no lookups, otherwise `rate * (hits + misses) = hits`; it lies in [0, 1], is 0 iff there are no hits, and is 1 iff there are hits and no misses |
| Cache.Expiry | src/core/cache.service.ts:92-96 | `expiresAt = createdAt + ttl*1000`; `remaining` is `max(0, floor((expiresAt - now)/1000))`, positive iff at least a second is left; it is at most `ttl` once the entry exists and at least `ttl` before its creation time |
| Cache.SetResourceKeepsDomain | src/core/cache.service.ts:113-126 | eviction and insertion act alike on the key order and on the map, so the map's keys stay exactly the ordered keys |
| Cache.SetResourceKeepsBound | src/core/cache.service.ts:111-128 | after a set the keys stay duplicate-free, the key is stored, and the region holds at most `max` entries (at least 1) |
| Cache.SetResourceEvictsOldest | src/core/cache.service.ts:113-117 | a full region drops its earliest-inserted key; that key survives only as the key being set, which then moves to the end |
| Cache.SetResourceEvictsEvenWhenPresent | src/core/cache.service.ts:113-126 | re-setting a stored later key in a full region still evicts the oldest key, so the region shrinks by one |
| Cache.SetResourceKeepsPosition | src/core/cache.service.ts:126 | below the bound, re-setting a stored key keeps its insertion position (`Map.prototype.set`) |
| Cache.TotalSizeIgnoresOthers | src/core/cache.service.ts:152-153 | entries outside the key order do not add to the resource memory usage |
| Cache.TotalSizeAppend | src/core/cache.service.ts:152-153 | storing a new key adds exactly its size to the memory usage |
| Cache.CacheService.constructor | src/core/cache.service.ts:21-45 | a new cache is empty, with all four counters at zero |
| Cache.CacheService.GetPage | src/core/cache.service.ts:58-68 | returns the stored page iff the key is present; counts a page hit iff it returns one and a page miss otherwise; nothing else changes |
| Cache.CacheService.SetPage | src/core/cache.service.ts:70-81 | the page region maps the key to the new entry with the store TTL; the resource region and counters are unchanged |
| Cache.CacheService.PageCacheInfo | src/core/cache.service.ts:89-97 | reports absent iff the key is not stored, otherwise the entry's expiry |
| Cache.CacheService.GetResource | src/core/cache.service.ts:100-109 | returns the stored resource iff the key is present; counts a resource hit iff it returns one and a resource miss otherwise; nothing else changes |
| Cache.CacheService.SetResource | src/core/cache.service.ts:111-128 | the key order and map become those of one FIFO eviction plus insertion; the key maps to the new data; the bound and the key/map agreement are kept; pages and counters are unchanged |
| Cache.CacheService.ClearPageCache | src/core/cache.service.ts:131-134 | empties the page region and leaves the resource region and counters unchanged |
| Cache.CacheService.ClearResourceCache | src/core/cache.service.ts:136-139 | empties the resource region and leaves the page region and counters unchanged |
| Cache.CacheService.ResetStats | src/core/cache.service.ts:177-184 | zeroes the four counters and leaves both regions unchanged |
| Cache.CacheService.ClearAll | src/core/cache.service.ts:141-146 | empties both regions and zeroes all four counters |
| Cache.CacheService.GetStats | src/core/cache.service.ts:149-175 | a read-only snapshot: each region reports its key count, its own hit and miss counters and their hit rate; resource memory is the sum of entry sizes; the totals add the two regions' counters |
| BrowserPool.StatsOf | src/core/browser-pool.service.ts:113-119 | `total = |browsers|`, `free = |freeBrowsers|`, and `free + busy = total` |
| BrowserPool.LaunchesFrom | src/core/browser-pool.service.ts:30-45 | counts the launches that succeed before the first failure or the pool size; every counted attempt succeeded, and the next attempt, if below the pool size, failed |
| BrowserPool.LeaseBoundsBusy | src/core/browser-pool.service.ts:113-119 | while every owned handle is either free or held, `busy` equals the number of held handles and lies between 0 and `total` |
| BrowserPool.AcquireKeepsLease | src/core/browser-pool.service.ts:61 | popping the last free handle hands out a handle nobody holds and keeps the lease discipline |
| BrowserPool.ReleaseKeepsLease | src/core/browser-pool.service.ts:69-73 | releasing a held handle once keeps the lease discipline |
| BrowserPool.ReplaceKeepsLease | src/core/browser-pool.service.ts:75-94 | a successful restart of a held handle keeps the discipline with the new handle free; a failed one changes nothing |
| BrowserPool.InitKeepsLease | src/core/browser-pool.service.ts:24-49 | `init` keeps the discipline and the freshness of handles; the launched handles are new and free |
| BrowserPool.DoubleReleaseMakesBusyNegative | src/core/browser-pool.service.ts:69-73 | without a duplicate check, releasing one handle twice puts it on the free stack twice, and `busy` becomes -1 |
| BrowserPool.RestartOfFreeHandleLeavesItFree | src/core/browser-pool.service.ts:75-91 | restarting a handle that is also free leaves the closed handle on the free stack |
| BrowserPool.FailedInitThenRetryOverfills | src/core/browser-pool.service.ts:24-54 | a failed `init` keeps its launched handles and stays uninitialised, so the retry adds a full pool on top of them |
| BrowserPool.BrowserPoolService.constructor | src/core/browser-pool.service.ts:10-14 | a new pool is empty and uninitialised |
| BrowserPool.BrowserPoolService.Init | src/core/browser-pool.service.ts:24-49 | an initialised pool is left alone; otherwise the handles launched before the first failure are pushed onto both arrays in order, and the pool is initialised iff all launched |
| BrowserPool.BrowserPoolService.PushLaunched | src/core/browser-pool.service.ts:37-38 | a newly launched browser takes the next fresh handle and is appended to both arrays |
| BrowserPool.BrowserPoolService.GetBrowser | src/core/browser-pool.service.ts:51-67 | a lazy `init`, then the last free handle is popped with `browsers` unchanged; the result reports waiting while no handle is free, or the failure of `init` |
| BrowserPool.BrowserPoolService.ReleaseBrowser | src/core/browser-pool.service.ts:69-73 | appends the handle to the free stack iff the pool owns it |
| BrowserPool.BrowserPoolService.RestartBrowser | src/core/browser-pool.service.ts:75-95 | an unknown handle or a failed relaunch changes nothing; otherwise the new handle takes the old one's slot and is appended to the free stack |
| BrowserPool.BrowserPoolService.Close | src/core/browser-pool.service.ts:97-111 | both arrays are emptied and the pool becomes uninitialised, whatever the individual closes do |
| BrowserPool.BrowserPoolService.GetStats | src/core/browser-pool.service.ts:113-119 | reports the counts of the pool's current state |
| PrerenderRules.ValidateUrl | src/modules/prerender/prerender.service.ts:257-280 | passes iff the URL is non-empty, at most `maxUrlLength` UTF-16 units long, parses, and has an allowed host (or the allow-list is empty); each failure names its reason |
| PrerenderRules.CacheKey | src/modules/prerender/prerender.service.ts:282-285 | the key is the URL, a colon and the serialised options, recoverable by position |
| PrerenderRules.CacheKeySeparatesUrls | src/modules/prerender/prerender.service.ts:282-285 | with the same options, equal keys mean equal URLs |
| PrerenderRules.CacheKeySeparatesOptions | src/modules/prerender/prerender.service.ts:282-285 | with the same URL, equal keys mean equal options |
| PrerenderRules.IncludesAny | src/modules/prerender/prerender.service.ts:212-220 | true iff the URL contains one of the fragments |
| PrerenderRules.ShouldAbort | src/modules/prerender/prerender.service.ts:206-225 | a request is aborted iff it is a font or its URL contains one of the nine blocked fragments; every other request continues |
| PrerenderRules.BlockedStaysBlocked | src/modules/prerender/prerender.service.ts:210-221 | a blocked URL stays blocked inside any longer URL |
| PrerenderRules.BatchItemFor | src/modules/prerender/prerender.service.ts:80-91 | a success copies `fromCache` and uses `duration || 0`; a failure has `fromCache = false`, `duration = 0` and the message |
| PrerenderRules.RenderBatch | src/modules/prerender/prerender.service.ts:78-95 | one record per URL in order; success iff that render succeeded; failures never abort the batch |
| PrerenderRules.CacheHitsReportZeroDuration | src/modules/prerender/prerender.service.ts:84 | a cache hit carries no duration, so its batch record reports 0 |
| PrerenderRules.EntryLoc | src/modules/prerender/prerender.service.ts:409 | yields an element's first `<loc>` iff the element has one and it is not empty |
| PrerenderRules.LocsOfBounded | src/modules/prerender/prerender.service.ts:406-411 | extraction yields no more URLs than there are elements |
| PrerenderRules.LocsOfSound | src/modules/prerender/prerender.service.ts:406-411 | every extracted URL is non-empty and is the first `<loc>` of some element |
| PrerenderRules.LocsOfOne | src/modules/prerender/prerender.service.ts:406-411 | one element contributes its usable `<loc>`, or nothing |
| PrerenderRules.LocsOfAppend | src/modules/prerender/prerender.service.ts:406-411 | extraction works element by element: every usable `<loc>` comes out once, in document order, whatever the other elements hold |
| PrerenderRules.LocsOfComplete | src/modules/prerender/prerender.service.ts:406-411 | when every element has a usable `<loc>`, none is dropped and document order is kept |
| PrerenderRules.LocsOfFirst | src/modules/prerender/prerender.service.ts:406-411 | the first extracted URL is the first element's `<loc>` when it has one |
| PrerenderRules.ExtractLocs | src/modules/prerender/prerender.service.ts:406-412 | the loop yields exactly the extracted list, or nothing when the document has no `urlset.url` |
| PrerenderRules.AutoWarmupIntervalSeconds | src/modules/prerender/prerender.service.ts:420-431 | the period is at least 60 s and 1800 s without a TTL; for a TTL of 120 s or more it is half the TTL, rounded down |
| PrerenderRules.AutoWarmupTarget | src/modules/prerender/prerender.service.ts:433-435 | a tick runs iff the URL list is non-empty and no run is in progress, and it targets the list's first URL |
| PrerenderRules.AutoWarmupTargetsFirstPage | src/modules/prerender/prerender.service.ts:433-436 | after a sitemap run, the tick targets the sitemap's first page URL |
| PrerenderRules.AlertStep | src/modules/prerender/prerender.service.ts:459-467 | the latched level becomes the active count at 7 or above and 0 below; an alert goes out iff the count is at 7 or above and differs from the latched level |
| PrerenderRules.AlertNotRepeated | src/modules/prerender/prerender.service.ts:460-463 | a second check at the same count sends nothing |
| PrerenderRules.AlertRearms | src/modules/prerender/prerender.service.ts:464-466 | dropping below the threshold re-arms the latch, so the next crossing alerts again |
| PrerenderRules.Drain | src/modules/prerender/prerender.service.ts:301-314 | waiters are woken from the head in order; the queue ends empty or the limit is reached; all are woken or none |
| PrerenderRules.CompletedRenderCountsOnce | src/modules/prerender/prerender.service.ts:49-76 | a completed render adds one request and exactly one of a cache hit, a success or an error |
| PrerenderRules.PercentBounds | src/modules/prerender/prerender.service.ts:377 | the percentage is at most 100, and exactly 100 once every URL is done |
| PrerenderRules.SweepCounts | src/modules/prerender/prerender.service.ts:366-375 | after n pages, `done + errors = n` and `done` is the number of successful renders |
| PrerenderRules.SweepProgressSpaced | src/modules/prerender/prerender.service.ts:376-381 | progress messages are at most 100%, the first is at least 10%, each is at least 10 points above the one before, and the last is the latched value |
| PrerenderRules.ProgressAtMostTen | src/modules/prerender/prerender.service.ts:376-381 | a run sends at most ten progress messages |
| PrerenderRules.ProgressGrows | src/modules/prerender/prerender.service.ts:376-381 | the k-th progress message reports at least 10(k+1)% |
| PrerenderRules.WarmupRunSettles | src/modules/prerender/prerender.service.ts:345-394 | a run is refused iff one is in progress, and the refusal changes nothing; an accepted run ends not in progress, returns its final status, and first sends the start message |
| PrerenderRules.WarmupRunAccounts | src/modules/prerender/prerender.service.ts:359-386 | a completed run lists the extracted pages, accounts for every one as done or failed with an empty queue, counts exactly the successful renders as done, and sends at most ten spaced progress messages between start and finish |
| PrerenderRules.WarmupRunFetchFailure | src/modules/prerender/prerender.service.ts:387-392 | a failed download keeps the previous URL list, records and reports the message, and sets no `finishedAt` |
| PrerenderRules.SweepAllFailed | src/modules/prerender/prerender.service.ts:366-382 | when every render fails, nothing is done, every page counts as an error, the last message is kept, and no progress message goes out |
| Prerender.RenderReturnsBrowser | src/modules/prerender/prerender.service.ts:171-190 | a finished render returns its browser under the lease discipline; only a restart whose relaunch fails keeps the dead handle owned and counted busy with nobody holding it |
| Prerender.PrerenderService.constructor | src/modules/prerender/prerender.service.ts:38-47 | a new service has zero counters, no active or queued renders, an idle warmup, and the auto-warmup period derived from the page store's own `stdTTL` (60 s for a TTL of 0) |
| Prerender.PrerenderService.Render | src/modules/prerender/prerender.service.ts:49-76 | counts the request; an invalid URL is rejected and counted as an error before any cache access; a stored page is served from cache and counted as a hit; otherwise the render gets a fresh ticket, counts a page miss, and is admitted iff fewer renders than the limit are active, or else queued |
| Prerender.PrerenderService.WaitForSlot | src/modules/prerender/prerender.service.ts:287-299 | admits iff fewer renders than the limit are active; otherwise appends the ticket to the queue |
| Prerender.PrerenderService.ProcessQueue | src/modules/prerender/prerender.service.ts:301-314 | the queue and the woken waiters are exactly `Drain` of the old queue |
| Prerender.PrerenderService.CheckActiveRenders | src/modules/prerender/prerender.service.ts:459-467 | the latch and outbox follow `AlertStep` on the active count |
| Prerender.PrerenderService.BeginRender | src/modules/prerender/prerender.service.ts:114-116 | the render becomes active and the alert is checked |
| Prerender.PrerenderService.CompleteRender | src/modules/prerender/prerender.service.ts:155-195 | fresh HTML is cached under the request key and counted as a success, and an error is counted; the pool restarts or releases the browser as `PoolAfterRender`; the ticket leaves the active set; the queue is drained and the alert re-checked |
| Prerender.PrerenderService.RecordOutcome | src/modules/prerender/prerender.service.ts:155-177 | the outcome's cache write, counter and reply |
| Prerender.PrerenderService.ReturnBrowser | src/modules/prerender/prerender.service.ts:171-190 | restarts a held browser after a "Protocol error" message and releases it otherwise |
| Prerender.PrerenderService.ResetStats | src/modules/prerender/prerender.service.ts:334-342 | zeroes the render counters and the cache counters and leaves the cache contents unchanged |
| Prerender.PrerenderService.SweepPages | src/modules/prerender/prerender.service.ts:366-382 | the loop ends in the state `SweepAfter` gives, keeping `done + errors + |queue| = total` throughout |
| Prerender.PrerenderService.RecordRender | src/modules/prerender/prerender.service.ts:367-381 | one loop pass is one `SweepStep`, and it keeps `done + errors + |queue|` |
| Prerender.PrerenderService.WarmupBySitemap | src/modules/prerender/prerender.service.ts:345-394 | the new warmup state and the result are exactly `WarmupRun` of the old state; the page renders' own effects are not modelled (see Left out) |
| Prerender.PrerenderService.AutoWarmupTick | src/modules/prerender/prerender.service.ts:432-437 | runs iff the guard holds, changes nothing otherwise, and runs `warmupBySitemap` on the first listed URL |
| Prerender.GateOvershoots | src/modules/prerender/prerender.service.ts:287-314 | with a limit of 1, finishing the one active render wakes both queued waiters, and once they begin, two renders are active |
| Prerender.RenderOnIdle | src/modules/prerender/prerender.service.ts:109-167 | on an idle service with a fresh pool, a first render is admitted, gets a browser, and stores its HTML under the request key |
| Prerender.RenderThenServe | src/modules/prerender/prerender.service.ts:58-64 | a page rendered once is served by the next request for the same URL from the cache, with identical HTML and no duration |
| Health.AnyWith | src/health.controller.ts:30-31 | true iff some check has the status |
| Health.Aggregate | src/health.controller.ts:30-33 | unhealthy iff some check is an error; degraded iff there is no error but some warning; healthy iff all checks are ok |
| Health.RoundedMB | src/health.controller.ts:26 | the nearest whole number of mebibytes, halves rounding up |
| Health.BrowsersCheck | src/health.controller.ts:20-23 | ok iff the pool has a browser, else an error, reporting free and total |
| Health.MemoryCheck | src/health.controller.ts:24-27 | ok iff the heap is below 1 GiB, else a warning, reporting rounded megabytes |
| Health.FailureReport | src/health.controller.ts:41-52 | unhealthy, with a single error check carrying the message, and no uptime |
| Health.GetHealth | src/health.controller.ts:14-53 | the browsers and memory checks folded by `Aggregate` with the uptime, or the failure report |
| Health.HealthStatusFromReadings | src/health.controller.ts:19-33 | unhealthy iff there is no browser; degraded iff there are browsers and the heap is at least 1 GiB; healthy iff there are browsers and the heap is smaller |
| Health.AggregateIgnoresOk | src/modules/admin/admin.controller.ts:163-172 | adding an ok check never changes the folded status |
| Dto.TruncateUrls | src/common/dto/prerender.dto.ts:23 | an array keeps its first `min(10, length)` elements in order; anything else passes unchanged |
| Dto.ValidateUrls | src/common/dto/prerender.dto.ts:21-24 | accepted iff the value is an array whose truncated elements all satisfy `IsUrl`; the result is that prefix |
| Dto.TruncationHidesLaterUrls | src/common/dto/prerender.dto.ts:21-23 | elements past the tenth are never checked, so a batch with ten valid URLs is accepted whatever follows |
| Dto.ValidatePriority | src/common/dto/prerender.dto.ts:33-35 | optional, one of low, normal or high, "normal" when absent |
| Dto.ValidateWarmup | src/common/dto/prerender.dto.ts:27-36 | accepted iff both the `urls` rules and the priority rules pass; a rejection names every failing field |
| Dto.ValidateCacheType | src/common/dto/prerender.dto.ts:44-47 | required, one of all, pages or resources |
| Dto.ValidateLogsQuery | src/common/dto/prerender.dto.ts:56-71 | the level is one of five values, "all" when absent; the limit is an integer from 1 to 1000, 100 when absent; a rejection names exactly the failing fields |
| Admin.MatchLogLineSound | src/modules/admin/admin.controller.ts:108 | every match found fits the log-line pattern |
| Admin.MatchLogLineComplete | src/modules/admin/admin.controller.ts:108 | every line that fits the pattern is matched, with exactly its groups |
| Admin.ToEntry | src/modules/admin/admin.controller.ts:106-120 | a matching line gives its timestamp, lower-cased level and message; any other line gives no timestamp, level "unknown" and the whole line |
| Admin.LoggerLinesAreUnknown | src/core/logger.service.ts:9-11 | lines in the logger's own format never match and become "unknown" entries |
| Admin.TailLines | src/modules/admin/admin.controller.ts:104 | the last `min(limit, n)` lines of the trimmed content, in file order, never empty |
| Admin.TailLinesAreLines | src/modules/admin/admin.controller.ts:104 | no considered line holds a newline, and with no limit the lines joined by newlines give back the trimmed file |
| Admin.Entries | src/modules/admin/admin.controller.ts:106-120 | one entry per line, in order |
| Admin.KeepLevel | src/modules/admin/admin.controller.ts:123-125 | keeps exactly the entries of the given level |
| Admin.KeepLevelAppend | src/modules/admin/admin.controller.ts:123-125 | filtering works entry by entry, so kept entries keep their order and number of copies |
| Admin.KeepLevelOne | src/modules/admin/admin.controller.ts:123-125 | one entry is kept iff it has the level |
| Admin.KeepLevelReverse | src/modules/admin/admin.controller.ts:123-136 | filtering then reversing equals reversing then filtering |
| Admin.GetLogs | src/modules/admin/admin.controller.ts:96-143 | a read failure gives one unfiltered warn entry; otherwise tail, parse, filter and reverse; `totalShown` is the list's length |
| Admin.GetLogsNewestFirst | src/modules/admin/admin.controller.ts:104-136 | without a level filter, the k-th entry shown is that of the k-th line from the end |
| Admin.GetLogsFiltered | src/modules/admin/admin.controller.ts:123-136 | with a level filter, the view holds exactly the tail's entries of the lower-cased level, newest first: it is the newest-first list of all the tail's entries, filtered |
| Admin.GetLogsBounded | src/modules/admin/admin.controller.ts:104-136 | a validated query never shows more than `limit` entries |
| Admin.BlankLogFileShowsOneUnknownEntry | src/modules/admin/admin.controller.ts:103-120 | an empty or blank file is not reported as missing; it shows one "unknown" entry with an empty message |
| Admin.CacheCheck | src/modules/admin/admin.controller.ts:163-166 | the cache check is always ok and reports both regions' key counts |
| Admin.AdminHealth | src/modules/admin/admin.controller.ts:148-192 | the browsers, memory and cache checks folded by `Aggregate`, or the failure report |
| Admin.AdminHealthAgreesWithService | src/modules/admin/admin.controller.ts:154-172 | the admin status equals the health endpoint's status on the same pool and heap readings |
| Admin.ClearCache | src/modules/admin/admin.controller.ts:60-78 | "pages" clears only the page region, "resources" only the resource region, and any other value clears both regions and the counters |

## Left out

- The page store's internals (TTL purging, `maxKeys`, `checkperiod`, `vsize`) belong to the node-cache library, which is not part of this model. The page region is a plain map: no read expires an entry, and `vsize` is a parameter of `GetStats`.
- `deletePage`, `getCacheSize`, `warmupCache`, `PrerenderService.getStats` and `getWarmupStatus` are not modelled. They are a plain delete, the same sums as `GetStats`, fire-and-forget renders, and field reads.
- The admin `getStats`, `resetStats` and `restartBrowsers` handlers, and every response's message and ISO timestamp text, are not modelled. They forward to modelled operations or format output.
- `RenderUrlDto` and the prerender controller are not modelled: they are HTTP plumbing.
- The browser work inside `performRender` (`newPage`, `setupPage` apart from its request filter, `goto`, the settle wait, `autoScroll`, the DOM clean-up, `content`, `page.close`) is represented only by its outcome, the HTML or the error message.
- Prerender.PrerenderService.Render: the waits between `Render`, `BeginRender`, `GetBrowser` and `CompleteRender` are separate atomic steps. Async interleavings, such as the gap between the slot check and the active-set insert, are reasoned about only through `Drain`.
- BrowserPool.BrowserPoolService.GetBrowser: the 100 ms polling loop is not modelled. Its result is `MustWait` while no handle is free.
- Prerender.PrerenderService.CompleteRender: the random render id is a ticket number that is unique by construction.
- Prerender.PrerenderService.WarmupBySitemap: only each page render's reply is modelled, through `replies(i)`. In the source, each warmup page goes through `render`, which counts a request and a hit, success or error. It also stores the fresh HTML in the page cache, leases a browser, and checks the active-renders alert. The model's warmup leaves the render counters, the page cache, the pool and the alert latch unchanged, because it does not model those renders. Telegram delivery, including the token and chat-id check, is the `outbox`.
- PrerenderRules.Percent: it computes `(done*100)/total` exactly. The source computes `Math.floor(done/total*100)` in floating point, which can be one lower (29/100 gives 28).
- Cache.HitRate: it is an exact rational (`real`), not a double.
- Admin.ToEntry: it lower-cases only ASCII letters. The DTO admits only ASCII level names, so the level filter is exact; a parsed level with non-ASCII letters cannot occur, because `\w` is ASCII.
- Text.Utf8Length: each `char` is a code point. Lone surrogates, which `Buffer.byteLength` encodes as 3 bytes, are not distinguished.
- PrerenderRules.ValidateUrl: the `typeof url !== 'string'` branch has no counterpart, because the URL is always a string here.
- The `Dto` module covers only the validators' accept and reject outcomes. The `class-validator` error messages are not modelled.
