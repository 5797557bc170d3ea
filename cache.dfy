/** The two-region cache of `CacheService`: rendered pages (kept by an
    external TTL store, here an abstract key-to-entry map) and fetched
    sub-resources (a JavaScript `Map` bounded by entry count, evicting in
    insertion order), with hit and miss counters for both regions. */
module Cache {
  import opened Wrappers
  import opened Seqs
  import Text

  /** A page as `setPage` stores it; times are milliseconds, `ttl` seconds. */
  datatype CachedPage = CachedPage(html: string, timestamp: int, size: nat, createdAt: int, ttl: nat)

  /** A resource payload: a `Buffer` or a string. */
  datatype ResourceData = BufferData(bytes: seq<bv8>) | StringData(text: string)

  datatype CachedResource = CachedResource(data: ResourceData, timestamp: int, size: nat)

  /** The four counters of the `stats` record. */
  datatype HitCounters = HitCounters(pageHits: nat, pageMisses: nat, resourceHits: nat, resourceMisses: nat)

  const ZeroCounters := HitCounters(0, 0, 0, 0)

  datatype RegionStats = RegionStats(keys: nat, hits: nat, misses: nat, hitRate: real, memoryUsage: nat)

  datatype CacheStats = CacheStats(pages: RegionStats, resources: RegionStats, totalHits: nat, totalMisses: nat)

  /** What `getPageCacheInfo` reports. */
  datatype PageInfo = Absent | Present(createdAt: int, expiresAt: int, ttl: nat, remaining: nat)

  /** The TTL used when the page store has none configured. */
  const DefaultPageTtl: nat := 3600

  /** `stdTTL || 3600`: an unset or zero store TTL falls back to the default. */
  function PageTtl(stdTTL: Option<nat>): (ttl: nat)
    ensures ttl > 0
    ensures stdTTL.Some? && stdTTL.value > 0 ==> ttl == stdTTL.value
    ensures stdTTL.None? || stdTTL.value == 0 ==> ttl == DefaultPageTtl
  {
    if stdTTL.Some? && stdTTL.value > 0 then stdTTL.value else DefaultPageTtl
  }

  /** The entry `setPage` builds for `html` at time `now`. */
  function PageEntry(html: string, now: int, ttl: nat): (p: CachedPage)
    ensures p.html == html && p.createdAt == now && p.timestamp == now && p.ttl == ttl
    ensures p.size == Text.Utf8Length(html) && |html| <= p.size <= 4 * |html|
  {
    CachedPage(html, now, Text.Utf8Length(html), now, ttl)
  }

  /** `data.length` for a buffer, the UTF-8 byte length for a string. */
  function DataSize(d: ResourceData): nat {
    match d
    case BufferData(b) => |b|
    case StringData(t) => Text.Utf8Length(t)
  }

  /** `hits / (hits + misses) || 0`: the share of lookups that hit, and 0
      (not NaN) before the first lookup. */
  function HitRate(hits: nat, misses: nat): (r: real)
    ensures 0.0 <= r <= 1.0
    ensures hits + misses == 0 ==> r == 0.0
    ensures hits + misses > 0 ==> r * (hits + misses) as real == hits as real
    ensures r == 0.0 <==> hits == 0
    ensures r == 1.0 <==> hits > 0 && misses == 0
  {
    if hits + misses == 0 then 0.0
    else
      var total := (hits + misses) as real;
      var r := hits as real / total;
      assert r * total == hits as real;
      assert (r - 1.0) * total == hits as real - total;
      ProductSign(r, total);
      ProductSign(r - 1.0, total);
      r
  }

  /** Multiplying by a positive number keeps the sign. */
  lemma ProductSign(a: real, b: real)
    requires b > 0.0
    ensures a > 0.0 <==> a * b > 0.0
    ensures a == 0.0 <==> a * b == 0.0
  {
  }

  /** `getPageCacheInfo` for a stored entry: it expires `ttl` seconds after it
      was created, and `remaining` is the whole number of seconds left,
      never negative. */
  function Expiry(page: CachedPage, now: int): (info: PageInfo)
    ensures info.Present?
    ensures info.createdAt == page.createdAt && info.ttl == page.ttl
    ensures info.expiresAt == page.createdAt + page.ttl * 1000
    ensures info.expiresAt - now < 1000 ==> info.remaining == 0
    ensures info.expiresAt - now >= 1000 ==> info.remaining > 0
    ensures info.remaining > 0 ==> info.remaining * 1000 <= info.expiresAt - now < info.remaining * 1000 + 1000
    ensures page.createdAt <= now ==> info.remaining <= page.ttl
    ensures now <= page.createdAt ==> info.remaining >= page.ttl
  {
    var expiresAt := page.createdAt + page.ttl * 1000;
    var seconds := (expiresAt - now) / 1000;
    Present(page.createdAt, expiresAt, page.ttl, if seconds < 0 then 0 else seconds)
  }

  // ----- the resource region as an insertion-ordered map -----

  /** The size bound the region keeps: the configured maximum, but at least
      one, since the entry being set is always stored. */
  function Bound(max: nat): nat {
    if max == 0 then 1 else max
  }

  /** The eviction step of `setResource`: when the map holds `max` entries or
      more, the earliest-inserted key goes. */
  function EvictOldest(keys: seq<string>, max: nat): seq<string> {
    if |keys| >= max && keys != [] then keys[1..] else keys
  }

  /** `Map.prototype.set` on the key order: a present key keeps its place, a
      new key goes last. */
  function Inserted(keys: seq<string>, k: string): seq<string> {
    if k in keys then keys else keys + [k]
  }

  /** The key order after `setResource(k, ...)`. */
  function OrderAfterSet(keys: seq<string>, k: string, max: nat): seq<string> {
    Inserted(EvictOldest(keys, max), k)
  }

  /** The entries after `setResource(k, ...)`. */
  function EntriesAfterSet(keys: seq<string>, m: map<string, CachedResource>, k: string, v: CachedResource, max: nat): map<string, CachedResource> {
    (if |keys| >= max && keys != [] then m - {keys[0]} else m)[k := v]
  }

  /** Eviction and insertion act alike on the key order and on the map, so
      the map's keys stay exactly the ordered keys. */
  lemma SetResourceKeepsDomain(keys: seq<string>, m: map<string, CachedResource>, k: string, v: CachedResource, max: nat)
    requires Distinct(keys) && forall x :: x in m <==> x in keys
    ensures forall x :: x in EntriesAfterSet(keys, m, k, v, max) <==> x in OrderAfterSet(keys, k, max)
  {
    if |keys| >= max && keys != [] {
      forall x ensures x in keys[1..] <==> x in keys && x != keys[0] {
        if x in keys && x != keys[0] {
          var j :| 0 <= j < |keys| && keys[j] == x;
          assert keys[1..][j - 1] == x;
        }
        if x in keys[1..] {
          var j :| 0 <= j < |keys| - 1 && keys[1..][j] == x;
          assert keys[j + 1] == x;
        }
      }
    }
  }

  /** Setting a key keeps the keys duplicate-free, stores the key, and keeps
      the region within its bound. */
  lemma SetResourceKeepsBound(keys: seq<string>, k: string, max: nat)
    requires Distinct(keys) && |keys| <= Bound(max)
    ensures Distinct(OrderAfterSet(keys, k, max))
    ensures k in OrderAfterSet(keys, k, max)
    ensures |OrderAfterSet(keys, k, max)| <= Bound(max)
  {
    var e := EvictOldest(keys, max);
    assert Distinct(e) by {
      forall i, j | 0 <= i < j < |e| ensures e[i] != e[j] {
        if e != keys {
          assert e[i] == keys[i + 1] && e[j] == keys[j + 1];
        }
      }
    }
  }

  /** When the region is full, the earliest-inserted key is evicted, and
      survives only as the key being set, which then moves to the end. */
  lemma SetResourceEvictsOldest(keys: seq<string>, k: string, max: nat)
    requires Distinct(keys) && |keys| >= max && keys != []
    ensures k != keys[0] ==> keys[0] !in OrderAfterSet(keys, k, max)
    ensures k == keys[0] ==> OrderAfterSet(keys, k, max) == keys[1..] + [k]
  {
    assert keys[0] !in keys[1..] by {
      forall j | 0 <= j < |keys| - 1 ensures keys[1..][j] != keys[0] {
        assert keys[1..][j] == keys[j + 1];
      }
    }
  }

  /** A full region evicts even when the key being set is already stored, so
      re-setting a later key shrinks the region by one. */
  lemma SetResourceEvictsEvenWhenPresent(keys: seq<string>, k: string, max: nat)
    requires |keys| >= max && |keys| >= 2 && k in keys[1..]
    ensures OrderAfterSet(keys, k, max) == keys[1..]
    ensures |OrderAfterSet(keys, k, max)| == |keys| - 1
  {
  }

  /** Below the bound, re-setting a stored key keeps its insertion position. */
  lemma SetResourceKeepsPosition(keys: seq<string>, k: string, max: nat)
    requires |keys| < max && k in keys
    ensures OrderAfterSet(keys, k, max) == keys
  {
  }

  /** The sum of the entry sizes, in key order. */
  function TotalSize(keys: seq<string>, m: map<string, CachedResource>): nat
    requires forall k :: k in keys ==> k in m
  {
    if keys == [] then 0 else m[keys[0]].size + TotalSize(keys[1..], m)
  }

  /** Entries under keys outside the order do not count towards the sum. */
  lemma {:induction false} TotalSizeIgnoresOthers(keys: seq<string>, m: map<string, CachedResource>, k: string, v: CachedResource)
    requires forall x :: x in keys ==> x in m
    requires k !in keys
    ensures TotalSize(keys, m[k := v]) == TotalSize(keys, m)
  {
    if keys != [] {
      TotalSizeIgnoresOthers(keys[1..], m, k, v);
    }
  }

  /** Storing a new key adds exactly its size to the memory usage. */
  lemma {:induction false} TotalSizeAppend(keys: seq<string>, m: map<string, CachedResource>, k: string, v: CachedResource)
    requires forall x :: x in keys ==> x in m
    requires k !in keys
    ensures TotalSize(keys + [k], m[k := v]) == TotalSize(keys, m) + v.size
  {
    if keys == [] {
      assert keys + [k] == [k];
    } else {
      assert (keys + [k])[0] == keys[0];
      assert (keys + [k])[1..] == keys[1..] + [k];
      TotalSizeAppend(keys[1..], m, k, v);
    }
  }

  class CacheService {
    /** `cache.resources.maxSize` */
    const maxResourceCacheSize: nat
    /** The page store's `stdTTL` option, `None` when unset. */
    const stdTTL: Option<nat>

    /** The page store's current contents. */
    var pageCache: map<string, CachedPage>
    /** The resource map's keys, in insertion order. */
    var resourceKeys: seq<string>
    var resourceCache: map<string, CachedResource>
    var stats: HitCounters

    ghost predicate Valid()
      reads this
    {
      && Distinct(resourceKeys)
      && (forall k :: k in resourceCache <==> k in resourceKeys)
      && |resourceKeys| <= Bound(maxResourceCacheSize)
    }

    constructor (maxResourceCacheSize: nat, stdTTL: Option<nat>)
      ensures Valid()
      ensures this.maxResourceCacheSize == maxResourceCacheSize && this.stdTTL == stdTTL
      ensures pageCache == map[] && resourceKeys == [] && resourceCache == map[] && stats == ZeroCounters
    {
      this.maxResourceCacheSize := maxResourceCacheSize;
      this.stdTTL := stdTTL;
      pageCache := map[];
      resourceKeys := [];
      resourceCache := map[];
      stats := ZeroCounters;
    }

    /** A lookup in the page region: a hit returns the entry and counts a
        page hit, a miss counts a page miss. */
    method GetPage(url: string) returns (r: Option<CachedPage>)
      requires Valid()
      modifies this
      ensures Valid()
      ensures r == (if url in old(pageCache) then Some(old(pageCache)[url]) else None)
      ensures r.Some? ==> stats == old(stats).(pageHits := old(stats).pageHits + 1)
      ensures r.None? ==> stats == old(stats).(pageMisses := old(stats).pageMisses + 1)
      ensures pageCache == old(pageCache) && resourceKeys == old(resourceKeys) && resourceCache == old(resourceCache)
    {
      if url in pageCache {
        stats := stats.(pageHits := stats.pageHits + 1);
        r := Some(pageCache[url]);
      } else {
        stats := stats.(pageMisses := stats.pageMisses + 1);
        r := None;
      }
    }

    /** Stores `html` under `url`, created now, with the store's TTL. */
    method SetPage(url: string, html: string, now: int)
      requires Valid()
      modifies this
      ensures Valid()
      ensures pageCache == old(pageCache)[url := PageEntry(html, now, PageTtl(stdTTL))]
      ensures resourceKeys == old(resourceKeys) && resourceCache == old(resourceCache) && stats == old(stats)
    {
      var ttl := PageTtl(stdTTL);
      pageCache := pageCache[url := PageEntry(html, now, ttl)];
    }

    /** `getPageCacheInfo`: a pure read of the page region. */
    function PageCacheInfo(url: string, now: int): (info: PageInfo)
      reads this
      ensures info.Absent? <==> url !in pageCache
      ensures info.Present? ==> info == Expiry(pageCache[url], now)
    {
      if url in pageCache then Expiry(pageCache[url], now) else Absent
    }

    /** A lookup in the resource region: a hit returns the entry and counts a
        resource hit, a miss counts a resource miss. */
    method GetResource(url: string) returns (r: Option<CachedResource>)
      requires Valid()
      modifies this
      ensures Valid()
      ensures r == (if url in old(resourceCache) then Some(old(resourceCache)[url]) else None)
      ensures r.Some? ==> stats == old(stats).(resourceHits := old(stats).resourceHits + 1)
      ensures r.None? ==> stats == old(stats).(resourceMisses := old(stats).resourceMisses + 1)
      ensures pageCache == old(pageCache) && resourceKeys == old(resourceKeys) && resourceCache == old(resourceCache)
    {
      if url in resourceCache {
        stats := stats.(resourceHits := stats.resourceHits + 1);
        r := Some(resourceCache[url]);
      } else {
        stats := stats.(resourceMisses := stats.resourceMisses + 1);
        r := None;
      }
    }

    /** Stores a resource: first evicts the earliest-inserted key when the
        region is full, then sets the key in place or at the end. */
    method SetResource(url: string, data: ResourceData, now: int)
      requires Valid()
      modifies this
      ensures Valid()
      ensures resourceKeys == OrderAfterSet(old(resourceKeys), url, maxResourceCacheSize)
      ensures resourceCache == EntriesAfterSet(old(resourceKeys), old(resourceCache), url,
                                               CachedResource(data, now, DataSize(data)), maxResourceCacheSize)
      ensures url in resourceCache && resourceCache[url].data == data
      ensures pageCache == old(pageCache) && stats == old(stats)
    {
      var cached := CachedResource(data, now, DataSize(data));
      SetResourceKeepsBound(resourceKeys, url, maxResourceCacheSize);
      SetResourceKeepsDomain(resourceKeys, resourceCache, url, cached, maxResourceCacheSize);
      if |resourceKeys| >= maxResourceCacheSize && resourceKeys != [] {
        var firstKey := resourceKeys[0];
        resourceKeys := resourceKeys[1..];
        resourceCache := resourceCache - {firstKey};
      }
      if url !in resourceKeys {
        resourceKeys := resourceKeys + [url];
      }
      resourceCache := resourceCache[url := cached];
    }

    method ClearPageCache()
      requires Valid()
      modifies this
      ensures Valid()
      ensures pageCache == map[]
      ensures resourceKeys == old(resourceKeys) && resourceCache == old(resourceCache) && stats == old(stats)
    {
      pageCache := map[];
    }

    method ClearResourceCache()
      requires Valid()
      modifies this
      ensures Valid()
      ensures resourceKeys == [] && resourceCache == map[]
      ensures pageCache == old(pageCache) && stats == old(stats)
    {
      resourceKeys := [];
      resourceCache := map[];
    }

    method ResetStats()
      requires Valid()
      modifies this
      ensures Valid()
      ensures stats == ZeroCounters
      ensures pageCache == old(pageCache) && resourceKeys == old(resourceKeys) && resourceCache == old(resourceCache)
    {
      stats := ZeroCounters;
    }

    /** Empties both regions and zeroes all four counters. */
    method ClearAll()
      requires Valid()
      modifies this
      ensures Valid()
      ensures pageCache == map[] && resourceKeys == [] && resourceCache == map[] && stats == ZeroCounters
    {
      ClearPageCache();
      ClearResourceCache();
      ResetStats();
    }

    /** `getStats`: a snapshot of both regions; `pageVsize` is the page
        store's own memory estimate. */
    function GetStats(pageVsize: nat): (s: CacheStats)
      requires Valid()
      reads this
      ensures s.pages == RegionStats(|pageCache|, stats.pageHits, stats.pageMisses,
                                     HitRate(stats.pageHits, stats.pageMisses), pageVsize)
      ensures s.resources == RegionStats(|resourceKeys|, stats.resourceHits, stats.resourceMisses,
                                         HitRate(stats.resourceHits, stats.resourceMisses),
                                         TotalSize(resourceKeys, resourceCache))
      ensures s.resources.keys <= Bound(maxResourceCacheSize)
      ensures s.totalHits == s.pages.hits + s.resources.hits
      ensures s.totalMisses == s.pages.misses + s.resources.misses
    {
      var pages := RegionStats(|pageCache|, stats.pageHits, stats.pageMisses,
                               HitRate(stats.pageHits, stats.pageMisses), pageVsize);
      var resources := RegionStats(|resourceKeys|, stats.resourceHits, stats.resourceMisses,
                                   HitRate(stats.resourceHits, stats.resourceMisses),
                                   TotalSize(resourceKeys, resourceCache));
      CacheStats(pages, resources, stats.pageHits + stats.resourceHits, stats.pageMisses + stats.resourceMisses)
    }
  }
}
