/** `BrowserPoolService`: a lease pool over two arrays, `browsers` (every
    handle the pool owns) and `freeBrowsers` (a stack of the idle ones).
    Browser handles are numbers; launching a browser either fails or yields
    a handle no earlier launch produced, modelled by a counter `nextId`. */
module BrowserPool {
  import opened Seqs

  type BrowserId = nat

  /** The pool's fields as a value: the two arrays, the `isInitialized`
      flag, and the next fresh handle the browser driver will produce. */
  datatype PoolState = PoolState(browsers: seq<BrowserId>, free: seq<BrowserId>, initialized: bool, nextId: BrowserId)

  /** What `getStats` reports. */
  datatype BrowserStats = BrowserStats(total: nat, free: nat, busy: int)

  /** The ways `getBrowser` can end: with a handle, still polling because no
      handle is free, or with the error of a failed lazy `init`. */
  datatype Acquisition = Acquired(browser: BrowserId) | MustWait | InitFailed

  /** Every handle in either array was produced before `nextId`. */
  ghost predicate Fresh(p: PoolState) {
    (forall b :: b in p.browsers ==> b < p.nextId) && (forall b :: b in p.free ==> b < p.nextId)
  }

  /** `getStats`. */
  function StatsOf(p: PoolState): (s: BrowserStats)
    ensures s.total == |p.browsers| && s.free == |p.free|
    ensures s.free + s.busy == s.total
  {
    BrowserStats(|p.browsers|, |p.free|, |p.browsers| - |p.free|)
  }

  /** The handles `start`, `start + 1`, ..., `start + k - 1`. */
  function IdRun(start: BrowserId, k: nat): (r: seq<BrowserId>)
    ensures |r| == k
    ensures forall i :: 0 <= i < k ==> r[i] == start + i
  {
    if k == 0 then [] else IdRun(start, k - 1) + [start + k - 1]
  }

  /** How many launches, counted from attempt `i`, succeed before the first
      failure or attempt `n`. */
  function LaunchesFrom(launch: nat -> bool, i: nat, n: nat): (k: nat)
    requires i <= n
    ensures i + k <= n
    ensures forall j :: i <= j < i + k ==> launch(j)
    ensures i + k < n ==> !launch(i + k)
    decreases n - i
  {
    if i == n || !launch(i) then 0 else 1 + LaunchesFrom(launch, i + 1, n)
  }

  /** The effect of `init` with `poolSize` launches, attempt `i` succeeding
      iff `launch(i)`: the handles launched before the first failure are
      pushed onto both arrays, and the pool counts as initialised only when
      all of them launched. An initialised pool is left alone. */
  function Initialized(p: PoolState, poolSize: nat, launch: nat -> bool): (r: (PoolState, bool))
  {
    if p.initialized then (p, true)
    else
      var k := LaunchesFrom(launch, 0, poolSize);
      var run := IdRun(p.nextId, k);
      (PoolState(p.browsers + run, p.free + run, k == poolSize, p.nextId + k), k == poolSize)
  }

  /** `freeBrowsers.pop()`. */
  function Popped(p: PoolState): PoolState
    requires p.free != []
  {
    p.(free := p.free[..|p.free| - 1])
  }

  /** The effect of `getBrowser`: a lazy `init` first; then, if a handle is
      free, the last free one is taken. */
  function Acquire(p: PoolState, poolSize: nat, launch: nat -> bool): (r: (PoolState, Acquisition))
  {
    var (q, ok) := Initialized(p, poolSize, launch);
    if !ok then (q, InitFailed)
    else if q.free == [] then (q, MustWait)
    else (Popped(q), Acquired(q.free[|q.free| - 1]))
  }

  /** `releaseBrowser`: a handle the pool owns is pushed onto the free stack,
      with no check for a handle that is already there. */
  function Released(p: PoolState, h: BrowserId): PoolState {
    if h in p.browsers then p.(free := p.free + [h]) else p
  }

  /** `restartBrowser`: an owned handle is closed and replaced, in its slot,
      by a freshly launched one that becomes free. When closing or launching
      fails the error is swallowed and nothing changes, so the closed handle
      stays in `browsers`. */
  function Replaced(p: PoolState, h: BrowserId, relaunched: bool): PoolState {
    if h !in p.browsers || !relaunched then p
    else
      var i := IndexOf(p.browsers, h);
      PoolState(p.browsers[i := p.nextId], p.free + [p.nextId], p.initialized, p.nextId + 1)
  }

  /** `close`: both arrays emptied and the flag cleared, whatever the
      individual closes do. */
  function Closed(p: PoolState): PoolState {
    PoolState([], [], false, p.nextId)
  }

  // ----- leasing discipline -----

  /** The pool is consistent with the handles `held` by renders: the arrays
      hold no duplicates, and every owned handle is either free or held,
      never both. */
  ghost predicate Leased(p: PoolState, held: set<BrowserId>) {
    && Distinct(p.browsers)
    && Distinct(p.free)
    && (forall h :: h in p.free ==> h in p.browsers && h !in held)
    && (forall h :: h in held ==> h in p.browsers)
    && (forall h :: h in p.browsers ==> h in p.free || h in held)
  }

  /** Under the discipline the busy count is the number of held handles, so
      it lies between 0 and the total. */
  lemma LeaseBoundsBusy(p: PoolState, held: set<BrowserId>)
    requires Leased(p, held)
    ensures StatsOf(p).busy == |held|
    ensures 0 <= StatsOf(p).busy <= StatsOf(p).total
  {
    DistinctCardinality(p.browsers);
    DistinctCardinality(p.free);
    assert Elements(p.browsers) == Elements(p.free) + held;
    assert Elements(p.free) !! held;
  }

  /** Taking the last free handle hands out a handle nobody holds. */
  lemma AcquireKeepsLease(p: PoolState, held: set<BrowserId>)
    requires Leased(p, held) && p.free != []
    ensures p.free[|p.free| - 1] !in held
    ensures Leased(Popped(p), held + {p.free[|p.free| - 1]})
  {
    var h := p.free[|p.free| - 1];
    var q := Popped(p);
    assert p.free == q.free + [h];
    assert h !in q.free by {
      forall j | 0 <= j < |q.free| ensures q.free[j] != h {
        assert q.free[j] == p.free[j];
      }
    }
  }

  /** Releasing a held handle once puts it back and keeps the discipline. */
  lemma ReleaseKeepsLease(p: PoolState, held: set<BrowserId>, h: BrowserId)
    requires Leased(p, held) && h in held
    ensures Leased(Released(p, h), held - {h})
  {
  }

  /** Restarting a held handle keeps the discipline: on success the fresh
      handle is free and the old one is gone; on failure the old handle stays
      owned and counted busy, though nobody holds it any more. */
  lemma ReplaceKeepsLease(p: PoolState, held: set<BrowserId>, h: BrowserId, relaunched: bool)
    requires Leased(p, held) && Fresh(p) && h in held
    ensures relaunched ==> Leased(Replaced(p, h, true), held - {h})
    ensures !relaunched ==> Replaced(p, h, false) == p
  {
    if relaunched {
      var i := IndexOf(p.browsers, h);
      var q := Replaced(p, h, true);
      assert q.browsers == p.browsers[i := p.nextId] && q.browsers[i] == p.nextId;
      assert p.nextId !in p.browsers && p.nextId !in p.free;
      forall x | x in q.browsers ensures x in q.free || x in held - {h} {
        var j :| 0 <= j < |q.browsers| && q.browsers[j] == x;
        if j != i {
          assert x == p.browsers[j] && x != h;
        }
      }
      forall x | x in p.free ensures x in q.browsers {
        var j :| 0 <= j < |p.browsers| && p.browsers[j] == x;
        assert x != h;
        assert j != i && q.browsers[j] == x;
      }
      forall x | x in held - {h} ensures x in q.browsers {
        var j :| 0 <= j < |p.browsers| && p.browsers[j] == x;
        assert j != i && q.browsers[j] == x;
      }
    }
  }

  /** A fresh `init` keeps the discipline: the launched handles are new and
      all free. */
  lemma InitKeepsLease(p: PoolState, held: set<BrowserId>, poolSize: nat, launch: nat -> bool)
    requires Leased(p, held) && Fresh(p)
    ensures Leased(Initialized(p, poolSize, launch).0, held)
    ensures Fresh(Initialized(p, poolSize, launch).0)
  {
    if !p.initialized {
      var k := LaunchesFrom(launch, 0, poolSize);
      var run := IdRun(p.nextId, k);
      var q := Initialized(p, poolSize, launch).0;
      assert q.browsers == p.browsers + run && q.free == p.free + run;
      assert forall x :: x in run ==> x >= p.nextId;
      assert Distinct(p.browsers + run) by {
        forall i, j | 0 <= i < j < |p.browsers + run| ensures (p.browsers + run)[i] != (p.browsers + run)[j] {
          if j >= |p.browsers| && i < |p.browsers| {
            assert (p.browsers + run)[i] in p.browsers;
          }
        }
      }
      assert Distinct(p.free + run) by {
        forall i, j | 0 <= i < j < |p.free + run| ensures (p.free + run)[i] != (p.free + run)[j] {
          if j >= |p.free| && i < |p.free| {
            assert (p.free + run)[i] in p.free;
          }
        }
      }
    }
  }

  /** Without the discipline the counts go wrong: releasing one handle twice
      puts it on the free stack twice and the busy count goes negative. */
  lemma DoubleReleaseMakesBusyNegative()
    ensures var p := PoolState([0], [], true, 1);
            var q := Released(Released(p, 0), 0);
            q.free == [0, 0] && StatsOf(q).busy == -1
  {
  }

  /** Restarting a handle that is also free leaves the closed handle on the
      free stack, where `getBrowser` will hand it out. */
  lemma RestartOfFreeHandleLeavesItFree()
    ensures var q := Replaced(PoolState([0], [0], true, 1), 0, true);
            q.browsers == [1] && q.free == [0, 1] && 0 !in q.browsers
  {
  }

  /** A failed `init` leaves the handles it launched in both arrays and the
      pool uninitialised, so the next `getBrowser` launches a full pool on
      top of them. */
  lemma FailedInitThenRetryOverfills(p: PoolState, poolSize: nat, first: nat -> bool, second: nat -> bool)
    requires !p.initialized
    requires LaunchesFrom(first, 0, poolSize) < poolSize
    requires forall i :: 0 <= i < poolSize ==> second(i)
    ensures var (q, ok) := Initialized(p, poolSize, first);
            !ok && !q.initialized
            && |q.browsers| == |p.browsers| + LaunchesFrom(first, 0, poolSize)
            && |Initialized(q, poolSize, second).0.browsers| == |p.browsers| + LaunchesFrom(first, 0, poolSize) + poolSize
  {
  }

  class BrowserPoolService {
    /** `browser.poolSize` */
    const poolSize: nat

    var browsers: seq<BrowserId>
    var freeBrowsers: seq<BrowserId>
    var isInitialized: bool
    /** The handle the browser driver will produce at the next launch. */
    var nextId: BrowserId

    function State(): PoolState
      reads this
    {
      PoolState(browsers, freeBrowsers, isInitialized, nextId)
    }

    /** Handles are produced once each, so `browsers` never repeats one. */
    ghost predicate Valid()
      reads this
    {
      Fresh(State()) && Distinct(browsers)
    }

    constructor (poolSize: nat)
      ensures Valid()
      ensures this.poolSize == poolSize && State() == PoolState([], [], false, 0)
    {
      this.poolSize := poolSize;
      browsers := [];
      freeBrowsers := [];
      isInitialized := false;
      nextId := 0;
    }

    /** `init`: launches `poolSize` browsers one after another, pushing each
        onto both arrays; the first failed launch ends the loop with an
        error, leaving what was launched in place. */
    method Init(launch: nat -> bool) returns (ok: bool)
      requires Valid()
      modifies this
      ensures Valid()
      ensures (State(), ok) == Initialized(old(State()), poolSize, launch)
    {
      if isInitialized {
        return true;
      }
      ghost var start := nextId;
      var i := 0;
      while i < poolSize
        invariant 0 <= i <= poolSize
        invariant forall j :: 0 <= j < i ==> launch(j)
        invariant nextId == start + i && !isInitialized
        invariant browsers == old(browsers) + IdRun(start, i)
        invariant freeBrowsers == old(freeBrowsers) + IdRun(start, i)
        invariant Valid()
      {
        if !launch(i) {
          assert LaunchesFrom(launch, 0, poolSize) == i;
          return false;
        }
        PushLaunched();
        i := i + 1;
      }
      assert LaunchesFrom(launch, 0, poolSize) == poolSize;
      isInitialized := true;
      ok := true;
    }

    /** Records a browser that has just launched: it takes the next handle
        and is pushed onto both arrays. */
    method PushLaunched()
      requires Valid() && !isInitialized
      modifies this`browsers, this`freeBrowsers, this`nextId
      ensures Valid()
      ensures browsers == old(browsers) + [old(nextId)] && freeBrowsers == old(freeBrowsers) + [old(nextId)]
      ensures nextId == old(nextId) + 1
    {
      var browser := nextId;
      nextId := nextId + 1;
      assert browser !in browsers;
      browsers := browsers + [browser];
      freeBrowsers := freeBrowsers + [browser];
    }

    /** `getBrowser`: a lazy `init`, then the last free handle, or "still
        waiting" while the free stack is empty. */
    method GetBrowser(launch: nat -> bool) returns (r: Acquisition)
      requires Valid()
      modifies this
      ensures Valid()
      ensures (State(), r) == Acquire(old(State()), poolSize, launch)
    {
      if !isInitialized {
        var ok := Init(launch);
        if !ok {
          return InitFailed;
        }
      }
      if freeBrowsers == [] {
        return MustWait;
      }
      r := Acquired(freeBrowsers[|freeBrowsers| - 1]);
      ghost var before := freeBrowsers;
      assert forall b :: b in before ==> b < nextId;
      freeBrowsers := freeBrowsers[..|freeBrowsers| - 1];
      assert forall b :: b in freeBrowsers ==> b in before;
    }

    method ReleaseBrowser(browser: BrowserId)
      requires Valid()
      modifies this
      ensures Valid()
      ensures State() == Released(old(State()), browser)
    {
      if browser in browsers {
        freeBrowsers := freeBrowsers + [browser];
      }
    }

    /** `restartBrowser`; `relaunched` says whether both the close of the old
        browser and the launch of the new one succeeded. */
    method RestartBrowser(browser: BrowserId, relaunched: bool)
      requires Valid()
      modifies this
      ensures Valid()
      ensures State() == Replaced(old(State()), browser, relaunched)
    {
      if browser !in browsers {
        return;
      }
      var index := IndexOf(browsers, browser);
      if !relaunched {
        return;
      }
      var newBrowser := nextId;
      nextId := nextId + 1;
      assert newBrowser !in browsers;
      browsers := browsers[index := newBrowser];
      freeBrowsers := freeBrowsers + [newBrowser];
      assert forall b :: b in browsers ==> b == newBrowser || b in old(browsers) by {
        forall b | b in browsers ensures b == newBrowser || b in old(browsers) {
          var j :| 0 <= j < |browsers| && browsers[j] == b;
          if j != index {
            assert b == old(browsers)[j];
          }
        }
      }
      assert Distinct(browsers) by {
        forall i, j | 0 <= i < j < |browsers| ensures browsers[i] != browsers[j] {
          if i != index && j != index {
            assert browsers[i] == old(browsers)[i] && browsers[j] == old(browsers)[j];
          } else if i == index {
            assert browsers[j] == old(browsers)[j] && old(browsers)[j] in old(browsers);
          } else {
            assert browsers[i] == old(browsers)[i] && old(browsers)[i] in old(browsers);
          }
        }
      }
    }

    method Close()
      requires Valid()
      modifies this
      ensures Valid()
      ensures State() == Closed(old(State()))
    {
      browsers := [];
      freeBrowsers := [];
      isInitialized := false;
    }

    function GetStats(): (s: BrowserStats)
      reads this
      ensures s == StatsOf(State())
    {
      BrowserStats(|browsers|, |freeBrowsers|, |browsers| - |freeBrowsers|)
    }
  }
}
