/** The health report of `HealthController.getHealth`: a record of named
    checks, each ok, warning or error, folded into healthy, degraded or
    unhealthy. The admin health report reuses the same checks and fold. */
module Health {
  import opened Wrappers
  import BrowserPool

  datatype CheckStatus = Ok | Warning | Error

  /** What a check's message reports. */
  datatype CheckDetail =
    | BrowsersFree(free: nat, total: nat)
    | MemoryUsedMB(megabytes: nat)
    | CacheEntries(pages: nat, resources: nat)
    | ErrorMessage(message: string)

  datatype Check = Check(name: string, status: CheckStatus, detail: CheckDetail)

  datatype HealthStatus = Healthy | Degraded | Unhealthy

  /** `HealthCheck`; `uptime` is absent from the failure report. */
  datatype HealthReport = HealthReport(status: HealthStatus, checks: seq<Check>, timestamp: int, uptime: Option<real>)

  /** What the handler reads before building the report: the pool's
      counts and the heap size in bytes. */
  datatype Readings = Readings(browsers: BrowserPool.BrowserStats, heapUsed: nat)

  /** One gibibyte, the heap size from which memory is a warning. */
  const HeapWarningBytes: nat := 1024 * 1024 * 1024

  /** One mebibyte. */
  const MiB: nat := 1024 * 1024

  /** `Object.values(checks).some(check => check.status === s)`. */
  function AnyWith(checks: seq<Check>, s: CheckStatus): (r: bool)
    ensures r <==> exists i :: 0 <= i < |checks| && checks[i].status == s
  {
    if checks == [] then false
    else checks[0].status == s || (assert forall i :: 0 < i < |checks| ==> checks[i] == checks[1..][i - 1];
                                   AnyWith(checks[1..], s))
  }

  /** Unhealthy when some check is an error, else degraded when some check
      is a warning, else healthy. */
  function Aggregate(checks: seq<Check>): (h: HealthStatus)
    ensures h == Unhealthy <==> exists i :: 0 <= i < |checks| && checks[i].status == Error
    ensures h == Degraded <==>
      (forall i :: 0 <= i < |checks| ==> checks[i].status != Error) && exists i :: 0 <= i < |checks| && checks[i].status == Warning
    ensures h == Healthy <==> forall i :: 0 <= i < |checks| ==> checks[i].status == Ok
  {
    if AnyWith(checks, Error) then Unhealthy
    else if AnyWith(checks, Warning) then Degraded
    else Healthy
  }

  /** `Math.round(bytes / 1024 / 1024)`: the nearest whole number of
      mebibytes, halves rounding up. */
  function RoundedMB(bytes: nat): (mb: nat)
    ensures mb * MiB <= bytes + MiB / 2 < mb * MiB + MiB
  {
    (bytes + MiB / 2) / MiB
  }

  /** The browsers check: ok iff at least one browser exists, else an
      error. */
  function BrowsersCheck(stats: BrowserPool.BrowserStats): (c: Check)
    ensures c.status == (if stats.total > 0 then Ok else Error)
    ensures c.detail == BrowsersFree(stats.free, stats.total)
  {
    Check("browsers", if stats.total > 0 then Ok else Error, BrowsersFree(stats.free, stats.total))
  }

  /** The memory check: ok iff the heap is below 1 GiB, else a warning;
      never an error. */
  function MemoryCheck(heapUsed: nat): (c: Check)
    ensures c.status == (if heapUsed < HeapWarningBytes then Ok else Warning)
    ensures c.detail == MemoryUsedMB(RoundedMB(heapUsed))
  {
    Check("memory", if heapUsed < HeapWarningBytes then Ok else Warning, MemoryUsedMB(RoundedMB(heapUsed)))
  }

  /** The report of a handler that threw: unhealthy, with one error check
      carrying the message, and no uptime. */
  function FailureReport(message: string, now: int): (r: HealthReport)
    ensures r.status == Unhealthy && r.uptime.None?
    ensures |r.checks| == 1 && r.checks[0].status == Error && r.checks[0].detail == ErrorMessage(message)
  {
    HealthReport(Unhealthy, [Check("error", Error, ErrorMessage(message))], now, None)
  }

  /** `getHealth`; `readings` is what the handler read, or the message of
      the exception it caught. */
  function GetHealth(readings: Result<Readings, string>, now: int, uptime: real): (r: HealthReport)
    ensures readings.Failure? ==> r == FailureReport(readings.error, now)
    ensures readings.Success? ==>
      && r.checks == [BrowsersCheck(readings.value.browsers), MemoryCheck(readings.value.heapUsed)]
      && r.status == Aggregate(r.checks)
      && r.uptime == Some(uptime)
  {
    match readings
    case Failure(message) => FailureReport(message, now)
    case Success(rd) =>
      var checks := [BrowsersCheck(rd.browsers), MemoryCheck(rd.heapUsed)];
      HealthReport(Aggregate(checks), checks, now, Some(uptime))
  }

  /** With the readings in hand the status depends on two facts only: no
      browser makes the service unhealthy; otherwise a heap of 1 GiB or more
      makes it degraded, and a smaller one healthy. */
  lemma HealthStatusFromReadings(rd: Readings, now: int, uptime: real)
    ensures GetHealth(Success(rd), now, uptime).status == Unhealthy <==> rd.browsers.total == 0
    ensures GetHealth(Success(rd), now, uptime).status == Degraded <==> rd.browsers.total > 0 && rd.heapUsed >= HeapWarningBytes
    ensures GetHealth(Success(rd), now, uptime).status == Healthy <==> rd.browsers.total > 0 && rd.heapUsed < HeapWarningBytes
  {
    var checks := GetHealth(Success(rd), now, uptime).checks;
    assert checks[0].status == (if rd.browsers.total > 0 then Ok else Error);
    assert checks[1].status == (if rd.heapUsed < HeapWarningBytes then Ok else Warning);
  }

  /** A check that is ok never changes the folded status. */
  lemma AggregateIgnoresOk(checks: seq<Check>, c: Check)
    requires c.status == Ok
    ensures Aggregate(checks + [c]) == Aggregate(checks)
  {
    var all := checks + [c];
    assert forall i :: 0 <= i < |checks| ==> all[i] == checks[i];
    assert all[|checks|] == c;
  }
}
