/** `AdminController`: the log tail of `getLogs`, the admin health report
    and the cache-clear dispatch. Reading the log file is outside the model:
    its content, or the failure to read it, is passed in. */
module Admin {
  import opened Wrappers
  import opened Seqs
  import opened Text
  import opened Cache
  import opened Health
  import opened Dto
  import BrowserPool

  // ----- log lines -----

  /** One entry of the log view: a parsed line, or an unparsed one with no
      timestamp and level "unknown". */
  datatype LogEntry = LogEntry(timestamp: Option<string>, level: string, message: string)

  /** The three groups of a line that matches the log pattern. */
  datatype LogMatch = LogMatch(timestamp: string, level: string, message: string)

  const UnknownLevel: string := "unknown"

  /** The shape of an ISO-8601 timestamp with milliseconds: `d` stands for
      a decimal digit, every other character for itself. */
  const TimestampShape: string := "dddd-dd-ddTdd:dd:dd.dddZ"

  predicate IsDigit(c: char) {
    '0' <= c <= '9'
  }

  /** The characters of `\w`. */
  predicate IsWordChar(c: char) {
    IsDigit(c) || ('A' <= c <= 'Z') || ('a' <= c <= 'z') || c == '_'
  }

  /** The characters `.` does not match. */
  predicate IsLineTerminator(c: char) {
    var n := c as int;
    n == 0x0A || n == 0x0D || n == 0x2028 || n == 0x2029
  }

  predicate FitsTimestamp(ts: string) {
    |ts| == |TimestampShape|
    && forall i :: 0 <= i < |ts| ==> if TimestampShape[i] == 'd' then IsDigit(ts[i]) else ts[i] == TimestampShape[i]
  }

  /** The length of the longest prefix of word characters. */
  function WordRun(s: string): (n: nat)
    ensures n <= |s|
    ensures forall i :: 0 <= i < n ==> IsWordChar(s[i])
    ensures n < |s| ==> !IsWordChar(s[n])
  {
    if s == [] || !IsWordChar(s[0]) then 0
    else
      var n := 1 + WordRun(s[1..]);
      assert forall i :: 1 <= i < |s| ==> s[i] == s[1..][i - 1];
      n
  }

  /** `line` is `<timestamp> [<level>]: <message>` with a well-formed
      timestamp, a level of word characters and a non-empty message without
      line terminators: the pattern `^(ts) \[(\w+)\]: (.+)$`. */
  ghost predicate MatchesLogPattern(line: string, m: LogMatch) {
    && FitsTimestamp(m.timestamp)
    && m.level != [] && (forall i :: 0 <= i < |m.level| ==> IsWordChar(m.level[i]))
    && m.message != [] && (forall i :: 0 <= i < |m.message| ==> !IsLineTerminator(m.message[i]))
    && line == m.timestamp + " [" + m.level + "]: " + m.message
  }

  /** The regular-expression match of one log line. */
  function MatchLogLine(line: string): Option<LogMatch> {
    if |line| < |TimestampShape| + 2 || !FitsTimestamp(line[..|TimestampShape|]) || line[|TimestampShape|..|TimestampShape| + 2] != " [" then None
    else
      var rest := line[|TimestampShape| + 2..];
      var w := WordRun(rest);
      if w == 0 || |rest| < w + 3 || rest[w..w + 3] != "]: " then None
      else
        var message := rest[w + 3..];
        if message == [] || exists i :: 0 <= i < |message| && IsLineTerminator(message[i]) then None
        else Some(LogMatch(line[..|TimestampShape|], rest[..w], message))
  }

  /** Every match found fits the pattern. */
  lemma MatchLogLineSound(line: string)
    requires MatchLogLine(line).Some?
    ensures MatchesLogPattern(line, MatchLogLine(line).value)
  {
    var m := MatchLogLine(line).value;
    var rest := line[|TimestampShape| + 2..];
    var w := WordRun(rest);
    assert rest == m.level + "]: " + m.message;
    assert line == line[..|TimestampShape| + 2] + rest;
  }

  /** Every line that fits the pattern is matched, with exactly its groups:
      the level cannot end early, since `]` is not a word character. */
  lemma MatchLogLineComplete(line: string, m: LogMatch)
    requires MatchesLogPattern(line, m)
    ensures MatchLogLine(line) == Some(m)
  {
    var n := |TimestampShape|;
    assert line[..n] == m.timestamp;
    assert line[n..n + 2] == " [";
    var rest := line[n + 2..];
    assert rest == m.level + "]: " + m.message;
    var w := WordRun(rest);
    assert rest[|m.level|] == ']';
    assert forall i :: 0 <= i < |m.level| ==> rest[i] == m.level[i];
    assert w == |m.level|;
    assert rest[w..w + 3] == "]: ";
    assert rest[w + 3..] == m.message;
    assert !exists i :: 0 <= i < |m.message| && IsLineTerminator(m.message[i]);
    assert rest[..w] == m.level;
  }

  /** The entry for one line: the timestamp, the lower-cased level and the
      message of a matching line; otherwise no timestamp, level "unknown"
      and the whole line. */
  function ToEntry(line: string): (e: LogEntry)
    ensures e.timestamp.None? <==> MatchLogLine(line).None?
    ensures e.timestamp.None? ==> e == LogEntry(None, UnknownLevel, line)
    ensures e.timestamp.Some? ==> exists m :: MatchesLogPattern(line, m) && e == LogEntry(Some(m.timestamp), AsciiLower(m.level), m.message)
  {
    match MatchLogLine(line)
    case None => LogEntry(None, UnknownLevel, line)
    case Some(m) =>
      MatchLogLineSound(line);
      LogEntry(Some(m.timestamp), AsciiLower(m.level), m.message)
  }

  /** The application logger writes `YYYY-MM-DD HH:mm:ss [LEVEL]...`, with a
      space where the pattern wants `T` and no milliseconds, so none of its
      lines is parsed: each becomes an "unknown" entry. */
  lemma LoggerLinesAreUnknown(line: string)
    requires |line| > 10 && line[10] == ' '
    ensures MatchLogLine(line).None?
    ensures ToEntry(line) == LogEntry(None, UnknownLevel, line)
  {
    if |line| >= |TimestampShape| + 2 {
      assert TimestampShape[10] == 'T';
      assert line[..|TimestampShape|][10] == ' ';
    }
  }

  // ----- the log view -----

  /** The lines considered: the trimmed content split at newlines, the last
      `limit` of them (all of them for a limit of 0). */
  function TailLines(content: string, limit: nat): (lines: seq<string>)
    ensures var all := Split(Trim(content), '\n');
            && |lines| <= |all| && lines == all[|all| - |lines|..]
            && (limit > 0 ==> |lines| == if limit < |all| then limit else |all|)
            && lines != []
  {
    TakeLast(Split(Trim(content), '\n'), limit)
  }

  /** The considered lines are whole lines: none holds a newline, and with
      no limit they join back, with newlines, into the trimmed content. */
  lemma TailLinesAreLines(content: string, limit: nat)
    ensures forall k :: 0 <= k < |TailLines(content, limit)| ==> '\n' !in TailLines(content, limit)[k]
    ensures limit == 0 ==> Join(TailLines(content, limit), '\n') == Trim(content)
  {
    var all := Split(Trim(content), '\n');
    var lines := TailLines(content, limit);
    SplitPiecesExcludeSeparator(Trim(content), '\n');
    assert forall k :: 0 <= k < |lines| ==> lines[k] == all[|all| - |lines| + k];
    JoinSplit(Trim(content), '\n');
  }

  function Entries(lines: seq<string>): (es: seq<LogEntry>)
    ensures |es| == |lines| && forall i :: 0 <= i < |lines| ==> es[i] == ToEntry(lines[i])
  {
    seq(|lines|, i requires 0 <= i < |lines| => ToEntry(lines[i]))
  }

  /** `filter(log => log.level === level)`: the entries of that level, in
      order. */
  function KeepLevel(entries: seq<LogEntry>, level: string): (r: seq<LogEntry>)
    ensures |r| <= |entries|
    ensures forall e :: e in r <==> e in entries && e.level == level
  {
    if entries == [] then []
    else
      var rest := KeepLevel(entries[1..], level);
      assert forall e :: e in entries <==> e == entries[0] || e in entries[1..];
      if entries[0].level == level then [entries[0]] + rest else rest
  }

  /** Filtering works entry by entry: the kept entries of two runs are
      those of the first run followed by those of the second. With
      `KeepLevelOne` this fixes the order and the number of copies kept. */
  lemma {:induction false} KeepLevelAppend(a: seq<LogEntry>, b: seq<LogEntry>, level: string)
    ensures KeepLevel(a + b, level) == KeepLevel(a, level) + KeepLevel(b, level)
  {
    if a == [] {
      assert a + b == b;
    } else {
      assert (a + b)[0] == a[0] && (a + b)[1..] == a[1..] + b;
      KeepLevelAppend(a[1..], b, level);
    }
  }

  /** One entry is kept iff it has the level. */
  lemma KeepLevelOne(e: LogEntry, level: string)
    ensures KeepLevel([e], level) == if e.level == level then [e] else []
  {
    assert [e][1..] == [];
  }

  /** Filtering and reversing commute. */
  lemma {:induction false} KeepLevelReverse(s: seq<LogEntry>, level: string)
    ensures Reverse(KeepLevel(s, level)) == KeepLevel(Reverse(s), level)
  {
    if s != [] {
      var head := KeepLevel([s[0]], level);
      assert s == [s[0]] + s[1..];
      KeepLevelAppend([s[0]], s[1..], level);
      KeepLevelOne(s[0], level);
      ReverseAppend(head, KeepLevel(s[1..], level));
      assert Reverse(head) == head by {
        if head != [] {
          assert head[1..] == [];
        }
      }
      KeepLevelReverse(s[1..], level);
      KeepLevelAppend(Reverse(s[1..]), [s[0]], level);
    }
  }

  /** The level filter: none for "all", otherwise the entries whose level
      equals the lower-cased query level. */
  function FilterLevel(entries: seq<LogEntry>, level: string): seq<LogEntry> {
    if level == DefaultLogLevel then entries else KeepLevel(entries, AsciiLower(level))
  }

  const LogFileMissingMessage: string := "Файл логов не найден или пуст"

  /** The response of `getLogs`. */
  datatype LogsView = LogsView(logs: seq<LogEntry>, totalShown: nat, query: LogsQuery)

  /** `getLogs`; `read` is the file's content or the read error, and `now`
      the time the notice for a failed read carries. */
  function GetLogs(read: Result<string, string>, query: LogsQuery, now: string): (v: LogsView)
    ensures v.totalShown == |v.logs| && v.query == query
    ensures read.Failure? ==> v.logs == [LogEntry(Some(now), "warn", LogFileMissingMessage)]
    ensures read.Success? ==> v.logs == Reverse(FilterLevel(Entries(TailLines(read.value, query.limit)), query.level))
  {
    var logs := match read
      case Failure(_) => [LogEntry(Some(now), "warn", LogFileMissingMessage)]
      case Success(content) => Reverse(FilterLevel(Entries(TailLines(content, query.limit)), query.level));
    ReverseAt(logs);
    LogsView(logs, |logs|, query)
  }

  /** Without a level filter the view is every considered line, newest
      first: the k-th entry is that of the k-th line from the end. */
  lemma GetLogsNewestFirst(content: string, query: LogsQuery, now: string)
    requires query.level == DefaultLogLevel
    ensures var lines := TailLines(content, query.limit);
            var logs := GetLogs(Success(content), query, now).logs;
            && |logs| == |lines|
            && forall k :: 0 <= k < |lines| ==> logs[k] == ToEntry(lines[|lines| - 1 - k])
  {
    var lines := TailLines(content, query.limit);
    var logs := GetLogs(Success(content), query, now).logs;
    assert logs == Reverse(Entries(lines));
    ReversedEntries(lines);
    forall k | 0 <= k < |lines| ensures logs[k] == ToEntry(lines[|lines| - 1 - k]) {
    }
  }

  /** The entries of some lines, reversed, mirror the lines. */
  lemma ReversedEntries(lines: seq<string>)
    ensures |Reverse(Entries(lines))| == |lines|
    ensures forall k :: 0 <= k < |lines| ==> Reverse(Entries(lines))[k] == ToEntry(lines[|lines| - 1 - k])
  {
    ReverseAt(Entries(lines));
  }

  /** With a level filter the view holds exactly the considered lines'
      entries of that level. */
  lemma GetLogsFiltered(content: string, query: LogsQuery, now: string)
    requires query.level != DefaultLogLevel
    ensures var lines := TailLines(content, query.limit);
            var logs := GetLogs(Success(content), query, now).logs;
            && |logs| <= |lines|
            && (forall e :: e in logs <==> e in Entries(lines) && e.level == AsciiLower(query.level))
            && logs == KeepLevel(Reverse(Entries(lines)), AsciiLower(query.level))
  {
    var lines := TailLines(content, query.limit);
    var es := Entries(lines);
    var kept := KeepLevel(es, AsciiLower(query.level));
    assert GetLogs(Success(content), query, now).logs == Reverse(kept);
    ReverseKeepsElements(kept);
    KeepLevelReverse(es, AsciiLower(query.level));
  }

  /** Reversal keeps the elements. */
  lemma ReverseKeepsElements<T>(s: seq<T>)
    ensures |Reverse(s)| == |s|
    ensures forall x :: x in Reverse(s) <==> x in s
  {
    ReverseAt(s);
    forall x | x in s ensures x in Reverse(s) {
      var j :| 0 <= j < |s| && s[j] == x;
      assert Reverse(s)[|s| - 1 - j] == x;
    }
  }

  /** A validated query never shows more than `limit` entries. */
  lemma GetLogsBounded(read: Result<string, string>, query: LogsQuery, now: string)
    requires 1 <= query.limit
    ensures GetLogs(read, query, now).totalShown <= query.limit
  {
    if read.Success? {
      var lines := TailLines(read.value, query.limit);
      ReverseAt(FilterLevel(Entries(lines), query.level));
    }
  }

  /** An empty or blank log file is not reported as missing: it yields one
      "unknown" entry with an empty message. */
  lemma BlankLogFileShowsOneUnknownEntry(content: string, query: LogsQuery, now: string)
    requires forall i :: 0 <= i < |content| ==> IsJsWhitespace(content[i])
    requires query.level == DefaultLogLevel
    ensures GetLogs(Success(content), query, now).logs == [LogEntry(None, UnknownLevel, "")]
  {
    var es := Entries(TailLines(content, query.limit));
    assert es == [LogEntry(None, UnknownLevel, "")] by {
      BlankLogFileEntries(content, query.limit);
    }
    assert Reverse(es) == es by {
      assert Reverse(es) == Reverse(es[1..]) + [es[0]];
      assert es[1..] == [];
    }
    assert FilterLevel(es, query.level) == es;
  }

  /** A blank file is one empty line. */
  lemma BlankLogFileEntries(content: string, limit: nat)
    requires forall i :: 0 <= i < |content| ==> IsJsWhitespace(content[i])
    ensures Entries(TailLines(content, limit)) == [LogEntry(None, UnknownLevel, "")]
  {
    TrimBlank(content);
    assert TailLines(content, limit) == [[]] by {
      assert Split([], '\n') == [[]];
    }
    assert ToEntry([]) == LogEntry(None, UnknownLevel, []) by {
      assert MatchLogLine([]).None?;
    }
  }

  // ----- health -----

  /** What the admin health handler reads: the pool's counts, the heap size
      and the cache statistics. */
  datatype AdminReadings = AdminReadings(browsers: BrowserPool.BrowserStats, heapUsed: nat, cache: CacheStats)

  /** The cache check of the admin report: always ok. */
  function CacheCheck(stats: CacheStats): (c: Check)
    ensures c.status == Ok && c.detail == CacheEntries(stats.pages.keys, stats.resources.keys)
  {
    Check("cache", Ok, CacheEntries(stats.pages.keys, stats.resources.keys))
  }

  /** The admin `getHealth`: the service's checks plus the cache check,
      folded the same way. */
  function AdminHealth(readings: Result<AdminReadings, string>, now: int, uptime: real): (r: HealthReport)
    ensures readings.Failure? ==> r == FailureReport(readings.error, now)
    ensures readings.Success? ==>
      && r.checks == [BrowsersCheck(readings.value.browsers), MemoryCheck(readings.value.heapUsed), CacheCheck(readings.value.cache)]
      && r.status == Aggregate(r.checks)
      && r.uptime == Some(uptime)
  {
    match readings
    case Failure(message) => FailureReport(message, now)
    case Success(rd) =>
      var checks := [BrowsersCheck(rd.browsers), MemoryCheck(rd.heapUsed), CacheCheck(rd.cache)];
      HealthReport(Aggregate(checks), checks, now, Some(uptime))
  }

  /** The cache check never moves the status: the admin report's status is
      the service report's on the same pool and heap readings. */
  lemma AdminHealthAgreesWithService(rd: AdminReadings, now: int, uptime: real)
    ensures AdminHealth(Success(rd), now, uptime).status == GetHealth(Success(Readings(rd.browsers, rd.heapUsed)), now, uptime).status
  {
    var admin := AdminHealth(Success(rd), now, uptime).checks;
    var service := GetHealth(Success(Readings(rd.browsers, rd.heapUsed)), now, uptime).checks;
    assert admin == service + [CacheCheck(rd.cache)];
    AggregateIgnoresOk(service, CacheCheck(rd.cache));
  }

  // ----- cache clearing -----

  /** `clearCache`: "pages" clears the page region, "resources" the
      resource region, and "all" or any other value everything, counters
      included. */
  method ClearCache(cache: CacheService, kind: string)
    requires cache.Valid()
    modifies cache
    ensures cache.Valid()
    ensures kind == "pages" ==>
      && cache.pageCache == map[]
      && cache.resourceKeys == old(cache.resourceKeys) && cache.resourceCache == old(cache.resourceCache)
      && cache.stats == old(cache.stats)
    ensures kind == "resources" ==>
      && cache.resourceKeys == [] && cache.resourceCache == map[]
      && cache.pageCache == old(cache.pageCache) && cache.stats == old(cache.stats)
    ensures kind != "pages" && kind != "resources" ==>
      && cache.pageCache == map[] && cache.resourceKeys == [] && cache.resourceCache == map[]
      && cache.stats == ZeroCounters
  {
    if kind == "pages" {
      cache.ClearPageCache();
    } else if kind == "resources" {
      cache.ClearResourceCache();
    } else {
      cache.ClearAll();
    }
  }
}
