/** The request bodies and queries of the API after transformation and
    validation (the global pipe transforms, so field defaults apply):
    `BatchRenderDto`, `WarmupDto`, `ClearCacheDto` and `GetLogsDto`. A
    rejected input reports the set of fields that failed. */
module Dto {
  import opened Wrappers

  datatype Field = UrlsField | PriorityField | TypeField | LevelField | LimitField

  /** The `urls` property as received: an array of strings, or any other
      value. */
  datatype UrlsInput = UrlArray(items: seq<string>) | NotArray

  /** The most URLs a batch keeps. */
  const MaxBatchUrls: nat := 10

  /** The `urls` transform: an array keeps its first ten elements in order,
      anything else passes unchanged. */
  function TruncateUrls(v: UrlsInput): (r: UrlsInput)
    ensures v.NotArray? ==> r == NotArray
    ensures v.UrlArray? ==> r.UrlArray? && |r.items| == (if |v.items| < MaxBatchUrls then |v.items| else MaxBatchUrls)
    ensures v.UrlArray? ==> r.items == v.items[..|r.items|]
  {
    match v
    case NotArray => NotArray
    case UrlArray(items) => UrlArray(if |items| <= MaxBatchUrls then items else items[..MaxBatchUrls])
  }

  /** `BatchRenderDto.urls`: after the transform it must be an array whose
      every element satisfies `isUrl`. */
  function ValidateUrls(v: UrlsInput, isUrl: string -> bool): (r: Result<seq<string>, set<Field>>)
    ensures r.Success? <==>
      v.UrlArray? && forall i :: 0 <= i < |TruncateUrls(v).items| ==> isUrl(TruncateUrls(v).items[i])
    ensures r.Success? ==> v.UrlArray? && |r.value| <= MaxBatchUrls && |r.value| <= |v.items| && r.value == v.items[..|r.value|]
    ensures r.Success? ==> forall i :: 0 <= i < |r.value| ==> isUrl(r.value[i])
    ensures r.Success? ==> |r.value| == |v.items| || |r.value| == MaxBatchUrls
    ensures r.Failure? ==> r.error == {UrlsField}
  {
    match TruncateUrls(v)
    case NotArray => Failure({UrlsField})
    case UrlArray(items) =>
      if forall i :: 0 <= i < |items| ==> isUrl(items[i]) then Success(items) else Failure({UrlsField})
  }

  /** Truncation runs before validation, so elements past the tenth are
      dropped unchecked: a batch whose first ten URLs are valid is accepted
      whatever follows. */
  lemma TruncationHidesLaterUrls(items: seq<string>, isUrl: string -> bool)
    requires |items| > MaxBatchUrls
    requires forall i :: 0 <= i < MaxBatchUrls ==> isUrl(items[i])
    ensures ValidateUrls(UrlArray(items), isUrl) == Success(items[..MaxBatchUrls])
  {
  }

  datatype Priority = Low | Normal | High

  function PriorityName(p: Priority): string {
    match p
    case Low => "low"
    case Normal => "normal"
    case High => "high"
  }

  /** `WarmupDto.priority`: optional, one of low, normal, high, and
      "normal" when absent. */
  function ValidatePriority(p: Option<string>): (r: Result<Priority, set<Field>>)
    ensures p.None? ==> r == Success(Normal)
    ensures p.Some? ==> (r.Success? <==> p.value in ["low", "normal", "high"])
    ensures p.Some? && r.Success? ==> PriorityName(r.value) == p.value
    ensures r.Failure? ==> r.error == {PriorityField}
  {
    match p
    case None => Success(Normal)
    case Some(name) =>
      if name == "low" then Success(Low)
      else if name == "normal" then Success(Normal)
      else if name == "high" then Success(High)
      else Failure({PriorityField})
  }

  datatype WarmupRequest = WarmupRequest(urls: seq<string>, priority: Priority)

  /** `WarmupDto`: the `urls` rules of `BatchRenderDto` plus `priority`; a
      rejection names every failing field. */
  function ValidateWarmup(urls: UrlsInput, priority: Option<string>, isUrl: string -> bool): (r: Result<WarmupRequest, set<Field>>)
    ensures r.Success? <==> ValidateUrls(urls, isUrl).Success? && ValidatePriority(priority).Success?
    ensures r.Success? ==> r.value == WarmupRequest(ValidateUrls(urls, isUrl).value, ValidatePriority(priority).value)
    ensures r.Failure? ==>
      && (UrlsField in r.error <==> ValidateUrls(urls, isUrl).Failure?)
      && (PriorityField in r.error <==> ValidatePriority(priority).Failure?)
      && r.error <= {UrlsField, PriorityField}
  {
    var u := ValidateUrls(urls, isUrl);
    var p := ValidatePriority(priority);
    if u.Success? && p.Success? then Success(WarmupRequest(u.value, p.value))
    else Failure((if u.Failure? then u.error else {}) + (if p.Failure? then p.error else {}))
  }

  /** `ClearCacheDto.type`: required, one of all, pages, resources. */
  function ValidateCacheType(t: Option<string>): (r: Result<string, set<Field>>)
    ensures r.Success? <==> t.Some? && t.value in ["all", "pages", "resources"]
    ensures r.Success? ==> r.value == t.value
    ensures r.Failure? ==> r.error == {TypeField}
  {
    if t.Some? && t.value in ["all", "pages", "resources"] then Success(t.value) else Failure({TypeField})
  }

  /** The `limit` query value after conversion to a number. */
  datatype LimitInput = IntegerValue(n: int) | NonInteger

  datatype LogsQuery = LogsQuery(level: string, limit: nat)

  const LogLevels: seq<string> := ["all", "error", "warn", "info", "debug"]
  const DefaultLogLevel: string := "all"
  const DefaultLogLimit: nat := 100
  const MaxLogLimit: nat := 1000

  /** `GetLogsDto`: `level` is one of the five levels, "all" when absent;
      `limit` is an integer from 1 to 1000, 100 when absent. */
  function ValidateLogsQuery(level: Option<string>, limit: Option<LimitInput>): (r: Result<LogsQuery, set<Field>>)
    ensures r.Success? <==>
      && (level.None? || level.value in LogLevels)
      && (limit.None? || (limit.value.IntegerValue? && 1 <= limit.value.n <= MaxLogLimit))
    ensures r.Success? ==> r.value.level == level.GetOr(DefaultLogLevel) && r.value.level in LogLevels
    ensures r.Success? ==> r.value.limit == (if limit.None? then DefaultLogLimit else limit.value.n)
    ensures r.Success? ==> 1 <= r.value.limit <= MaxLogLimit
    ensures r.Failure? ==>
      && (LevelField in r.error <==> level.Some? && level.value !in LogLevels)
      && (LimitField in r.error <==> limit.Some? && !(limit.value.IntegerValue? && 1 <= limit.value.n <= MaxLogLimit))
      && r.error <= {LevelField, LimitField}
  {
    var levelOk := level.None? || level.value in LogLevels;
    var limitOk := limit.None? || (limit.value.IntegerValue? && 1 <= limit.value.n <= MaxLogLimit);
    if levelOk && limitOk then
      Success(LogsQuery(level.GetOr(DefaultLogLevel), if limit.None? then DefaultLogLimit else limit.value.n))
    else
      Failure((if levelOk then {} else {LevelField}) + (if limitOk then {} else {LimitField}))
  }
}
