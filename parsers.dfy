/**
 * The payload normalisers of the indicator: status classification, the uniform
 * monitor record, the status-page and private-API normalisers and the
 * severity-ordered aggregate summary.
 */
module Parsers {
  import opened Wrappers
  import opened Text
  import opened Numbers
  import opened Js

  // ---------------------------------------------------------------------------
  // Statuses

  datatype Status = Up | Degraded | Down | Maintenance | Unknown

  function StatusName(s: Status): string {
    match s
    case Up => "up"
    case Degraded => "degraded"
    case Down => "down"
    case Maintenance => "maintenance"
    case Unknown => "unknown"
  }

  /** Severity order, worst first. */
  const StatusPriority: seq<string> := ["down", "degraded", "maintenance", "unknown", "up"]

  /** Position of a status name in StatusPriority. */
  function Rank(s: Status): (r: nat)
    ensures r < |StatusPriority| && StatusPriority[r] == StatusName(s)
  {
    match s
    case Down => 0
    case Degraded => 1
    case Maintenance => 2
    case Unknown => 3
    case Up => 4
  }

  /** `STATUS_PRIORITY.indexOf(value)`, -1 when absent (strict equality on strings). */
  function PriorityIndex(value: Json): (r: int)
    ensures -1 <= r < |StatusPriority|
    ensures r >= 0 ==> value == JStr(StatusPriority[r])
    ensures r == -1 <==> forall i :: 0 <= i < |StatusPriority| ==> value != JStr(StatusPriority[i])
  {
    if value == JStr("down") then 0
    else if value == JStr("degraded") then 1
    else if value == JStr("maintenance") then 2
    else if value == JStr("unknown") then 3
    else if value == JStr("up") then 4
    else -1
  }

  const UpLabels: seq<string> := ["up", "online", "operational", "ok"]
  const DegradedLabels: seq<string> := ["degraded", "warning", "partial"]
  const DownLabels: seq<string> := ["down", "offline", "critical", "error", "fail"]
  const MaintenanceLabels: seq<string> := ["maintenance", "maintenance_mode"]

  /** The synonym tables, consulted in the order up, degraded, down, maintenance. */
  function LabelStatus(text: string): (r: Status)
    ensures r == Up <==> text in UpLabels
    ensures r == Degraded <==> text in DegradedLabels
    ensures r == Down <==> text in DownLabels
    ensures r == Maintenance <==> text in MaintenanceLabels
  {
    if text in UpLabels then Up
    else if text in DegradedLabels then Degraded
    else if text in DownLabels then Down
    else if text in MaintenanceLabels then Maintenance
    else Unknown
  }

  /**
   * `_normalizeStatus`: total. Null and undefined are unknown; the numeric codes
   * 0..3 are down, up, degraded, maintenance and every other number is unknown;
   * anything else is turned into text, lower-cased and looked up in the
   * synonym tables.
   */
  function NormalizeStatus(value: Json): (r: Status)
    ensures Nullish(value) ==> r == Unknown
    ensures value.JNum? ==>
      (r == Down <==> value.n == 0) && (r == Up <==> value.n == 1)
      && (r == Degraded <==> value.n == 2) && (r == Maintenance <==> value.n == 3)
    ensures !Nullish(value) && !value.JNum? ==> r == LabelStatus(ToLower(ToStr(value)))
  {
    if Nullish(value) then Unknown
    else if value.JNum? then
      match value.n
      case 0 => Down
      case 1 => Up
      case 2 => Degraded
      case 3 => Maintenance
      case _ => Unknown
    else LabelStatus(ToLower(ToStr(value)))
  }

  /** Every status name classifies as itself. */
  lemma StatusNameRoundTrip(s: Status)
    ensures NormalizeStatus(JStr(StatusName(s))) == s
  {
    assert ToLower(StatusName(s)) == StatusName(s);
  }

  /** Textual statuses are classified without regard to ASCII case. */
  lemma {:induction false} NormalizeStatusCaseInsensitive(s: string)
    ensures NormalizeStatus(JStr(s)) == NormalizeStatus(JStr(ToLower(s)))
  {
    ToLowerIdempotent(s);
  }

  /** A text that is in none of the synonym tables is unknown. */
  lemma UnmatchedLabelIsUnknown(value: Json)
    requires !Nullish(value) && !value.JNum?
    requires var l := ToLower(ToStr(value));
      l !in UpLabels && l !in DegradedLabels && l !in DownLabels && l !in MaintenanceLabels
    ensures NormalizeStatus(value) == Unknown
  {
  }

  // ---------------------------------------------------------------------------
  // Latency and timestamps

  /**
   * A rounded latency in milliseconds, or the infinity `Math.round` keeps
   * when `parseFloat` read the `Infinity` literal.
   */
  datatype Latency = Millis(ms: int) | Unbounded(negative: bool)

  /**
   * `_parseLatency`: null and undefined give null, a number is rounded (an
   * integer is its own rounding), anything else goes through `parseFloat` of its
   * text and NaN gives null.
   */
  function ParseLatency(value: Json): (r: Option<Latency>)
    ensures Nullish(value) ==> r == None
    ensures value.JNum? ==> r == Some(Millis(value.n))
    ensures !Nullish(value) && !value.JNum? ==>
      var f := ParseFloat(ToStr(value));
      (r.Some? <==> f.Some?)
      && (f.Some? && f.value.Finite? ==> r == Some(Millis(Round(f.value.value))))
      && (f.Some? && f.value.Infinite? ==> r == Some(Unbounded(f.value.negative)))
  {
    if Nullish(value) then None
    else if value.JNum? then Some(Millis(value.n))
    else
      match ParseFloat(ToStr(value))
      case None => None
      case Some(Finite(d)) => Some(Millis(Round(d)))
      case Some(Infinite(negative)) => Some(Unbounded(negative))
  }

  /** A latency sent as decimal text reads as the same number. */
  lemma {:induction false} ParseLatencyOfText(n: int)
    ensures ParseLatency(JStr(IntToString(n))) == Some(Millis(n))
  {
    RoundParseFloatOfIntToString(n);
  }

  /** The `Infinity` literal, signed or not, is an infinite latency. */
  lemma ParseLatencyOfInfinity()
    ensures ParseLatency(JStr("Infinity")) == Some(Unbounded(false))
    ensures ParseLatency(JStr("-Infinity")) == Some(Unbounded(true))
    ensures ParseLatency(JStr(" +Infinity ms")) == Some(Unbounded(false))
  {
    assert TrimStart("Infinity") == "Infinity";
    assert TrimStart("-Infinity") == "-Infinity";
    assert TrimStart(" +Infinity ms") == "+Infinity ms" by {
      assert TrimStart(" +Infinity ms") == TrimStart(" +Infinity ms"[1..]);
      assert " +Infinity ms"[1..] == "+Infinity ms";
    }
    assert "-Infinity"[1..] == "Infinity";
    assert "+Infinity ms"[1..][..8] == "Infinity";
  }

  lemma {:induction false} NoDigitPrefix(t: string)
    requires forall k :: 0 <= k < |t| ==> !IsDigit(t[k])
    ensures DigitPrefix(t) == ""
  {
  }

  /** After the sign, a text without any digit is not a number. */
  lemma ParseUnsignedWithoutDigits(negative: bool, u: string)
    requires forall k :: 0 <= k < |u| ==> !IsDigit(u[k])
    ensures ParseUnsigned(negative, u) == None
  {
    NoDigitPrefix(u);
    assert u[0..] == u;
    if u != [] && u[0] == '.' {
      NoDigitPrefix(u[1..]);
    }
  }

  /**
   * A text without any digit has a latency only when, after the leading
   * white space and an optional sign, it starts with `Infinity`; that latency
   * is then infinite.
   */
  lemma ParseLatencyWithoutDigits(s: string)
    requires forall k :: 0 <= k < |s| ==> !IsDigit(s[k])
    ensures ParseLatency(JStr(s)).Some? <==> StartsWithInfinity(Unsigned(s))
    ensures ParseLatency(JStr(s)).Some? ==> ParseLatency(JStr(s)) == Some(Unbounded(MinusSign(s)))
  {
    var t := TrimStart(s);
    TrimStartMeaning(s);
    assert forall k :: 0 <= k < |t| ==> !IsDigit(t[k]) by {
      assert forall k :: 0 <= k < |t| ==> t[k] == s[|s| - |t| + k];
    }
    ParseUnsignedWithoutDigits(MinusSign(s), Unsigned(s));
  }

  /** What the host's ISO-8601 parser does with a text. */
  datatype IsoParse = Parsed(seconds: int) | Invalid | Raised

  const MillisecondThreshold := 10_000_000_000

  /**
   * The numeric branch of `_parseTimestamp`, in unix seconds: 0 is no time, a
   * value above ten billion is milliseconds, anything else is seconds.
   */
  function TimestampFromNumber(n: int): (r: Option<int>)
    ensures r.None? <==> n == 0
    ensures n > MillisecondThreshold ==> r.Some? && r.value * 1000 <= n < r.value * 1000 + 1000
    ensures n != 0 && n <= MillisecondThreshold ==> r == Some(n)
  {
    if n == 0 then None
    else if n > MillisecondThreshold then Some(n / 1000)
    else Some(n)
  }

  /**
   * `_parseTimestamp`: falsy values give null, numbers take the numeric branch,
   * a text is handed to the ISO-8601 parser and, when that throws, to
   * `parseInt` and the numeric branch; anything else gives null.
   */
  function ParseTimestamp(value: Json, iso: string -> IsoParse): (r: Option<int>)
    ensures !Truthy(value) ==> r == None
    ensures value.JNum? ==> r == TimestampFromNumber(value.n)
    ensures value.JStr? && value.s != "" && iso(value.s).Parsed? ==> r == Some(iso(value.s).seconds)
    ensures value.JStr? && iso(value.s).Invalid? ==> r == None
    ensures value.JBool? || value.JArr? || value.JObj? ==> r == None
  {
    if !Truthy(value) then None
    else
      match value
      case JNum(n) => TimestampFromNumber(n)
      case JStr(s) =>
        (match iso(s)
         case Parsed(t) => Some(t)
         case Invalid => None
         case Raised =>
           (match ParseInt(s)
            case None => None
            case Some(p) => TimestampFromNumber(p)))
      case _ => None
  }

  // ---------------------------------------------------------------------------
  // The monitor record

  /**
   * A monitor as the indicator handles it. `status` is a status name after
   * normalisation; `history` is undefined until a heartbeat series is attached;
   * `lastCheck` is in unix seconds.
   */
  datatype Monitor = Monitor(
    id: Json,
    name: Json,
    status: Json,
    latencyMs: Option<Latency>,
    lastCheck: Option<int>,
    message: Json,
    history: Json,
    relativeLastCheck: Option<string>)

  const UnnamedMonitor := "Unnamed monitor"

  /** The `id` of `_normalizeMonitor`; `freshId` is the random id drawn when nothing else names it. */
  function MonitorId(m: Json, freshId: string): (r: Json)
    requires !Nullish(m)
    ensures !Nullish(r)
    ensures !Nullish(Get(m, "id")) ==> r == JStr(ToStr(Get(m, "id")))
    ensures Nullish(Get(m, "id")) && !Nullish(Get(m, "slug")) ==> r == Get(m, "slug")
    ensures Nullish(Get(m, "id")) && Nullish(Get(m, "slug")) && !Nullish(Get(m, "name")) ==>
      r == Get(m, "name")
    ensures Nullish(Get(m, "id")) && Nullish(Get(m, "slug")) && Nullish(Get(m, "name")) ==>
      r == JStr(freshId)
  {
    var id := Get(m, "id");
    if !Nullish(id) then JStr(ToStr(id))
    else
      assert ["slug", "name"][1..] == ["name"];
      assert FirstPresent(m, ["slug", "name"]) == Coalesce(Get(m, "slug"), FirstPresent(m, ["name"]));
      assert FirstPresent(m, ["name"]) == Get(m, "name");
      Coalesce(FirstPresent(m, ["slug", "name"]), JStr(freshId))
  }

  /**
   * `_normalizeMonitor`: the first present field of each candidate chain, a
   * textual id and a name that is never missing.
   */
  function NormalizeMonitor(m: Json, freshId: string, iso: string -> IsoParse): (r: Monitor)
    requires !Nullish(m)
    ensures !Nullish(r.id) && !Nullish(r.name)
    ensures PriorityIndex(r.status) >= 0
    ensures r.status == JStr(StatusName(NormalizeStatus(FirstPresent(m, ["status", "statusClass"]))))
    ensures r.latencyMs == ParseLatency(FirstPresent(m, ["ping", "latency", "responseTime"]))
    ensures r.lastCheck == ParseTimestamp(FirstPresent(m, ["lastCheck", "lastHeartbeat", "lastUpdated"]), iso)
    ensures r.id == MonitorId(m, freshId)
    ensures !Nullish(Get(m, "name")) ==> r.name == Get(m, "name")
    ensures Nullish(Get(m, "name")) && !Nullish(Get(m, "title")) ==> r.name == Get(m, "title")
    ensures Nullish(Get(m, "name")) && Nullish(Get(m, "title")) ==> r.name == JStr(UnnamedMonitor)
    ensures Nullish(r.message) <==> r.message == JNull
    ensures r.history == JUndef && r.relativeLastCheck == None
  {
    var status := NormalizeStatus(FirstPresent(m, ["status", "statusClass"]));
    assert PriorityIndex(JStr(StatusName(status))) == Rank(status);
    assert ["name", "title"][1..] == ["title"];
    assert FirstPresent(m, ["name", "title"]) == Coalesce(Get(m, "name"), FirstPresent(m, ["title"]));
    assert FirstPresent(m, ["title"]) == Get(m, "title");
    Monitor(
      MonitorId(m, freshId),
      Coalesce(FirstPresent(m, ["name", "title"]), JStr(UnnamedMonitor)),
      JStr(StatusName(status)),
      ParseLatency(FirstPresent(m, ["ping", "latency", "responseTime"])),
      ParseTimestamp(FirstPresent(m, ["lastCheck", "lastHeartbeat", "lastUpdated"]), iso),
      Coalesce(FirstPresent(m, ["message", "msg", "lastMessage"]), JNull),
      JUndef,
      None)
  }

  /** A numeric id becomes its decimal text, so it can be compared with saved ids. */
  lemma NumericIdIsText(m: Json, n: int, freshId: string, iso: string -> IsoParse)
    requires !Nullish(m) && Get(m, "id") == JNum(n)
    ensures NormalizeMonitor(m, freshId, iso).id == JStr(IntToString(n))
  {
  }

  // ---------------------------------------------------------------------------
  // normalizeStatusPage

  /**
   * The entries `normalizeStatusPage` iterates for a truthy payload:
   * `monitors ?? data ?? []`, and for a non-array its `monitors` or
   * `Object.values`. A falsy result yields no entries, and one that `for … of`
   * cannot iterate is a TypeError.
   */
  function StatusPageEntries(payload: Json): (r: Result<seq<Json>, JsError>)
    requires !Nullish(payload)
  {
    var list := Coalesce(FirstPresent(payload, ["monitors", "data"]), JArr([]));
    var entries := if list.JArr? then list else Coalesce(Get(list, "monitors"), JArr(ObjectValues(list)));
    if !Truthy(entries) then Ok([])
    else
      match Iterate(entries)
      case None => Err(TypeError)
      case Some(items) => Ok(items)
  }

  /** The positions among the first `n` entries that hold a truthy value, in order. */
  function TruthyIndices(entries: seq<Json>, n: nat): (r: seq<nat>)
    requires n <= |entries|
    ensures forall k :: 0 <= k < |r| ==> r[k] < n && Truthy(entries[r[k]])
    ensures forall k, l :: 0 <= k < l < |r| ==> r[k] < r[l]
    ensures forall i :: 0 <= i < n && Truthy(entries[i]) ==> i in r
  {
    if n == 0 then []
    else TruthyIndices(entries, n - 1) + (if Truthy(entries[n - 1]) then [n - 1] else [])
  }

  /** The monitors normalised from the truthy entries among the first `n`. */
  function NormalizedEntries(entries: seq<Json>, uuid: nat -> string, iso: string -> IsoParse, n: nat): seq<Monitor>
    requires n <= |entries|
  {
    if n == 0 then []
    else
      NormalizedEntries(entries, uuid, iso, n - 1)
      + (if Truthy(entries[n - 1]) then [NormalizeMonitor(entries[n - 1], uuid(n - 1), iso)] else [])
  }

  lemma NormalizedEntriesStep(entries: seq<Json>, uuid: nat -> string, iso: string -> IsoParse, n: nat)
    requires n < |entries|
    ensures NormalizedEntries(entries, uuid, iso, n + 1)
      == NormalizedEntries(entries, uuid, iso, n)
        + (if Truthy(entries[n]) then [NormalizeMonitor(entries[n], uuid(n), iso)] else [])
  {
  }

  /**
   * The status-page normaliser skips falsy entries and keeps the order of the
   * others: its k-th monitor is the normalisation of the k-th truthy entry.
   */
  lemma {:induction false} NormalizedEntriesOrigins(entries: seq<Json>, uuid: nat -> string, iso: string -> IsoParse, n: nat)
    requires n <= |entries|
    ensures var r := NormalizedEntries(entries, uuid, iso, n);
      var ix := TruthyIndices(entries, n);
      |r| == |ix| && forall k :: 0 <= k < |r| ==> r[k] == NormalizeMonitor(entries[ix[k]], uuid(ix[k]), iso)
  {
    if n > 0 {
      NormalizedEntriesOrigins(entries, uuid, iso, n - 1);
    }
  }

  /** The monitors of a status-page payload, as `normalizeStatusPage` computes them. */
  function StatusPageMonitors(payload: Json, uuid: nat -> string, iso: string -> IsoParse): Result<seq<Monitor>, JsError> {
    if !Truthy(payload) then Ok([])
    else
      match StatusPageEntries(payload)
      case Err(e) => Err(e)
      case Ok(entries) => Ok(NormalizedEntries(entries, uuid, iso, |entries|))
  }

  /**
   * `normalizeStatusPage`: a falsy payload gives no monitors; otherwise each
   * truthy entry is normalised in order (entry i draws `uuid(i)` when it needs
   * a freshId id).
   */
  method NormalizeStatusPage(payload: Json, uuid: nat -> string, iso: string -> IsoParse)
    returns (r: Result<seq<Monitor>, JsError>)
    ensures r == StatusPageMonitors(payload, uuid, iso)
    ensures !Truthy(payload) ==> r == Ok([])
    ensures Truthy(payload) && StatusPageEntries(payload).Err? ==> r == Err(TypeError)
    ensures Truthy(payload) && StatusPageEntries(payload).Ok? ==>
      var entries := StatusPageEntries(payload).value;
      r == Ok(NormalizedEntries(entries, uuid, iso, |entries|))
  {
    if !Truthy(payload) {
      return Ok([]);
    }
    var found := StatusPageEntries(payload);
    if found.Err? {
      return Err(TypeError);
    }
    var entries := found.value;
    var monitors: seq<Monitor> := [];
    var i := 0;
    while i < |entries|
      invariant 0 <= i <= |entries|
      invariant monitors == NormalizedEntries(entries, uuid, iso, i)
    {
      var item := entries[i];
      NormalizedEntriesStep(entries, uuid, iso, i);
      if Truthy(item) {
        monitors := monitors + [NormalizeMonitor(item, uuid(i), iso)];
      }
      i := i + 1;
    }
    return Ok(monitors);
  }

  // ---------------------------------------------------------------------------
  // normalizeApi

  /** `payload.monitors ?? payload.data ?? payload.result ?? []`. */
  function ApiEntries(payload: Json): (r: Json)
    requires !Nullish(payload)
    ensures !Nullish(r)
  {
    Coalesce(FirstPresent(payload, ["monitors", "data", "result"]), JArr([]))
  }

  /**
   * `normalizeApi`: maps every entry through the monitor normaliser. A falsy
   * payload or entry list gives none; a list that is not an array, or a null
   * entry, makes `.map` throw a TypeError.
   */
  function NormalizeApi(payload: Json, uuid: nat -> string, iso: string -> IsoParse): (r: Result<seq<Monitor>, JsError>)
    ensures !Truthy(payload) ==> r == Ok([])
    ensures Truthy(payload) && !Truthy(ApiEntries(payload)) ==> r == Ok([])
    ensures Truthy(payload) && Truthy(ApiEntries(payload)) && !ApiEntries(payload).JArr? ==> r == Err(TypeError)
    ensures Truthy(payload) && ApiEntries(payload).JArr? ==>
      var items := ApiEntries(payload).items;
      (r.Ok? <==> forall i :: 0 <= i < |items| ==> !Nullish(items[i]))
      && (r.Ok? ==>
        |r.value| == |items|
        && forall i :: 0 <= i < |items| ==> r.value[i] == NormalizeMonitor(items[i], uuid(i), iso))
  {
    if !Truthy(payload) then Ok([])
    else
      var entries := ApiEntries(payload);
      if !Truthy(entries) then Ok([])
      else if !entries.JArr? then Err(TypeError)
      else
        var items := entries.items;
        if exists i :: 0 <= i < |items| && Nullish(items[i]) then Err(TypeError)
        else Ok(seq(|items|, i requires 0 <= i < |items| => NormalizeMonitor(items[i], uuid(i), iso)))
  }

  // ---------------------------------------------------------------------------
  // aggregateMonitors

  /** The counters of the summary; `maintenance` is counted as degraded. */
  datatype Bucket = BUp | BDown | BDegraded | BUnknown

  /** `monitor.status ?? 'unknown'`. */
  function StatusOf(m: Monitor): Json {
    Coalesce(m.status, JStr("unknown"))
  }

  function BucketOf(status: Json): Bucket {
    if status == JStr("down") then BDown
    else if status == JStr("degraded") || status == JStr("maintenance") then BDegraded
    else if status == JStr("up") then BUp
    else BUnknown
  }

  function CountBucket(ms: seq<Monitor>, b: Bucket): nat {
    if ms == [] then 0
    else CountBucket(ms[..|ms| - 1], b) + (if BucketOf(StatusOf(ms[|ms| - 1])) == b then 1 else 0)
  }

  /**
   * The running worst status of the aggregation, as its index in
   * StatusPriority: it starts at `up` and moves to any ranked status that is
   * strictly worse.
   */
  function WorstIndex(ms: seq<Monitor>): (r: nat)
    ensures r < |StatusPriority|
  {
    if ms == [] then 4
    else
      var w := WorstIndex(ms[..|ms| - 1]);
      var c := PriorityIndex(StatusOf(ms[|ms| - 1]));
      if c != -1 && c < w then c else w
  }

  /** The reported status: unknown for no monitors, and maintenance shown as degraded. */
  function SummaryStatus(total: nat, worst: nat): (r: string)
    requires worst < |StatusPriority|
    ensures r != "maintenance"
    ensures total == 0 ==> r == "unknown"
    ensures total > 0 && worst != 2 ==> r == StatusPriority[worst]
    ensures total > 0 && worst == 2 ==> r == "degraded"
  {
    if total == 0 then "unknown"
    else if StatusPriority[worst] == "maintenance" then "degraded"
    else StatusPriority[worst]
  }

  datatype Summary = Summary(up: nat, down: nat, degraded: nat, unknown: nat, total: nat, status: string)

  const EmptySummary := Summary(0, 0, 0, 0, 0, "unknown")

  /** The summary of a list: its four counters, its length and its worst status. */
  function SummaryOf(ms: seq<Monitor>): Summary {
    Summary(CountBucket(ms, BUp), CountBucket(ms, BDown), CountBucket(ms, BDegraded), CountBucket(ms, BUnknown),
            |ms|, SummaryStatus(|ms|, WorstIndex(ms)))
  }

  /**
   * `aggregateMonitors`: count every monitor into one bucket and report the
   * worst ranked status. None stands for an argument that is not an array.
   */
  method AggregateMonitors(monitors: Option<seq<Monitor>>) returns (s: Summary)
    ensures monitors.None? ==> s == EmptySummary
    ensures monitors.Some? ==> s == SummaryOf(monitors.value)
  {
    if monitors.None? {
      return EmptySummary;
    }
    var ms := monitors.value;
    var up, down, degraded, unknown, total := 0, 0, 0, 0, 0;
    var worst := 4;
    var i := 0;
    while i < |ms|
      invariant 0 <= i <= |ms|
      invariant up == CountBucket(ms[..i], BUp) && down == CountBucket(ms[..i], BDown)
      invariant degraded == CountBucket(ms[..i], BDegraded) && unknown == CountBucket(ms[..i], BUnknown)
      invariant total == i && worst == WorstIndex(ms[..i])
    {
      assert ms[..i + 1][..i] == ms[..i];
      var status := StatusOf(ms[i]);
      var bucket := BucketOf(status);
      if bucket == BDown {
        down := down + 1;
      } else if bucket == BDegraded {
        degraded := degraded + 1;
      } else if bucket == BUp {
        up := up + 1;
      } else {
        unknown := unknown + 1;
      }
      var candidate := PriorityIndex(status);
      if candidate != -1 && candidate < worst {
        worst := candidate;
      }
      total := total + 1;
      i := i + 1;
    }
    assert ms[..i] == ms;
    s := Summary(up, down, degraded, unknown, total, SummaryStatus(total, worst));
  }

  /** Every monitor lands in exactly one counter. */
  lemma {:induction false} CountsConserved(ms: seq<Monitor>)
    ensures CountBucket(ms, BUp) + CountBucket(ms, BDown) + CountBucket(ms, BDegraded)
      + CountBucket(ms, BUnknown) == |ms|
  {
    if ms != [] {
      CountsConserved(ms[..|ms| - 1]);
    }
  }

  /**
   * The worst index is at most the rank of every ranked status present, and is
   * either `up` or the rank of a status that occurs.
   */
  lemma {:induction false} WorstIsMinimal(ms: seq<Monitor>)
    ensures forall i :: 0 <= i < |ms| && PriorityIndex(StatusOf(ms[i])) != -1 ==>
      WorstIndex(ms) <= PriorityIndex(StatusOf(ms[i]))
    ensures WorstIndex(ms) == 4
      || exists i :: 0 <= i < |ms| && PriorityIndex(StatusOf(ms[i])) == WorstIndex(ms)
  {
    if ms != [] {
      var init := ms[..|ms| - 1];
      WorstIsMinimal(init);
      assert forall i :: 0 <= i < |init| ==> init[i] == ms[i];
    }
  }

  /**
   * For a non-empty list the summary is `down` exactly when some monitor is
   * down, and `up` exactly when every monitor is up or unranked.
   */
  lemma {:induction false} SummaryDownIff(ms: seq<Monitor>)
    requires |ms| > 0
    ensures SummaryStatus(|ms|, WorstIndex(ms)) == "down" <==>
      exists i :: 0 <= i < |ms| && StatusOf(ms[i]) == JStr("down")
    ensures SummaryStatus(|ms|, WorstIndex(ms)) == "up" <==>
      forall i :: 0 <= i < |ms| ==> PriorityIndex(StatusOf(ms[i])) == -1 || StatusOf(ms[i]) == JStr("up")
  {
    WorstIsMinimal(ms);
    var w := WorstIndex(ms);
    if exists i :: 0 <= i < |ms| && StatusOf(ms[i]) == JStr("down") {
      var i :| 0 <= i < |ms| && StatusOf(ms[i]) == JStr("down");
      assert PriorityIndex(StatusOf(ms[i])) == 0;
    }
    if w != 4 {
      var i :| 0 <= i < |ms| && PriorityIndex(StatusOf(ms[i])) == w;
      assert StatusOf(ms[i]) != JStr("up");
    }
  }
}
