/**
 * The monitor fetcher of the indicator: mode selection, the fail-fast checks
 * before any request, the retrying `_request` with its tracked GLib timeouts,
 * the uptime badge and the heartbeat history of the private API.
 */
module Network {
  import opened Wrappers
  import opened Text
  import opened Js
  import opened Uri
  import opened Http
  import opened Parsers

  /** The three ways of reading monitors. */
  datatype Mode = StatusPage | ApiKey | Metrics

  /** `config.apiMode || 'status-page'`, where anything unknown means the status page. */
  function SelectMode(apiMode: string): (m: Mode)
    ensures m == Metrics <==> apiMode == "metrics"
    ensures m == ApiKey <==> apiMode == "api-key"
    ensures m == StatusPage <==> apiMode != "metrics" && apiMode != "api-key"
  {
    var raw := OrDefault(apiMode, "status-page");
    if raw == "metrics" then Metrics else if raw == "api-key" then ApiKey else StatusPage
  }

  /**
   * The normalisers and runtime services the fetcher calls besides
   * `normalizeApi`: `JSON.parse`, the status-page normaliser (monitors and
   * heartbeat map), `normalizeMetrics`, `normalizeHeartbeatHistory`, base64 of
   * UTF-8 text, and the uuid and ISO-8601 reader `normalizeApi` needs. An `Err`
   * is what the function throws.
   */
  datatype Host = Host(
    parseJson: string -> Result<Json, JsError>,
    statusPage: Json -> Result<(Option<seq<Monitor>>, Json), JsError>,
    uuid: nat -> string,
    iso: string -> IsoParse,
    metrics: string -> Result<Option<seq<Monitor>>, JsError>,
    history: Json -> Result<Json, JsError>,
    base64: string -> string)

  /** `{ source, monitors, heartbeatMap }`; `monitors` None when the normaliser gave no array. */
  datatype FetchResult = FetchResult(source: string, monitors: Option<seq<Monitor>>, heartbeatMap: Json)

  /** The error thrown before any request is made, if any. */
  function PreflightError(mode: Mode, c: Config, apiKey: string): (r: Option<JsError>)
    ensures c.baseUrl == "" ==> r == Some(Error(BaseUrlMissing))
    ensures c.baseUrl != "" && mode != StatusPage && apiKey == "" ==> r == Some(Error(ApiTokenMissing))
    ensures r.None? <==> c.baseUrl != "" && (mode == StatusPage || apiKey != "")
  {
    if c.baseUrl == "" then Some(Error(BaseUrlMissing))
    else if mode != StatusPage && apiKey == "" then Some(Error(ApiTokenMissing))
    else None
  }

  /** The Prometheus endpoint, `metrics` unless configured. */
  function MetricsUrl(c: Config): string {
    JoinUrl(c.baseUrl, OrDefault(c.metricsEndpoint, "metrics"))
  }

  function ModeUrl(mode: Mode, c: Config): string {
    match mode
    case StatusPage => StatusPageUrl(c)
    case ApiKey => PrivateApiUrl(c)
    case Metrics => MetricsUrl(c)
  }

  /**
   * The headers of each mode: the private API sends the token as it is, the
   * metrics endpoint as HTTP basic credentials with an empty user name.
   */
  function ModeHeaders(mode: Mode, apiKey: string, base64: string -> string): (r: seq<(string, string)>)
    ensures mode == StatusPage ==> r == [("Accept", "application/json")]
    ensures mode == ApiKey ==> ("Authorization", apiKey) in r
    ensures mode == Metrics ==> ("Authorization", "Basic " + base64(":" + apiKey)) in r
  {
    match mode
    case StatusPage => [("Accept", "application/json")]
    case ApiKey => [("Accept", "application/json"), ("Authorization", apiKey)]
    case Metrics => [("Accept", "text/plain"), ("Authorization", "Basic " + base64(":" + apiKey))]
  }

  function SourceName(mode: Mode): string {
    match mode
    case StatusPage => "status-page"
    case ApiKey => "api"
    case Metrics => "metrics"
  }

  /** What the fetch of a mode returns for the response text (or the error) of its request. */
  function ModeResult(mode: Mode, response: Result<string, JsError>, host: Host): (r: Result<FetchResult, JsError>)
    ensures response.Err? ==> r == Err(response.error)
    ensures r.Ok? ==> r.value.source == SourceName(mode)
    ensures r.Ok? && mode != StatusPage ==> r.value.heartbeatMap == JUndef
    ensures r.Ok? && mode == ApiKey ==> r.value.monitors.Some?
  {
    match mode
    case StatusPage =>
      (match DecodeJson(response, host.parseJson)
       case Err(e) => Err(e)
       case Ok(json) =>
         match host.statusPage(json)
         case Err(e) => Err(e)
         case Ok((monitors, heartbeatMap)) => Ok(FetchResult("status-page", monitors, heartbeatMap)))
    case ApiKey =>
      (match DecodeJson(response, host.parseJson)
       case Err(e) => Err(e)
       case Ok(json) =>
         match NormalizeApi(json, host.uuid, host.iso)
         case Err(e) => Err(e)
         case Ok(monitors) => Ok(FetchResult("api", Some(monitors), JUndef)))
    case Metrics =>
      match response
      case Err(e) => Err(e)
      case Ok(text) =>
        match host.metrics(text)
        case Err(e) => Err(e)
        case Ok(monitors) => Ok(FetchResult("metrics", monitors, JUndef))
  }

  /** Only the private API and the metrics endpoint need the token. */
  lemma StatusPageNeedsNoToken(c: Config, apiKey: string)
    requires c.baseUrl != ""
    ensures PreflightError(StatusPage, c, apiKey).None?
    ensures apiKey == "" ==> PreflightError(ApiKey, c, apiKey).Some? && PreflightError(Metrics, c, apiKey).Some?
  {
  }

  /** The body a message gets: none for null or undefined, otherwise a content type by kind. */
  function MainBody(payload: Payload, contentType: Option<string>): (r: Option<Body>)
    ensures r.None? <==> payload.Absent? || (payload.ValueBody? && Nullish(payload.value))
    ensures r.Some? ==> r.value.payload == payload
    ensures r.Some? && contentType.Some? ==> r.value.mime == contentType.value
  {
    var mime := match payload
      case GBytesBody(_) => contentType.GetOr("application/octet-stream")
      case TextBody(_) => contentType.GetOr("text/plain")
      case ByteArrayBody(_) => contentType.GetOr("application/octet-stream")
      case _ => contentType.GetOr("application/json");
    if payload.Absent? || (payload.ValueBody? && Nullish(payload.value)) then None
    else Some(Body(mime, payload))
  }

  // ---------------------------------------------------------------------------
  // Heartbeat history

  /** A monitor still without a history: its `history` is not a non-empty array. */
  predicate Pending(m: Monitor) {
    !(m.history.JArr? && |m.history.items| > 0)
  }

  /** `Math.max(24, config.heartbeatLimit ?? 24)`. */
  function HeartbeatLimit(c: Config): (r: int)
    ensures r >= 24
    ensures c.heartbeatLimit.Some? && c.heartbeatLimit.value >= 24 ==> r == c.heartbeatLimit.value
    ensures c.heartbeatLimit.None? ==> r == 24
  {
    var limit := c.heartbeatLimit.GetOr(24);
    if limit > 24 then limit else 24
  }

  /** The heartbeat series of one monitor: `<endpoint>/<id>?limit=<n>` under the base URL. */
  function HistoryUrl(c: Config, monitorId: Json): string {
    JoinUrl(c.baseUrl,
      OrDefault(c.heartbeatEndpoint, "api/heartbeat") + "/" + EncodeUriComponent(ToStr(monitorId))
      + "?limit=" + IntToString(HeartbeatLimit(c)))
  }

  /** The heartbeat URL of every monitor, in order. */
  function HistoryUrls(c: Config, ms: seq<Monitor>): (r: seq<string>)
    ensures |r| == |ms| && forall i :: 0 <= i < |ms| ==> r[i] == HistoryUrl(c, ms[i].id)
  {
    seq(|ms|, i requires 0 <= i < |ms| => HistoryUrl(c, ms[i].id))
  }

  function HistoryHeaders(apiKey: string): seq<(string, string)> {
    [("Accept", "application/json"), ("Authorization", apiKey)]
  }

  function HistoryRecord(c: Config, apiKey: string, monitorId: Json, timeoutSeconds: int): RequestRecord {
    RequestRecord("GET", HistoryUrl(c, monitorId), HistoryHeaders(apiKey), timeoutSeconds, None)
  }

  /** The history a fetched series gives; any error keeps the old one, or `[]` when it had none. */
  function HistoryOf(m: Monitor, json: Result<Json, JsError>, host: Host): (h: Json)
    ensures json.Ok? && host.history(json.value).Ok? ==> h == host.history(json.value).value
    ensures json.Err? || host.history(json.value).Err? ==> h == Coalesce(m.history, JArr([]))
  {
    match json
    case Err(_) => Coalesce(m.history, JArr([]))
    case Ok(j) =>
      match host.history(j)
      case Ok(h) => h
      case Err(_) => Coalesce(m.history, JArr([]))
  }

  /**
   * One monitor of `_populatePrivateApiHistory` when the fetcher's next
   * attempt is `start`: the monitor afterwards and the attempts it took.
   */
  function FillOne(open: bool, net: Network, retries: int, host: Host,
                   m: Monitor, url: string, start: nat): (r: (Monitor, nat))
    ensures r.0 == m.(history := r.0.history)
    ensures !Pending(m) || Nullish(m.id) ==> r == (m, 0)
  {
    if !Pending(m) || Nullish(m.id) then (m, 0)
    else
      var json := DecodeJson(RequestResult(open, net, url, start, retries), host.parseJson);
      (m.(history := HistoryOf(m, json, host)), AttemptCount(open, net, url, start, retries))
  }

  /**
   * The first `n` monitors after `_populatePrivateApiHistory`, and the number
   * of attempts that took, when the fetcher's next attempt is `start`.
   */
  function FillHistory(open: bool, net: Network, retries: int, host: Host,
                       ms: seq<Monitor>, urls: seq<string>, n: nat, start: nat): (r: (seq<Monitor>, nat))
    requires n <= |ms| == |urls|
    ensures |r.0| == n
  {
    if n == 0 then ([], 0)
    else
      var prev := FillHistory(open, net, retries, host, ms, urls, n - 1, start);
      var next := FillOne(open, net, retries, host, ms[n - 1], urls[n - 1], start + prev.1);
      (prev.0 + [next.0], prev.1 + next.1)
  }

  /** One more monitor extends the fill by what `FillOne` does with it. */
  lemma FillHistoryNext(open: bool, net: Network, retries: int, host: Host,
                        ms: seq<Monitor>, urls: seq<string>, n: nat, start: nat,
                        done: seq<Monitor>, next: nat, updated: Monitor, after: nat)
    requires n < |ms| == |urls| && start <= next <= after
    requires done == FillHistory(open, net, retries, host, ms, urls, n, start).0
    requires next == start + FillHistory(open, net, retries, host, ms, urls, n, start).1
    requires updated == FillOne(open, net, retries, host, ms[n], urls[n], next).0
    requires after == next + FillOne(open, net, retries, host, ms[n], urls[n], next).1
    ensures done + [updated] == FillHistory(open, net, retries, host, ms, urls, n + 1, start).0
    ensures after == start + FillHistory(open, net, retries, host, ms, urls, n + 1, start).1
  {
  }

  /**
   * Filling the history changes nothing but `history`, and only on pending
   * monitors that have an id.
   */
  lemma {:induction false} FillHistoryTouchesOnlyHistory(open: bool, net: Network, retries: int, host: Host,
                                                         ms: seq<Monitor>, urls: seq<string>, n: nat, start: nat)
    requires n <= |ms| == |urls|
    ensures var out := FillHistory(open, net, retries, host, ms, urls, n, start).0;
      forall i :: 0 <= i < n ==>
        out[i] == ms[i].(history := out[i].history)
        && (!Pending(ms[i]) || Nullish(ms[i].id) ==> out[i] == ms[i])
  {
    if n > 0 {
      FillHistoryTouchesOnlyHistory(open, net, retries, host, ms, urls, n - 1, start);
    }
  }

  /**
   * The list after `populateHistory` when the fetcher's next attempt is
   * `start`: only the private API with a base URL and a token fills histories.
   */
  function HistoryFilled(open: bool, net: Network, retries: int, host: Host, c: Config, apiKey: string,
                         ms: seq<Monitor>, start: nat): (r: seq<Monitor>)
    ensures |r| == |ms|
  {
    if SelectMode(c.apiMode) != ApiKey || c.baseUrl == "" || apiKey == "" then ms
    else FillHistory(open, net, retries, host, ms, HistoryUrls(c, ms), |ms|, start).0
  }

  /** `populateHistory` keeps every monitor in its place and changes nothing but `history`. */
  lemma HistoryFilledTouchesOnlyHistory(open: bool, net: Network, retries: int, host: Host, c: Config, apiKey: string,
                                        ms: seq<Monitor>, start: nat)
    ensures var out := HistoryFilled(open, net, retries, host, c, apiKey, ms, start);
      forall i :: 0 <= i < |ms| ==> out[i] == ms[i].(history := out[i].history)
  {
    if SelectMode(c.apiMode) == ApiKey && c.baseUrl != "" && apiKey != "" {
      FillHistoryTouchesOnlyHistory(open, net, retries, host, ms, HistoryUrls(c, ms), |ms|, start);
    }
  }

  /**
   * When the history normaliser always yields a value, every pending monitor
   * with an id ends up with a history that is not null or undefined, whether
   * its request succeeds or not.
   */
  lemma {:induction false} FillHistoryLeavesNoGap(open: bool, net: Network, retries: int, host: Host,
                                                  ms: seq<Monitor>, urls: seq<string>, n: nat, start: nat)
    requires n <= |ms| == |urls|
    requires forall j :: host.history(j).Ok? ==> !Nullish(host.history(j).value)
    ensures var out := FillHistory(open, net, retries, host, ms, urls, n, start).0;
      forall i :: 0 <= i < n && Pending(ms[i]) && !Nullish(ms[i].id) ==> !Nullish(out[i].history)
  {
    if n > 0 {
      FillHistoryLeavesNoGap(open, net, retries, host, ms, urls, n - 1, start);
      var done := FillHistory(open, net, retries, host, ms, urls, n - 1, start).0;
      var out := FillHistory(open, net, retries, host, ms, urls, n, start).0;
      forall i | 0 <= i < n && Pending(ms[i]) && !Nullish(ms[i].id)
        ensures !Nullish(out[i].history)
      {
        if i < n - 1 {
          assert out[i] == done[i];
        }
      }
    }
  }

  // ---------------------------------------------------------------------------
  // The fetcher

  class MonitorFetcher {
    const timeoutSeconds: int
    const retries: int
    const backoff: real
    /** The GLib sources of the back-off sleeps still waiting to fire. */
    var activeTimeouts: set<nat>
    /** The source id GLib hands out next; GLib never hands out 0. */
    var nextSourceId: nat
    var sessionOpen: bool
    /** Every message built so far, one per attempt. */
    var attempts: seq<RequestRecord>
    /** Every back-off sleep requested so far, in milliseconds. */
    var sleeps: seq<real>

    ghost predicate Valid()
      reads this
    {
      nextSourceId >= 1 && forall id :: id in activeTimeouts ==> 1 <= id < nextSourceId
    }

    constructor(timeoutSeconds: int, retries: int, backoff: real)
      ensures Valid()
      ensures this.timeoutSeconds == timeoutSeconds && this.retries == retries && this.backoff == backoff
      ensures activeTimeouts == {} && sessionOpen && attempts == [] && sleeps == []
    {
      this.timeoutSeconds := timeoutSeconds;
      this.retries := retries;
      this.backoff := backoff;
      activeTimeouts := {};
      nextSourceId := 1;
      sessionOpen := true;
      attempts := [];
      sleeps := [];
    }

    /** `destroy()`: removes every pending timeout and drops the session. */
    method Destroy()
      requires Valid()
      modifies this
      ensures Valid()
      ensures activeTimeouts == {} && !sessionOpen
      ensures nextSourceId == old(nextSourceId) && attempts == old(attempts) && sleeps == old(sleeps)
    {
      activeTimeouts := {};
      sessionOpen := false;
    }

    /** `GLib.timeout_add` of a back-off sleep; the new source is tracked until it fires. */
    method AddTimeout(ms: real) returns (id: nat)
      requires Valid()
      modifies this
      ensures Valid()
      ensures id == old(nextSourceId) && id >= 1 && id !in old(activeTimeouts)
      ensures activeTimeouts == old(activeTimeouts) + {id} && nextSourceId == old(nextSourceId) + 1
      ensures sleeps == old(sleeps) + [ms] && attempts == old(attempts) && sessionOpen == old(sessionOpen)
    {
      id := nextSourceId;
      nextSourceId := nextSourceId + 1;
      activeTimeouts := activeTimeouts + {id};
      sleeps := sleeps + [ms];
    }

    /** The timeout callback: the source forgets itself and the sleep resolves. */
    method FireTimeout(id: nat)
      requires Valid()
      modifies this
      ensures Valid()
      ensures activeTimeouts == old(activeTimeouts) - {id}
      ensures nextSourceId == old(nextSourceId) && sleeps == old(sleeps) && attempts == old(attempts)
      ensures sessionOpen == old(sessionOpen)
    {
      activeTimeouts := activeTimeouts - {id};
    }

    /** The back-off sleep of `_request`: a tracked timeout that fires and is forgotten. */
    method Sleep(ms: real)
      requires Valid()
      modifies this
      ensures Valid()
      ensures sleeps == old(sleeps) + [ms] && nextSourceId == old(nextSourceId) + 1
      ensures activeTimeouts == old(activeTimeouts) && attempts == old(attempts) && sessionOpen == old(sessionOpen)
    {
      var id := AddTimeout(ms);
      FireTimeout(id);
    }

    /**
     * `_request`: up to `retries` attempts, sleeping 400 ms, growing by
     * `backoff` up to 4000 ms, between failed ones. Every sleep's timeout has
     * fired and been forgotten by the time the request ends.
     */
    method Request(url: string, headers: seq<(string, string)>, verb: string, body: Payload,
                   contentType: Option<string>, net: Network) returns (r: Result<string, JsError>)
      requires Valid()
      modifies this
      ensures Valid()
      ensures r == RequestResult(sessionOpen, net, url, |old(attempts)|, retries)
      ensures attempts == old(attempts)
        + Repeat(RequestRecord(verb, url, headers, timeoutSeconds, MainBody(body, contentType)),
                 AttemptCount(sessionOpen, net, url, |old(attempts)|, retries))
      ensures sleeps == old(sleeps) + Waits(backoff, SleepCount(sessionOpen, net, url, |old(attempts)|, retries))
      ensures activeTimeouts == old(activeTimeouts)
      ensures nextSourceId == old(nextSourceId) + SleepCount(sessionOpen, net, url, |old(attempts)|, retries)
      ensures sessionOpen == old(sessionOpen)
    {
      var rec := RequestRecord(verb, url, headers, timeoutSeconds, MainBody(body, contentType));
      var start := |attempts|;
      var attempt: nat := 0;
      var wait := InitialWait;
      var lastError: Option<JsError> := None;
      while attempt < retries
        invariant attempt <= Tries(retries)
        invariant forall k :: 0 <= k < attempt ==> !Succeeded(Attempt(sessionOpen, net, url, start, k))
        invariant wait == Wait(backoff, attempt)
        invariant attempts == old(attempts) + Repeat(rec, attempt)
        invariant sleeps == old(sleeps) + Waits(backoff, Slept(attempt, retries))
        invariant nextSourceId == old(nextSourceId) + Slept(attempt, retries)
        invariant attempt == 0 ==> lastError == None
        invariant attempt > 0 ==> lastError == Some(ErrorOf(Attempt(sessionOpen, net, url, start, attempt - 1)))
        invariant Valid() && activeTimeouts == old(activeTimeouts)
        invariant sessionOpen == old(sessionOpen)
      {
        var outcome := Attempt(sessionOpen, net, url, start, attempt);
        RepeatSnoc(old(attempts), rec, attempt);
        attempts := attempts + [rec];
        if Succeeded(outcome) {
          StopsAtFirstSuccess(sessionOpen, net, url, start, retries, attempt);
          return Ok(outcome.body);
        }
        lastError := Some(ErrorOf(outcome));
        attempt := attempt + 1;
        if attempt < retries {
          WaitsSnoc(old(sleeps), backoff, attempt - 1);
          Sleep(wait);
        }
        wait := Grow(wait, backoff);
      }
      if lastError.Some? {
        AllAttemptsFail(sessionOpen, net, url, start, retries);
        return Err(lastError.value);
      }
      NoAttempts(sessionOpen, net, url, start, retries);
      return Err(Error(UnknownNetworkError));
    }

    /** `_getJson`: the request's text, `null` when empty, parsed otherwise. */
    method GetJson(url: string, headers: seq<(string, string)>, net: Network,
                   parse: string -> Result<Json, JsError>) returns (r: Result<Json, JsError>)
      requires Valid()
      modifies this
      ensures Valid()
      ensures r == DecodeJson(RequestResult(sessionOpen, net, url, |old(attempts)|, retries), parse)
      ensures attempts == old(attempts)
        + Repeat(RequestRecord("GET", url, headers, timeoutSeconds, None),
                 AttemptCount(sessionOpen, net, url, |old(attempts)|, retries))
      ensures activeTimeouts == old(activeTimeouts) && sessionOpen == old(sessionOpen)
    {
      var text := Request(url, headers, "GET", Absent, None, net);
      if text.Err? {
        return Err(text.error);
      }
      if text.value == "" {
        return Ok(JNull);
      }
      r := parse(text.value);
    }

    /** `_fetchStatusPage`. */
    method FetchStatusPage(c: Config, net: Network, host: Host) returns (r: Result<FetchResult, JsError>)
      requires Valid()
      modifies this
      ensures Valid()
      ensures c.baseUrl == "" ==> r == Err(Error(BaseUrlMissing)) && attempts == old(attempts)
      ensures c.baseUrl != "" ==>
        r == ModeResult(StatusPage, RequestResult(sessionOpen, net, StatusPageUrl(c), |old(attempts)|, retries), host)
        && attempts == old(attempts)
          + Repeat(RequestRecord("GET", StatusPageUrl(c), ModeHeaders(StatusPage, "", host.base64), timeoutSeconds, None),
                   AttemptCount(sessionOpen, net, StatusPageUrl(c), |old(attempts)|, retries))
      ensures activeTimeouts == old(activeTimeouts) && sessionOpen == old(sessionOpen)
    {
      if c.baseUrl == "" {
        return Err(Error(BaseUrlMissing));
      }
      var url := StatusPageUrl(c);
      var json := GetJson(url, ModeHeaders(StatusPage, "", host.base64), net, host.parseJson);
      if json.Err? {
        return Err(json.error);
      }
      var normalized := host.statusPage(json.value);
      if normalized.Err? {
        return Err(normalized.error);
      }
      return Ok(FetchResult("status-page", normalized.value.0, normalized.value.1));
    }

    /** `_fetchPrivateApi`: `apiKey` is what `helpers.getApiKey` yields, "" when nothing. */
    method FetchPrivateApi(c: Config, apiKey: string, net: Network, host: Host) returns (r: Result<FetchResult, JsError>)
      requires Valid()
      modifies this
      ensures Valid()
      ensures PreflightError(ApiKey, c, apiKey).Some? ==>
        r == Err(PreflightError(ApiKey, c, apiKey).value) && attempts == old(attempts)
      ensures PreflightError(ApiKey, c, apiKey).None? ==>
        r == ModeResult(ApiKey, RequestResult(sessionOpen, net, PrivateApiUrl(c), |old(attempts)|, retries), host)
        && attempts == old(attempts)
          + Repeat(RequestRecord("GET", PrivateApiUrl(c), ModeHeaders(ApiKey, apiKey, host.base64), timeoutSeconds, None),
                   AttemptCount(sessionOpen, net, PrivateApiUrl(c), |old(attempts)|, retries))
      ensures activeTimeouts == old(activeTimeouts) && sessionOpen == old(sessionOpen)
    {
      if c.baseUrl == "" {
        return Err(Error(BaseUrlMissing));
      }
      if apiKey == "" {
        return Err(Error(ApiTokenMissing));
      }
      var url := PrivateApiUrl(c);
      var json := GetJson(url, ModeHeaders(ApiKey, apiKey, host.base64), net, host.parseJson);
      if json.Err? {
        return Err(json.error);
      }
      var normalized := NormalizeApi(json.value, host.uuid, host.iso);
      if normalized.Err? {
        return Err(normalized.error);
      }
      return Ok(FetchResult("api", Some(normalized.value), JUndef));
    }

    /** `_fetchMetrics`: the Prometheus text, authenticated with the token as a basic password. */
    method FetchMetrics(c: Config, apiKey: string, net: Network, host: Host) returns (r: Result<FetchResult, JsError>)
      requires Valid()
      modifies this
      ensures Valid()
      ensures PreflightError(Metrics, c, apiKey).Some? ==>
        r == Err(PreflightError(Metrics, c, apiKey).value) && attempts == old(attempts)
      ensures PreflightError(Metrics, c, apiKey).None? ==>
        r == ModeResult(Metrics, RequestResult(sessionOpen, net, MetricsUrl(c), |old(attempts)|, retries), host)
        && attempts == old(attempts)
          + Repeat(RequestRecord("GET", MetricsUrl(c), ModeHeaders(Metrics, apiKey, host.base64), timeoutSeconds, None),
                   AttemptCount(sessionOpen, net, MetricsUrl(c), |old(attempts)|, retries))
      ensures activeTimeouts == old(activeTimeouts) && sessionOpen == old(sessionOpen)
    {
      if c.baseUrl == "" {
        return Err(Error(BaseUrlMissing));
      }
      if apiKey == "" {
        return Err(Error(ApiTokenMissing));
      }
      var url := MetricsUrl(c);
      var text := Request(url, ModeHeaders(Metrics, apiKey, host.base64), "GET", Absent, None, net);
      if text.Err? {
        return Err(text.error);
      }
      var normalized := host.metrics(text.value);
      if normalized.Err? {
        return Err(normalized.error);
      }
      return Ok(FetchResult("metrics", normalized.value, JUndef));
    }

    /**
     * `fetch`: dispatches on the mode. A missing base URL, or a missing token
     * outside the status-page mode, fails before anything is requested;
     * otherwise the mode's endpoint is requested with the mode's headers.
     */
    method Fetch(c: Config, apiKey: string, net: Network, host: Host) returns (r: Result<FetchResult, JsError>)
      requires Valid()
      modifies this
      ensures Valid()
      ensures var mode := SelectMode(c.apiMode);
        var url := ModeUrl(mode, c);
        var key := if mode == StatusPage then "" else apiKey;
        (PreflightError(mode, c, apiKey).Some? ==>
          r == Err(PreflightError(mode, c, apiKey).value) && attempts == old(attempts))
        && (PreflightError(mode, c, apiKey).None? ==>
          r == ModeResult(mode, RequestResult(sessionOpen, net, url, |old(attempts)|, retries), host)
          && attempts == old(attempts)
            + Repeat(RequestRecord("GET", url, ModeHeaders(mode, key, host.base64), timeoutSeconds, None),
                     AttemptCount(sessionOpen, net, url, |old(attempts)|, retries)))
      ensures activeTimeouts == old(activeTimeouts) && sessionOpen == old(sessionOpen)
    {
      var mode := SelectMode(c.apiMode);
      if mode == StatusPage {
        r := FetchStatusPage(c, net, host);
      } else if mode == Metrics {
        r := FetchMetrics(c, apiKey, net, host);
      } else {
        r := FetchPrivateApi(c, apiKey, net, host);
      }
    }

    /**
     * `fetchUptimeBadge`: no id means no badge and no request; a missing base
     * URL throws; otherwise the badge SVG text is requested.
     */
    method FetchUptimeBadge(monitorId: Json, c: Config, net: Network) returns (r: Result<Option<string>, JsError>)
      requires Valid()
      modifies this
      ensures Valid()
      ensures Nullish(monitorId) ==> r == Ok(None) && attempts == old(attempts)
      ensures !Nullish(monitorId) && c.baseUrl == "" ==> r == Err(Error(BaseUrlMissing)) && attempts == old(attempts)
      ensures !Nullish(monitorId) && c.baseUrl != "" ==>
        var url := BadgeUrl(c.baseUrl, monitorId);
        var response := RequestResult(sessionOpen, net, url, |old(attempts)|, retries);
        (response.Err? ==> r == Err(response.error))
        && (response.Ok? ==> r == Ok(Some(response.value)))
        && attempts == old(attempts)
          + Repeat(RequestRecord("GET", url, [("Accept", "image/svg+xml,*/*;q=0.8")], timeoutSeconds, None),
                   AttemptCount(sessionOpen, net, url, |old(attempts)|, retries))
      ensures activeTimeouts == old(activeTimeouts) && sessionOpen == old(sessionOpen)
    {
      if Nullish(monitorId) {
        return Ok(None);
      }
      if c.baseUrl == "" {
        return Err(Error(BaseUrlMissing));
      }
      var url := BadgeUrl(c.baseUrl, monitorId);
      var svg := Request(url, [("Accept", "image/svg+xml,*/*;q=0.8")], "GET", Absent, None, net);
      if svg.Err? {
        return Err(svg.error);
      }
      return Ok(Some(svg.value));
    }

    /** The loop body of `_populatePrivateApiHistory` for one monitor. */
    method FetchHistoryOf(m: Monitor, url: string, apiKey: string, net: Network, host: Host) returns (r: Monitor)
      requires Valid()
      modifies this
      ensures Valid()
      ensures r == FillOne(sessionOpen, net, retries, host, m, url, |old(attempts)|).0
      ensures |attempts| == |old(attempts)| + FillOne(sessionOpen, net, retries, host, m, url, |old(attempts)|).1
      ensures |attempts| >= |old(attempts)|
      ensures activeTimeouts == old(activeTimeouts) && sessionOpen == old(sessionOpen)
    {
      if !Pending(m) || Nullish(m.id) {
        return m;
      }
      var json := GetJson(url, HistoryHeaders(apiKey), net, host.parseJson);
      r := m.(history := HistoryOf(m, json, host));
    }

    /**
     * `_populatePrivateApiHistory` over all monitors (the caller's filter to
     * pending monitors is applied per monitor): each pending monitor with an
     * id gets the series fetched for it, in order.
     */
    method PopulatePrivateApiHistory(ms: seq<Monitor>, c: Config, apiKey: string, net: Network, host: Host)
      returns (r: seq<Monitor>)
      requires Valid()
      modifies this
      ensures Valid()
      ensures c.baseUrl == "" || apiKey == "" ==> r == ms && attempts == old(attempts)
      ensures c.baseUrl != "" && apiKey != "" ==>
        var filled := FillHistory(sessionOpen, net, retries, host, ms, HistoryUrls(c, ms), |ms|, |old(attempts)|);
        r == filled.0 && |attempts| == |old(attempts)| + filled.1
      ensures activeTimeouts == old(activeTimeouts) && sessionOpen == old(sessionOpen)
    {
      if c.baseUrl == "" || apiKey == "" {
        return ms;
      }
      ghost var start := |attempts|;
      // Every URL is a pure function of its monitor, so building them up front changes nothing.
      var urls := HistoryUrls(c, ms);
      r := [];
      var i := 0;
      while i < |ms|
        invariant 0 <= i <= |ms|
        invariant Valid()
        invariant |attempts| >= start
        invariant r == FillHistory(sessionOpen, net, retries, host, ms, urls, i, start).0
        invariant |attempts| == start + FillHistory(sessionOpen, net, retries, host, ms, urls, i, start).1
        invariant activeTimeouts == old(activeTimeouts) && sessionOpen == old(sessionOpen)
      {
        ghost var before := |attempts|;
        var updated := FetchHistoryOf(ms[i], urls[i], apiKey, net, host);
        FillHistoryNext(sessionOpen, net, retries, host, ms, urls, i, start, r, before, updated, |attempts|);
        r := r + [updated];
        i := i + 1;
      }
    }

    /**
     * `populateHistory`: only the private API has history; a missing list, or
     * any other mode, leaves the monitors as they are.
     */
    method PopulateHistory(monitors: Option<seq<Monitor>>, c: Config, apiKey: string, net: Network, host: Host)
      returns (r: Option<seq<Monitor>>)
      requires Valid()
      modifies this
      ensures Valid()
      ensures monitors.None? || SelectMode(c.apiMode) != ApiKey ==> r == monitors && attempts == old(attempts)
      ensures monitors.Some? && SelectMode(c.apiMode) == ApiKey && (c.baseUrl == "" || apiKey == "") ==>
        r == monitors && attempts == old(attempts)
      ensures monitors.Some? && SelectMode(c.apiMode) == ApiKey && c.baseUrl != "" && apiKey != "" ==>
        var filled := FillHistory(sessionOpen, net, retries, host, monitors.value, HistoryUrls(c, monitors.value), |monitors.value|,
                                  |old(attempts)|);
        r == Some(filled.0) && |attempts| == |old(attempts)| + filled.1
      ensures monitors.Some? ==> r == Some(HistoryFilled(sessionOpen, net, retries, host, c, apiKey, monitors.value, |old(attempts)|))
      ensures activeTimeouts == old(activeTimeouts) && sessionOpen == old(sessionOpen)
    {
      if monitors.None? || SelectMode(c.apiMode) != ApiKey {
        return monitors;
      }
      var ms := PopulatePrivateApiHistory(monitors.value, c, apiKey, net, host);
      return Some(ms);
    }
  }
}
