/**
 * The monitor fetcher of the packaged copy of the extension: two modes only,
 * untracked back-off sleeps and a body that is attached only when it is
 * truthy. The packaged copy imports its own `utils/parsers.js`, which is not
 * part of this model; the main copy's `NormalizeStatusPage` and `NormalizeApi`
 * stand for it.
 */
module BuildNetwork {
  import opened Wrappers
  import opened Js
  import opened Http
  import opened Parsers
  import opened Network

  /** Only `'api-key'` selects the private API; everything else, `metrics` included, reads the status page. */
  function SelectBuildMode(apiMode: string): (m: Mode)
    ensures m == ApiKey <==> apiMode == "api-key"
    ensures m != Metrics
  {
    if apiMode == "api-key" then ApiKey else StatusPage
  }

  /** The metrics mode of the main fetcher falls back to the status page here. */
  lemma MetricsFallsBackToStatusPage()
    ensures SelectMode("metrics") == Metrics && SelectBuildMode("metrics") == StatusPage
  {
  }

  /** A truthy body is attached: text as `text/plain`, byte arrays as octet streams, anything else as JSON. */
  function BuildBody(payload: Payload): (r: Option<Body>)
    ensures r.None? <==> match payload
      case Absent => true
      case TextBody(t) => t == ""
      case ValueBody(v) => !Truthy(v)
      case _ => false
    ensures r.Some? ==> r.value.payload == payload
  {
    match payload
    case Absent => None
    case TextBody(t) => if t == "" then None else Some(Body("text/plain", payload))
    case ByteArrayBody(_) => Some(Body("application/octet-stream", payload))
    case GBytesBody(_) => Some(Body("application/json", payload))
    case ValueBody(v) => if Truthy(v) then Some(Body("application/json", payload)) else None
  }

  /**
   * Where the two copies of `_request` disagree on bodies: the packaged one
   * labels GLib bytes as JSON and drops an empty string or a falsy value,
   * which the main one sends; otherwise both send the same body.
   */
  lemma BodiesOfTheTwoFetchers(payload: Payload)
    ensures payload.GBytesBody? ==>
      BuildBody(payload).value.mime == "application/json"
      && MainBody(payload, None).value.mime == "application/octet-stream"
    ensures payload == TextBody("") ==> BuildBody(payload).None? && MainBody(payload, None).Some?
    ensures payload.ValueBody? && !Nullish(payload.value) && !Truthy(payload.value) ==>
      BuildBody(payload).None? && MainBody(payload, None).Some?
    ensures !payload.GBytesBody? && BuildBody(payload).Some? ==> BuildBody(payload) == MainBody(payload, None)
  {
    NullishIsFalsy(if payload.ValueBody? then payload.value else JNull);
  }

  /** The headers of the two modes: JSON, and the token as it is for the private API. */
  function BuildHeaders(mode: Mode, apiKey: string): (r: seq<(string, string)>)
    requires mode != Metrics
    ensures ("Accept", "application/json") in r
    ensures mode == ApiKey ==> ("Authorization", apiKey) in r
    ensures mode == StatusPage ==> forall h :: h in r ==> h.0 != "Authorization"
  {
    if mode == StatusPage then [("Accept", "application/json")]
    else [("Accept", "application/json"), ("Authorization", apiKey)]
  }

  /** Both copies send the same headers in the modes they share. */
  lemma SameHeadersAsMain(mode: Mode, apiKey: string, base64: string -> string)
    requires mode != Metrics
    ensures BuildHeaders(mode, apiKey) == ModeHeaders(mode, apiKey, base64)
  {
  }

  /** The normalisers (the main copy's, standing for the packaged ones) need fresh ids and an ISO-8601 reader, and `JSON.parse`. */
  datatype BuildHost = BuildHost(
    parseJson: string -> Result<Json, JsError>,
    uuid: nat -> string,
    iso: string -> IsoParse)

  /** What the fetch of a mode returns for the response text (or the error) of its request. */
  function BuildModeResult(mode: Mode, response: Result<string, JsError>, host: BuildHost): (r: Result<FetchResult, JsError>)
    requires mode != Metrics
    ensures response.Err? ==> r == Err(response.error)
    ensures r.Ok? ==> r.value.source == SourceName(mode) && r.value.monitors.Some?
  {
    match DecodeJson(response, host.parseJson)
    case Err(e) => Err(e)
    case Ok(json) =>
      if mode == StatusPage then
        match StatusPageMonitors(json, host.uuid, host.iso)
        case Err(e) => Err(e)
        case Ok(ms) => Ok(FetchResult("status-page", Some(ms), JUndef))
      else
        match NormalizeApi(json, host.uuid, host.iso)
        case Err(e) => Err(e)
        case Ok(ms) => Ok(FetchResult("api", Some(ms), JUndef))
  }

  class BuildMonitorFetcher {
    const timeoutSeconds: int
    const retries: int
    const backoff: real
    /** Every message built so far, one per attempt. */
    var attempts: seq<RequestRecord>
    /** Every back-off sleep requested so far, in milliseconds. */
    var sleeps: seq<real>

    constructor(timeoutSeconds: int, retries: int, backoff: real)
      ensures this.timeoutSeconds == timeoutSeconds && this.retries == retries && this.backoff == backoff
      ensures attempts == [] && sleeps == []
    {
      this.timeoutSeconds := timeoutSeconds;
      this.retries := retries;
      this.backoff := backoff;
      attempts := [];
      sleeps := [];
    }

    /** `sleepAsync`: a timeout that is not tracked, so nothing can cancel it. */
    method SleepAsync(ms: real)
      modifies this
      ensures sleeps == old(sleeps) + [ms] && attempts == old(attempts)
    {
      sleeps := sleeps + [ms];
    }

    /** `_request`, with the same retry schedule as the main fetcher and a session that stays open. */
    method Request(url: string, headers: seq<(string, string)>, verb: string, body: Payload, net: Http.Network)
      returns (r: Result<string, JsError>)
      modifies this
      ensures r == RequestResult(true, net, url, |old(attempts)|, retries)
      ensures attempts == old(attempts)
        + Repeat(RequestRecord(verb, url, headers, timeoutSeconds, BuildBody(body)),
                 AttemptCount(true, net, url, |old(attempts)|, retries))
      ensures sleeps == old(sleeps) + Waits(backoff, SleepCount(true, net, url, |old(attempts)|, retries))
    {
      var rec := RequestRecord(verb, url, headers, timeoutSeconds, BuildBody(body));
      var start := |attempts|;
      var attempt: nat := 0;
      var wait := InitialWait;
      var lastError: Option<JsError> := None;
      while attempt < retries
        invariant attempt <= Tries(retries)
        invariant forall k :: 0 <= k < attempt ==> !Succeeded(Attempt(true, net, url, start, k))
        invariant wait == Wait(backoff, attempt)
        invariant attempts == old(attempts) + Repeat(rec, attempt)
        invariant sleeps == old(sleeps) + Waits(backoff, Slept(attempt, retries))
        invariant attempt == 0 ==> lastError == None
        invariant attempt > 0 ==> lastError == Some(ErrorOf(Attempt(true, net, url, start, attempt - 1)))
      {
        var outcome := Attempt(true, net, url, start, attempt);
        RepeatSnoc(old(attempts), rec, attempt);
        attempts := attempts + [rec];
        if Succeeded(outcome) {
          StopsAtFirstSuccess(true, net, url, start, retries, attempt);
          return Ok(outcome.body);
        }
        lastError := Some(ErrorOf(outcome));
        attempt := attempt + 1;
        if attempt < retries {
          WaitsSnoc(old(sleeps), backoff, attempt - 1);
          SleepAsync(wait);
        }
        wait := Grow(wait, backoff);
      }
      if lastError.Some? {
        AllAttemptsFail(true, net, url, start, retries);
        return Err(lastError.value);
      }
      NoAttempts(true, net, url, start, retries);
      return Err(Error(UnknownNetworkError));
    }

    /** `_getJson`. */
    method GetJson(url: string, headers: seq<(string, string)>, net: Http.Network,
                   parse: string -> Result<Json, JsError>) returns (r: Result<Json, JsError>)
      modifies this
      ensures r == DecodeJson(RequestResult(true, net, url, |old(attempts)|, retries), parse)
      ensures attempts == old(attempts)
        + Repeat(RequestRecord("GET", url, headers, timeoutSeconds, None),
                 AttemptCount(true, net, url, |old(attempts)|, retries))
    {
      var text := Request(url, headers, "GET", Absent, net);
      if text.Err? {
        return Err(text.error);
      }
      if text.value == "" {
        return Ok(JNull);
      }
      r := parse(text.value);
    }

    /** `_fetchStatusPage`, normalised by the main copy's `normalizeStatusPage`. */
    method FetchStatusPage(c: Config, net: Http.Network, host: BuildHost) returns (r: Result<FetchResult, JsError>)
      modifies this
      ensures c.baseUrl == "" ==> r == Err(Error(BaseUrlMissing)) && attempts == old(attempts)
      ensures c.baseUrl != "" ==>
        r == BuildModeResult(StatusPage, RequestResult(true, net, StatusPageUrl(c), |old(attempts)|, retries), host)
        && attempts == old(attempts)
          + Repeat(RequestRecord("GET", StatusPageUrl(c), BuildHeaders(StatusPage, ""), timeoutSeconds, None),
                   AttemptCount(true, net, StatusPageUrl(c), |old(attempts)|, retries))
    {
      if c.baseUrl == "" {
        return Err(Error(BaseUrlMissing));
      }
      var url := StatusPageUrl(c);
      var json := GetJson(url, BuildHeaders(StatusPage, ""), net, host.parseJson);
      if json.Err? {
        return Err(json.error);
      }
      var monitors := NormalizeStatusPage(json.value, host.uuid, host.iso);
      if monitors.Err? {
        return Err(monitors.error);
      }
      return Ok(FetchResult("status-page", Some(monitors.value), JUndef));
    }

    /** `_fetchPrivateApi`, normalised by the main copy's `normalizeApi`. */
    method FetchPrivateApi(c: Config, apiKey: string, net: Http.Network, host: BuildHost) returns (r: Result<FetchResult, JsError>)
      modifies this
      ensures PreflightError(ApiKey, c, apiKey).Some? ==>
        r == Err(PreflightError(ApiKey, c, apiKey).value) && attempts == old(attempts)
      ensures PreflightError(ApiKey, c, apiKey).None? ==>
        r == BuildModeResult(ApiKey, RequestResult(true, net, PrivateApiUrl(c), |old(attempts)|, retries), host)
        && attempts == old(attempts)
          + Repeat(RequestRecord("GET", PrivateApiUrl(c), BuildHeaders(ApiKey, apiKey), timeoutSeconds, None),
                   AttemptCount(true, net, PrivateApiUrl(c), |old(attempts)|, retries))
    {
      if c.baseUrl == "" {
        return Err(Error(BaseUrlMissing));
      }
      if apiKey == "" {
        return Err(Error(ApiTokenMissing));
      }
      var url := PrivateApiUrl(c);
      var json := GetJson(url, BuildHeaders(ApiKey, apiKey), net, host.parseJson);
      if json.Err? {
        return Err(json.error);
      }
      var monitors := NormalizeApi(json.value, host.uuid, host.iso);
      if monitors.Err? {
        return Err(monitors.error);
      }
      return Ok(FetchResult("api", Some(monitors.value), JUndef));
    }

    /** `fetch`: the private API for `'api-key'`, the status page otherwise. */
    method Fetch(c: Config, apiKey: string, net: Http.Network, host: BuildHost) returns (r: Result<FetchResult, JsError>)
      modifies this
      ensures var mode := SelectBuildMode(c.apiMode);
        var url := ModeUrl(mode, c);
        var key := if mode == StatusPage then "" else apiKey;
        (PreflightError(mode, c, apiKey).Some? ==>
          r == Err(PreflightError(mode, c, apiKey).value) && attempts == old(attempts))
        && (PreflightError(mode, c, apiKey).None? ==>
          r == BuildModeResult(mode, RequestResult(true, net, url, |old(attempts)|, retries), host)
          && attempts == old(attempts)
            + Repeat(RequestRecord("GET", url, BuildHeaders(mode, key), timeoutSeconds, None),
                     AttemptCount(true, net, url, |old(attempts)|, retries)))
    {
      if SelectBuildMode(c.apiMode) == StatusPage {
        r := FetchStatusPage(c, net, host);
      } else {
        r := FetchPrivateApi(c, apiKey, net, host);
      }
    }

    /** `fetchUptimeBadge`, as in the main fetcher. */
    method FetchUptimeBadge(monitorId: Json, c: Config, net: Http.Network) returns (r: Result<Option<string>, JsError>)
      modifies this
      ensures Nullish(monitorId) ==> r == Ok(None) && attempts == old(attempts)
      ensures !Nullish(monitorId) && c.baseUrl == "" ==> r == Err(Error(BaseUrlMissing)) && attempts == old(attempts)
      ensures !Nullish(monitorId) && c.baseUrl != "" ==>
        var url := BadgeUrl(c.baseUrl, monitorId);
        var response := RequestResult(true, net, url, |old(attempts)|, retries);
        (response.Err? ==> r == Err(response.error))
        && (response.Ok? ==> r == Ok(Some(response.value)))
        && attempts == old(attempts)
          + Repeat(RequestRecord("GET", url, [("Accept", "image/svg+xml,*/*;q=0.8")], timeoutSeconds, None),
                   AttemptCount(true, net, url, |old(attempts)|, retries))
    {
      if Nullish(monitorId) {
        return Ok(None);
      }
      if c.baseUrl == "" {
        return Err(Error(BaseUrlMissing));
      }
      var url := BadgeUrl(c.baseUrl, monitorId);
      var svg := Request(url, [("Accept", "image/svg+xml,*/*;q=0.8")], "GET", Absent, net);
      if svg.Err? {
        return Err(svg.error);
      }
      return Ok(Some(svg.value));
    }
  }
}
