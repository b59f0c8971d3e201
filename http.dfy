/**
 * What both monitor fetchers share: the fetcher configuration, the response
 * an HTTP attempt produces, and the specification of the retry loop of
 * `_request` (attempts made, the back-off sleeps between them and the result).
 */
module Http {
  import opened Wrappers
  import opened Text
  import opened Js
  import opened Uri

  const DefaultTimeoutSeconds := 8
  const DefaultRetries := 3
  const RetryBackoff: real := 1.6
  /** The first back-off sleep, in milliseconds, and the ceiling of all later ones. */
  const InitialWait: real := 400.0
  const MaxWait: real := 4000.0
  const UserAgent := "UptimeKumaIndicator/1.0 (GNOME Shell Extension)"

  const UnknownNetworkError := "Unknown network error"
  const BaseUrlMissing := "Base URL is missing."
  const ApiTokenMissing := "API token is not available."

  /**
   * The settings object the fetchers read; an empty string stands for a
   * missing (falsy) setting.
   */
  datatype Config = Config(
    apiMode: string,
    baseUrl: string,
    statusPageJsonUrl: string,
    statusPageSlug: string,
    statusPageEndpoint: string,
    apiEndpoint: string,
    metricsEndpoint: string,
    heartbeatEndpoint: string,
    heartbeatLimit: Option<int>)

  /** `value || fallback` on a string setting. */
  function OrDefault(value: string, fallback: string): (r: string)
    ensures value != "" ==> r == value
    ensures value == "" ==> r == fallback
  {
    if value == "" then fallback else value
  }

  // ---------------------------------------------------------------------------
  // One attempt

  /**
   * What one `send_and_read_async` attempt yields: a status with the decoded
   * body, or the error it throws.
   */
  datatype Outcome = Response(status: int, body: string) | Failure(error: JsError)

  /**
   * The network: the outcome of the attempt with a given URL that is the n-th
   * attempt the fetcher makes over its lifetime.
   */
  type Network = (string, nat) -> Outcome

  predicate Succeeded(o: Outcome) {
    o.Response? && 200 <= o.status < 300
  }

  /** The error an unsuccessful attempt leaves in `lastError`. */
  function ErrorOf(o: Outcome): (e: JsError)
    ensures o.Failure? ==> e == o.error
    ensures o.Response? ==> e == Error("HTTP " + IntToString(o.status))
  {
    match o
    case Response(status, _) => Error("HTTP " + IntToString(status))
    case Failure(error) => error
  }

  /**
   * Attempt `k` of a request whose first attempt is the fetcher's attempt
   * `start`. Once the session is gone, calling into it throws a TypeError
   * instead of sending.
   */
  function Attempt(open: bool, net: Network, url: string, start: nat, k: nat): (o: Outcome)
    ensures open ==> o == net(url, start + k)
    ensures !open ==> o == Failure(TypeError)
  {
    if open then net(url, start + k) else Failure(TypeError)
  }

  /** How many times the loop `while (attempt < retries)` can run. */
  function Tries(retries: int): (r: nat)
    ensures retries > 0 ==> r == retries
    ensures retries <= 0 ==> r == 0
  {
    if retries > 0 then retries else 0
  }

  // ---------------------------------------------------------------------------
  // The retry loop, as a specification

  /** The first of the attempts `start`, …, `start + n - 1` that succeeds, relative to `start`. */
  function FirstSuccess(open: bool, net: Network, url: string, start: nat, n: nat): (r: Option<nat>)
    ensures r.Some? ==>
      r.value < n
      && Succeeded(Attempt(open, net, url, start, r.value))
      && forall k :: 0 <= k < r.value ==> !Succeeded(Attempt(open, net, url, start, k))
    ensures r.None? ==> forall k :: 0 <= k < n ==> !Succeeded(Attempt(open, net, url, start, k))
  {
    if n == 0 then None
    else
      match FirstSuccess(open, net, url, start, n - 1)
      case Some(k) => Some(k)
      case None =>
        if Succeeded(Attempt(open, net, url, start, n - 1)) then Some(n - 1) else None
  }

  /**
   * What `_request` returns or throws: the body of the first successful
   * attempt; otherwise the error of the last attempt, or "Unknown network
   * error" when no attempt was made.
   */
  function RequestResult(open: bool, net: Network, url: string, start: nat, retries: int): Result<string, JsError> {
    var n := Tries(retries);
    match FirstSuccess(open, net, url, start, n)
    case Some(k) => Ok(Attempt(open, net, url, start, k).body)
    case None =>
      if n == 0 then Err(Error(UnknownNetworkError))
      else Err(ErrorOf(Attempt(open, net, url, start, n - 1)))
  }

  /** The number of attempts `_request` makes: up to the first success, at most `retries`. */
  function AttemptCount(open: bool, net: Network, url: string, start: nat, retries: int): nat {
    match FirstSuccess(open, net, url, start, Tries(retries))
    case Some(k) => k + 1
    case None => Tries(retries)
  }

  /**
   * The request succeeds exactly when one of its attempts does, and then
   * returns the first successful body; otherwise it throws the last attempt's
   * error. The attempts stop at the first success and never exceed `retries`.
   */
  lemma RequestOutcome(open: bool, net: Network, url: string, start: nat, retries: int)
    ensures var r := RequestResult(open, net, url, start, retries);
      (r.Ok? <==> exists k :: 0 <= k < Tries(retries) && Succeeded(Attempt(open, net, url, start, k)))
      && (r.Ok? ==>
        exists k :: 0 <= k < Tries(retries) && Succeeded(Attempt(open, net, url, start, k))
          && r.value == Attempt(open, net, url, start, k).body
          && forall j :: 0 <= j < k ==> !Succeeded(Attempt(open, net, url, start, j)))
      && (retries <= 0 ==> r == Err(Error(UnknownNetworkError)))
      && (retries > 0 && r.Err? ==> r.error == ErrorOf(Attempt(open, net, url, start, retries - 1)))
    ensures var a := AttemptCount(open, net, url, start, retries);
      a <= Tries(retries)
      && (RequestResult(open, net, url, start, retries).Ok? ==> a >= 1 && Succeeded(Attempt(open, net, url, start, a - 1)))
      && (RequestResult(open, net, url, start, retries).Err? ==> a == Tries(retries))
      && forall k :: 0 <= k < a - 1 ==> !Succeeded(Attempt(open, net, url, start, k))
  {
  }

  /** The number of back-off sleeps: one after every failed attempt but the last allowed one. */
  function SleepCount(open: bool, net: Network, url: string, start: nat, retries: int): (r: nat)
    ensures var a := AttemptCount(open, net, url, start, retries);
      (a == 0 && r == 0) || r == a - 1
  {
    match FirstSuccess(open, net, url, start, Tries(retries))
    case Some(k) => k
    case None => if retries > 0 then retries - 1 else 0
  }

  /** The sleep after `wait`: multiplied by `backoff`, capped at 4000 ms. */
  function Grow(wait: real, backoff: real): (r: real)
    ensures r <= MaxWait
    ensures wait * backoff < MaxWait ==> r == wait * backoff
  {
    if wait * backoff < MaxWait then wait * backoff else MaxWait
  }

  /** The k-th back-off sleep: 400 ms, then multiplied by `backoff` each time, capped at 4000 ms. */
  function Wait(backoff: real, k: nat): (r: real)
    ensures r <= MaxWait
  {
    if k == 0 then InitialWait else Grow(Wait(backoff, k - 1), backoff)
  }

  /** The first `n` back-off sleeps, in order. */
  function Waits(backoff: real, n: nat): seq<real> {
    seq(n, k requires 0 <= k => Wait(backoff, k))
  }

  /** One more sleep after the ones already recorded in `prefix`. */
  lemma WaitsSnoc(prefix: seq<real>, backoff: real, n: nat)
    ensures (prefix + Waits(backoff, n)) + [Wait(backoff, n)] == prefix + Waits(backoff, n + 1)
  {
    assert Waits(backoff, n + 1) == Waits(backoff, n) + [Wait(backoff, n)];
  }

  /** With a positive factor every sleep has a positive length. */
  lemma {:induction false} WaitPositive(backoff: real, k: nat)
    requires backoff > 0.0
    ensures Wait(backoff, k) > 0.0
  {
    if k > 0 {
      WaitPositive(backoff, k - 1);
    }
  }

  /** A factor of at least 1 makes the sleeps grow, up to the ceiling. */
  lemma {:induction false} WaitGrows(backoff: real, k: nat)
    requires backoff >= 1.0
    ensures Wait(backoff, k) <= Wait(backoff, k + 1)
  {
    WaitPositive(backoff, k);
    var w := Wait(backoff, k);
    assert w * (backoff - 1.0) >= 0.0;
    assert w * backoff >= w;
  }

  /** The default schedule: 400, 640, 1024, 1638.4 and 2621.44 ms, then 4000 ms. */
  lemma DefaultWaits()
    ensures Waits(RetryBackoff, 6) == [400.0, 640.0, 1024.0, 1638.4, 2621.44, 4000.0]
  {
    assert Wait(RetryBackoff, 1) == 640.0;
    assert Wait(RetryBackoff, 2) == 1024.0;
    assert Wait(RetryBackoff, 3) == 1638.4;
    assert Wait(RetryBackoff, 4) == 2621.44;
    assert Wait(RetryBackoff, 5) == 4000.0;
  }

  /** The first successful attempt ends the request: that attempt's body, and a sleep after each earlier one. */
  lemma StopsAtFirstSuccess(open: bool, net: Network, url: string, start: nat, retries: int, k: nat)
    requires k < retries && Succeeded(Attempt(open, net, url, start, k))
    requires forall j :: 0 <= j < k ==> !Succeeded(Attempt(open, net, url, start, j))
    ensures RequestResult(open, net, url, start, retries) == Ok(Attempt(open, net, url, start, k).body)
    ensures AttemptCount(open, net, url, start, retries) == k + 1
    ensures SleepCount(open, net, url, start, retries) == k
  {
    assert FirstSuccess(open, net, url, start, Tries(retries)) == Some(k);
  }

  /**
   * When every attempt fails, all `retries` attempts are made with a sleep
   * between each two, and the last attempt's error is thrown.
   */
  lemma AllAttemptsFail(open: bool, net: Network, url: string, start: nat, retries: int)
    requires retries > 0
    requires forall k :: 0 <= k < retries ==> !Succeeded(Attempt(open, net, url, start, k))
    ensures RequestResult(open, net, url, start, retries) == Err(ErrorOf(Attempt(open, net, url, start, retries - 1)))
    ensures AttemptCount(open, net, url, start, retries) == retries
    ensures SleepCount(open, net, url, start, retries) == retries - 1
  {
  }

  /** Without a session every attempt fails with the TypeError and none is sent. */
  lemma ClosedSessionFails(net: Network, url: string, start: nat, retries: int)
    requires retries > 0
    ensures RequestResult(false, net, url, start, retries) == Err(TypeError)
  {
  }

  /** The sleeps `_request` has taken once `attempt` attempts have failed. */
  function Slept(attempt: nat, retries: int): (r: nat)
    ensures attempt < retries ==> r == attempt
    ensures 0 < attempt && attempt == retries ==> r == attempt - 1
  {
    if attempt == 0 then 0 else if attempt < retries then attempt else attempt - 1
  }

  /** Without any attempt allowed, the request throws at once. */
  lemma NoAttempts(open: bool, net: Network, url: string, start: nat, retries: int)
    requires retries <= 0
    ensures RequestResult(open, net, url, start, retries) == Err(Error(UnknownNetworkError))
    ensures AttemptCount(open, net, url, start, retries) == 0
    ensures SleepCount(open, net, url, start, retries) == 0
  {
  }

  // ---------------------------------------------------------------------------
  // Request records and bodies

  /** A request body as the caller passes it. */
  datatype Payload =
    | Absent                       // null or undefined
    | GBytesBody(data: seq<int>)   // a GLib.Bytes
    | TextBody(text: string)       // a string
    | ByteArrayBody(data: seq<int>) // a Uint8Array
    | ValueBody(value: Json)       // any other value, sent as its JSON text

  /** The body attached to a message: its content type and the payload it was made from. */
  datatype Body = Body(mime: string, payload: Payload)

  /** One attempt as the fetcher builds it: method, URL, headers, timeout and body. */
  datatype RequestRecord = RequestRecord(
    verb: string,
    url: string,
    headers: seq<(string, string)>,
    timeoutSeconds: int,
    body: Option<Body>)

  /** `n` copies of one record: the messages of `n` attempts of one request. */
  function Repeat(rec: RequestRecord, n: nat): seq<RequestRecord> {
    seq(n, _ => rec)
  }

  /** One more attempt's message after the ones already recorded in `prefix`. */
  lemma RepeatSnoc(prefix: seq<RequestRecord>, rec: RequestRecord, n: nat)
    ensures (prefix + Repeat(rec, n)) + [rec] == prefix + Repeat(rec, n + 1)
  {
    assert Repeat(rec, n + 1) == Repeat(rec, n) + [rec];
  }

  /** `_getJson`: an empty response body is `null`, anything else goes through `JSON.parse`. */
  function DecodeJson(response: Result<string, JsError>, parse: string -> Result<Json, JsError>): (r: Result<Json, JsError>)
    ensures response.Err? ==> r == Err(response.error)
    ensures response == Ok("") ==> r == Ok(JNull)
    ensures response.Ok? && response.value != "" ==> r == parse(response.value)
  {
    match response
    case Err(e) => Err(e)
    case Ok(text) => if text == "" then Ok(JNull) else parse(text)
  }

  // ---------------------------------------------------------------------------
  // Endpoints

  /** The status-page JSON URL under the base URL. */
  function StatusPageUrl(c: Config): string {
    JoinUrl(c.baseUrl, StatusPageEndpoint(c.statusPageJsonUrl, c.statusPageEndpoint, c.statusPageSlug))
  }

  /** The private monitor list, `api/monitor` unless configured. */
  function PrivateApiUrl(c: Config): string {
    JoinUrl(c.baseUrl, OrDefault(c.apiEndpoint, "api/monitor"))
  }

  /** The 24-hour uptime badge of a monitor. */
  function BadgeUrl(baseUrl: string, monitorId: Json): string {
    JoinUrl(baseUrl, "api/badge/" + EncodeUriComponent(ToStr(monitorId)) + "/uptime/24h")
  }

  /** The badge endpoint is relative, so it always lands under the base URL. */
  lemma BadgeUrlShape(baseUrl: string, monitorId: Json)
    requires baseUrl != ""
    ensures BadgeUrl(baseUrl, monitorId)
      == DropTrailingSlash(baseUrl) + "/" + ("api/badge/" + EncodeUriComponent(ToStr(monitorId)) + "/uptime/24h")
  {
    var endpoint := "api/badge/" + EncodeUriComponent(ToStr(monitorId)) + "/uptime/24h";
    assert endpoint[0] == 'a';
    JoinPlainPath(baseUrl, endpoint);
  }

  /** The badge URL keeps the monitor id in one path segment. */
  lemma BadgeIdIsOneSegment(monitorId: Json)
    ensures '/' !in EncodeUriComponent(ToStr(monitorId))
  {
    EncodedHasNoSpecials(ToStr(monitorId));
  }
}
