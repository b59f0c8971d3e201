/**
 * The preferences window of the extension (`uptime-kuma-indicator/prefs.js`).
 * It covers:
 * - the service rows, at most ten, each with a dropdown of the fetched services;
 * - the `selected-services` setting those dropdowns write;
 * - the debounced auto-fetch after the base URL or the token changes;
 * - the guarded service fetch from a status page, the private API or the
 *   metrics endpoint.
 */
module Prefs {
  import opened Wrappers
  import opened Text
  import opened Js
  import opened Uri
  import Http
  import opened Services

  const MaxServices := 10
  const MaxReachedMessage := "Maximum of 10 services reached"
  const MissingBaseUrlMessage := "Please configure Base URL first."
  const MissingTokenMessage := "Please configure API token first."

  // ---------------------------------------------------------------------------
  // The metrics list

  /** `!monitor || !monitor.id || !monitor.name` is false: the monitor is used. */
  predicate MetricEligible(m: Json) {
    Truthy(m) && Eligible(m)
  }

  function Ids(services: seq<Service>): (r: seq<string>)
    ensures |r| == |services| && forall k :: 0 <= k < |r| ==> r[k] == services[k].id
  {
    if services == [] then [] else [services[0].id] + Ids(services[1..])
  }

  /** Some service has id `id`. */
  predicate Offers(services: seq<Service>, id: string) {
    exists k :: 0 <= k < |services| && services[k].id == id
  }

  predicate DistinctIds(services: seq<Service>) {
    forall k, l :: 0 <= k < l < |services| ==> services[k].id != services[l].id
  }

  /** The name stored under `id`, if any. */
  function NameOf(services: seq<Service>, id: string): Option<Json> {
    if services == [] then None
    else if services[0].id == id then Some(services[0].name)
    else NameOf(services[1..], id)
  }

  /**
   * `Map.prototype.set(id, name)` on the entries in insertion order: a known
   * key keeps its place and takes the new name, a new key goes last.
   */
  function Put(services: seq<Service>, id: string, name: Json): (r: seq<Service>)
    ensures id !in Ids(services) ==> r == services + [Service(id, name)]
    ensures id in Ids(services) ==> Ids(r) == Ids(services)
  {
    if services == [] then [Service(id, name)]
    else if services[0].id == id then [Service(id, name)] + services[1..]
    else
      var rest := Put(services[1..], id, name);
      assert ([services[0]] + rest)[1..] == rest;
      [services[0]] + rest
  }

  lemma {:induction false} PutName(services: seq<Service>, id: string, name: Json, key: string)
    ensures NameOf(Put(services, id, name), key) == if key == id then Some(name) else NameOf(services, key)
  {
    if services != [] && services[0].id != id {
      PutName(services[1..], id, name, key);
      assert ([services[0]] + Put(services[1..], id, name))[1..] == Put(services[1..], id, name);
    }
  }

  lemma PutDistinct(services: seq<Service>, id: string, name: Json)
    requires DistinctIds(services)
    ensures DistinctIds(Put(services, id, name))
  {
    var r := Put(services, id, name);
    if id in Ids(services) {
      assert forall k :: 0 <= k < |r| ==> r[k].id == Ids(r)[k] == Ids(services)[k] == services[k].id;
    } else {
      assert forall k :: 0 <= k < |services| ==> services[k].id == Ids(services)[k];
    }
  }

  /** The entries `_fetchFromMetrics` builds from the normalised monitors, in first-seen order. */
  function Deduped(ms: seq<Json>): seq<Service> {
    if ms == [] then []
    else
      var done := Deduped(ms[..|ms| - 1]);
      var m := ms[|ms| - 1];
      if MetricEligible(m) then Put(done, ToStr(Get(m, "id")), Get(m, "name")) else done
  }

  /** The name of the last usable monitor whose id reads as `id`: the one `Map.set` leaves. */
  function LastNameFor(ms: seq<Json>, id: string): Option<Json> {
    if ms == [] then None
    else
      var m := ms[|ms| - 1];
      if MetricEligible(m) && ToStr(Get(m, "id")) == id then Some(Get(m, "name"))
      else LastNameFor(ms[..|ms| - 1], id)
  }

  /** Every id appears once. */
  lemma {:induction false} DedupedDistinct(ms: seq<Json>)
    ensures DistinctIds(Deduped(ms))
  {
    if ms != [] {
      DedupedDistinct(ms[..|ms| - 1]);
      var m := ms[|ms| - 1];
      if MetricEligible(m) {
        PutDistinct(Deduped(ms[..|ms| - 1]), ToStr(Get(m, "id")), Get(m, "name"));
      }
    }
  }

  /** The name kept for an id is the last one seen for it; an id never seen has none. */
  lemma {:induction false} DedupedLastNameWins(ms: seq<Json>, id: string)
    ensures NameOf(Deduped(ms), id) == LastNameFor(ms, id)
  {
    if ms != [] {
      DedupedLastNameWins(ms[..|ms| - 1], id);
      var m := ms[|ms| - 1];
      if MetricEligible(m) {
        PutName(Deduped(ms[..|ms| - 1]), ToStr(Get(m, "id")), Get(m, "name"), id);
      }
    }
  }

  /** The ids stay in the order they were first seen: a repeated id keeps its place, a new one goes last. */
  lemma DedupedFirstSeenOrder(ms: seq<Json>, m: Json)
    requires MetricEligible(m)
    ensures var id := ToStr(Get(m, "id"));
      (id in Ids(Deduped(ms)) ==> Ids(Deduped(ms + [m])) == Ids(Deduped(ms)))
      && (id !in Ids(Deduped(ms)) ==> Ids(Deduped(ms + [m])) == Ids(Deduped(ms)) + [id])
  {
    assert (ms + [m])[..|ms|] == ms;
    var done := Deduped(ms);
    var id := ToStr(Get(m, "id"));
    if id !in Ids(done) {
      assert Ids(done + [Service(id, Get(m, "name"))]) == Ids(done) + [id];
    }
  }

  /** `_fetchFromMetrics` after the request: `normalizeMetrics(text) ?? []`, de-duplicated by id. */
  function MetricsServices(normalized: Json): (r: Result<seq<Service>, JsError>)
    ensures r.Err? ==> r == Err(TypeError)
  {
    match Iterate(Coalesce(normalized, JArr([])))
    case None => Err(TypeError)
    case Some(ms) => Ok(Deduped(ms))
  }

  /** `_fetchFromMetrics`'s loop over the normalised monitors. */
  method MetricsList(normalized: Json) returns (r: Result<seq<Service>, JsError>)
    ensures r == MetricsServices(normalized)
  {
    var list := Iterate(Coalesce(normalized, JArr([])));
    if list.None? {
      return Err(TypeError);
    }
    var ms := list.value;
    var unique: seq<Service> := [];
    var i := 0;
    while i < |ms|
      invariant 0 <= i <= |ms|
      invariant unique == Deduped(ms[..i])
    {
      var monitor := ms[i];
      assert ms[..i + 1][..i] == ms[..i];
      if MetricEligible(monitor) {
        unique := Put(unique, ToStr(Get(monitor, "id")), Get(monitor, "name"));
      }
      i := i + 1;
    }
    assert ms[..i] == ms;
    return Ok(unique);
  }

  // ---------------------------------------------------------------------------
  // Dropdowns and rows

  /** A service dropdown: the id it should show (`_targetServiceId`), its entries and its selection. */
  datatype Dropdown = Dropdown(target: Option<string>, items: seq<string>, selected: nat)

  /** A service row; `token` stands for the row object's identity. */
  datatype ServiceRow = ServiceRow(token: nat, title: string)

  /** `Service <n>`, numbered from 1. */
  function RowTitle(index: nat): string {
    "Service " + NatToString(index + 1)
  }

  /** A target id that counts: set and not empty. */
  predicate HasTarget(t: Option<string>) {
    t.Some? && t.value != ""
  }

  /** The "(None)" entry comes first and the selection is one of the entries. */
  predicate WellFormed(d: Dropdown) {
    |d.items| >= 1 && d.items[0] == NoneItem && d.selected < |d.items|
  }

  /** A selection past "(None)" shows the service the dropdown targets. */
  predicate ShowsTarget(d: Dropdown, available: seq<Service>) {
    0 < d.selected <= |available| ==> HasTarget(d.target) && available[d.selected - 1].id == d.target.value
  }

  /**
   * The dropdown `_createServiceRow` builds: the fetched services with the
   * saved one selected when it is among them; before any fetch, the saved id
   * as a placeholder entry, selected.
   */
  function NewDropdown(available: seq<Service>, serviceId: Option<string>): (d: Dropdown)
    ensures WellFormed(d) && d.target == serviceId && ShowsTarget(d, available)
    ensures |available| == 0 ==> (d.selected == 1 <==> HasTarget(serviceId))
    ensures |available| > 0 ==> d.items == ServiceItems(available)
  {
    if |available| > 0 then ListedDropdown(available, serviceId) else PlaceholderDropdown(serviceId)
  }

  /** After a fetch: the services, with the saved one selected when offered. */
  function ListedDropdown(available: seq<Service>, serviceId: Option<string>): (d: Dropdown)
    ensures WellFormed(d) && d.target == serviceId && ShowsTarget(d, available)
    ensures d.items == ServiceItems(available)
  {
    Dropdown(serviceId, ServiceItems(available),
      if HasTarget(serviceId) then SelectedIndex(available, serviceId.value) else 0)
  }

  /** Before any fetch: the saved id as a selected placeholder entry, when there is one. */
  function PlaceholderDropdown(serviceId: Option<string>): (d: Dropdown)
    ensures WellFormed(d) && d.target == serviceId && ShowsTarget(d, [])
    ensures d.selected == 1 <==> HasTarget(serviceId)
    ensures HasTarget(serviceId) ==> d.items[1] == serviceId.value + " (not loaded yet)"
  {
    if HasTarget(serviceId) then Dropdown(serviceId, [NoneItem, serviceId.value + " (not loaded yet)"], 1)
    else Dropdown(serviceId, [NoneItem], 0)
  }

  /**
   * One dropdown after `_updateServiceDropdowns`: every entry after "(None)"
   * replaced by the services, and the target selected when it is offered.
   */
  function Refreshed(d: Dropdown, available: seq<Service>): (r: Dropdown)
    requires WellFormed(d)
    ensures WellFormed(r) && r.target == d.target && ShowsTarget(r, available)
    ensures r.items == ServiceItems(available)
    ensures r.selected == 0 ==> !HasTarget(d.target) || !Offers(available, d.target.value)
  {
    // the "(None)" entry is kept and the services follow it: entry for entry, ServiceItems
    Dropdown(d.target, ServiceItems(available),
      if HasTarget(d.target) then SelectedIndex(available, d.target.value) else 0)
  }

  function RefreshAll(ds: seq<Dropdown>, available: seq<Service>): (r: seq<Dropdown>)
    requires forall i :: 0 <= i < |ds| ==> WellFormed(ds[i])
    ensures |r| == |ds| && forall i :: 0 <= i < |ds| ==> r[i] == Refreshed(ds[i], available)
  {
    seq(|ds|, i requires 0 <= i < |ds| && WellFormed(ds[i]) => Refreshed(ds[i], available))
  }

  /** A selection names a service when it lies in 1..|available|. */
  predicate Picks(d: Dropdown, available: seq<Service>) {
    0 < d.selected <= |available|
  }

  /** One dropdown after `_onServiceSelected`: its target becomes the chosen service, or none. */
  function Retargeted(d: Dropdown, available: seq<Service>): (r: Dropdown)
    ensures r.items == d.items && r.selected == d.selected
    ensures Picks(d, available) ==> r.target == Some(available[d.selected - 1].id)
    ensures !Picks(d, available) ==> r.target == None
  {
    if Picks(d, available) then d.(target := Some(available[d.selected - 1].id)) else d.(target := None)
  }

  function RetargetAll(ds: seq<Dropdown>, available: seq<Service>): (r: seq<Dropdown>)
    ensures |r| == |ds| && forall i :: 0 <= i < |ds| ==> r[i] == Retargeted(ds[i], available)
  {
    seq(|ds|, i requires 0 <= i < |ds| => Retargeted(ds[i], available))
  }

  /** The `selected-services` list `_onServiceSelected` saves: the chosen ids, dropdown by dropdown. */
  function Chosen(ds: seq<Dropdown>, available: seq<Service>): (r: seq<string>)
    ensures |r| <= |ds|
  {
    if ds == [] then []
    else
      var d := ds[|ds| - 1];
      Chosen(ds[..|ds| - 1], available) + (if Picks(d, available) then [available[d.selected - 1].id] else [])
  }

  /** The targets that are among the services, in dropdown order. */
  function OfferedTargets(ds: seq<Dropdown>, available: seq<Service>): seq<string> {
    if ds == [] then []
    else
      var t := ds[|ds| - 1].target;
      OfferedTargets(ds[..|ds| - 1], available)
        + (if HasTarget(t) && Offers(available, t.value) then [t.value] else [])
  }

  /**
   * After a refresh of the dropdowns, saving the selection keeps exactly the
   * saved targets that are still offered, in order.
   */
  lemma {:induction false} RefreshKeepsOfferedTargets(ds: seq<Dropdown>, available: seq<Service>)
    requires forall i :: 0 <= i < |ds| ==> WellFormed(ds[i])
    ensures Chosen(RefreshAll(ds, available), available) == OfferedTargets(ds, available)
  {
    if ds != [] {
      var init := ds[..|ds| - 1];
      var r := RefreshAll(ds, available);
      assert RefreshAll(init, available) == r[..|r| - 1];
      RefreshKeepsOfferedTargets(init, available);
      RefreshedPicks(ds[|ds| - 1], available);
    }
  }

  /** A refreshed dropdown picks a service exactly when its target is offered, and then picks the target. */
  lemma RefreshedPicks(d: Dropdown, available: seq<Service>)
    requires WellFormed(d)
    ensures var r := Refreshed(d, available);
      (Picks(r, available) <==> HasTarget(d.target) && Offers(available, d.target.value))
      && (Picks(r, available) ==> available[r.selected - 1].id == d.target.value)
  {
  }

  /**
   * Before any fetch no dropdown picks a service, so saving the selection
   * (as adding or removing a row does) clears it and every target.
   */
  lemma {:induction false} NothingChosenBeforeFetch(ds: seq<Dropdown>)
    ensures Chosen(ds, []) == []
    ensures forall i :: 0 <= i < |ds| ==> RetargetAll(ds, [])[i].target == None
  {
    if ds != [] {
      NothingChosenBeforeFetch(ds[..|ds| - 1]);
    }
  }

  /** `Chosen` reads one dropdown at a time. */
  lemma ChosenSnoc(ds: seq<Dropdown>, d: Dropdown, available: seq<Service>)
    ensures Chosen(ds + [d], available)
      == Chosen(ds, available) + (if Picks(d, available) then [available[d.selected - 1].id] else [])
  {
    assert (ds + [d])[..|ds|] == ds;
  }

  /** The loop of `_onServiceSelected`: each dropdown retargeted, and the chosen ids collected. */
  method RetargetLoop(before: seq<Dropdown>, available: seq<Service>) returns (updated: seq<Dropdown>, chosen: seq<string>)
    ensures updated == RetargetAll(before, available)
    ensures chosen == Chosen(before, available)
  {
    updated := before;
    chosen := [];
    var i := 0;
    while i < |before|
      invariant 0 <= i <= |before| == |updated|
      invariant forall k :: 0 <= k < i ==> updated[k] == Retargeted(before[k], available)
      invariant forall k :: i <= k < |updated| ==> updated[k] == before[k]
      invariant chosen == Chosen(before[..i], available)
    {
      var dropdown := before[i];
      ChosenSnoc(before[..i], dropdown, available);
      assert before[..i + 1] == before[..i] + [dropdown];
      var selected := dropdown.selected;
      if selected > 0 && selected <= |available| {
        var service := available[selected - 1];
        chosen := chosen + [service.id];
        updated := updated[i := dropdown.(target := Some(service.id))];
      } else {
        updated := updated[i := dropdown.(target := None)];
      }
      i := i + 1;
    }
    assert before[..i] == before;
  }

  /** The renumbered rows: the same rows in the same order, titled 1..n. */
  function Renumbered(rows: seq<ServiceRow>): (r: seq<ServiceRow>)
    ensures |r| == |rows|
    ensures forall i :: 0 <= i < |rows| ==> r[i].token == rows[i].token && r[i].title == RowTitle(i)
  {
    seq(|rows|, i requires 0 <= i < |rows| => rows[i].(title := RowTitle(i)))
  }

  predicate AllWellFormed(ds: seq<Dropdown>) {
    forall i :: 0 <= i < |ds| ==> WellFormed(ds[i])
  }

  /** Rows are titled by their position. */
  predicate Titled(rows: seq<ServiceRow>) {
    forall i :: 0 <= i < |rows| ==> rows[i].title == RowTitle(i)
  }

  /** Row tokens are distinct and were all handed out below `bound`. */
  predicate TokensBelow(rows: seq<ServiceRow>, bound: nat) {
    (forall i :: 0 <= i < |rows| ==> rows[i].token < bound)
    && (forall i, j :: 0 <= i < j < |rows| ==> rows[i].token != rows[j].token)
  }

  lemma AllWellFormedRemove(ds: seq<Dropdown>, i: nat)
    requires AllWellFormed(ds) && i < |ds|
    ensures AllWellFormed(ds[..i] + ds[i + 1..])
  {
    var r := ds[..i] + ds[i + 1..];
    forall k | 0 <= k < |r| ensures WellFormed(r[k]) {
      if k < i { assert r[k] == ds[k]; } else { assert r[k] == ds[k + 1]; }
    }
  }

  lemma TokensRemove(rows: seq<ServiceRow>, i: nat, bound: nat)
    requires TokensBelow(rows, bound) && i < |rows|
    ensures TokensBelow(rows[..i] + rows[i + 1..], bound)
  {
    var r := rows[..i] + rows[i + 1..];
    assert forall k :: 0 <= k < |r| ==> r[k] == rows[if k < i then k else k + 1];
  }

  /** Renumbering titles the rows by position and keeps their tokens. */
  lemma RenumberedKeepsTokens(rows: seq<ServiceRow>, bound: nat)
    requires TokensBelow(rows, bound)
    ensures Titled(Renumbered(rows)) && TokensBelow(Renumbered(rows), bound)
  {
  }

  /** Retargeting touches neither the entries nor the selection. */
  lemma RetargetAllWellFormed(ds: seq<Dropdown>, available: seq<Service>)
    requires AllWellFormed(ds)
    ensures AllWellFormed(RetargetAll(ds, available))
  {
  }

  /** `this._serviceRows.indexOf(row)`. */
  function IndexOfRow(rows: seq<ServiceRow>, token: nat): (r: Option<nat>)
    ensures r.Some? ==>
      r.value < |rows| && rows[r.value].token == token && forall k :: 0 <= k < r.value ==> rows[k].token != token
    ensures r.None? ==> forall k :: 0 <= k < |rows| ==> rows[k].token != token
  {
    if rows == [] then None
    else if rows[0].token == token then Some(0)
    else match IndexOfRow(rows[1..], token)
      case None => None
      case Some(k) => Some(k + 1)
  }

  /** The rows `_rebuildServiceRows` creates: one per saved id, or a single empty one. */
  function InitialDropdowns(available: seq<Service>, saved: seq<string>): (r: seq<Dropdown>)
    ensures |r| == if |saved| == 0 then 1 else |saved|
  {
    if |saved| == 0 then [NewDropdown(available, None)] else SavedDropdowns(available, saved)
  }

  /** One dropdown per saved id, in order. */
  function SavedDropdowns(available: seq<Service>, saved: seq<string>): (r: seq<Dropdown>)
    ensures |r| == |saved|
  {
    seq(|saved|, i requires 0 <= i < |saved| => NewDropdown(available, Some(saved[i])))
  }

  // ---------------------------------------------------------------------------
  // Auto-fetch

  /**
   * Whether `_scheduleAutoFetch` schedules a fetch: the base URL or the
   * token differs from the pair last seen, and neither is empty.
   */
  predicate ShouldFetch(baseUrl: string, apiKey: string, lastBaseUrl: string, lastApiKey: string) {
    (baseUrl != lastBaseUrl || apiKey != lastApiKey) && baseUrl != "" && apiKey != ""
  }

  /**
   * A base URL edit that only adds a blank at the end schedules nothing: the
   * trimmed pair is the one already recorded. Since `_scheduleAutoFetch`
   * cancels the pending timer first, such an edit within the 2 s window
   * drops the fetch the previous edit scheduled.
   */
  lemma TrailingBlankSchedulesNothing(text: string, apiKey: string)
    ensures !ShouldFetch(Trim(text + [' ']), apiKey, Trim(text), apiKey)
  {
    TrimPadded(text);
  }

  // ---------------------------------------------------------------------------
  // Fetching the services

  datatype ServiceSource = FromStatusPage | FromPrivateApi | FromMetrics

  /** The request `_fetchServices` makes: where it goes and with which headers. */
  datatype ServiceRequest = ServiceRequest(source: ServiceSource, url: string, headers: seq<(string, string)>)

  /** The settings `_fetchServices` reads besides the base URL, the token and the mode. */
  datatype SourceSettings = SourceSettings(
    statusPageSlug: string,
    statusPageEndpoint: string,
    statusPageJsonUrl: string,
    apiEndpoint: string,
    metricsEndpoint: string)

  /** Whether a mode needs the API token: the private API and the metrics endpoint do. */
  predicate NeedsToken(apiMode: string) {
    apiMode == "api-key" || apiMode == "metrics"
  }

  /** The request for a mode, once the base URL (and the token where needed) are present. */
  function RequestFor(baseUrl: string, apiKey: string, apiMode: string, s: SourceSettings, base64: string -> string)
    : (r: ServiceRequest)
    ensures apiMode == "api-key" ==> r.source == FromPrivateApi && ("Authorization", apiKey) in r.headers
    ensures apiMode == "metrics" ==> r.source == FromMetrics && ("Authorization", "Basic " + base64(":" + apiKey)) in r.headers
    ensures !NeedsToken(apiMode) ==> r.source == FromStatusPage
  {
    if apiMode == "api-key" then
      ServiceRequest(FromPrivateApi, JoinUrl(baseUrl, Http.OrDefault(s.apiEndpoint, "api/monitor")),
        [("Accept", "application/json"), ("Authorization", apiKey)])
    else if apiMode == "metrics" then
      ServiceRequest(FromMetrics, JoinUrl(baseUrl, Http.OrDefault(s.metricsEndpoint, "metrics")),
        [("Accept", "text/plain"), ("Authorization", "Basic " + base64(":" + apiKey))])
    else
      var slug := Http.OrDefault(s.statusPageSlug, DefaultSlug);
      var template := Http.OrDefault(s.statusPageEndpoint, DefaultStatusPageTemplate);
      ServiceRequest(FromStatusPage, JoinUrl(baseUrl, StatusPageEndpoint(s.statusPageJsonUrl, template, slug)),
        [("Accept", "application/json")])
  }

  /** The window asks the same status page and monitor list the indicator's fetcher reads. */
  lemma RequestMatchesFetcher(c: Http.Config, apiKey: string, base64: string -> string)
    ensures var s := SourceSettings(c.statusPageSlug, c.statusPageEndpoint, c.statusPageJsonUrl, c.apiEndpoint, c.metricsEndpoint);
      RequestFor(c.baseUrl, apiKey, "status-page", s, base64).url == Http.StatusPageUrl(c)
      && RequestFor(c.baseUrl, apiKey, "api-key", s, base64).url == Http.PrivateApiUrl(c)
  {
    var slug := Http.OrDefault(c.statusPageSlug, DefaultSlug);
    var template := Http.OrDefault(c.statusPageEndpoint, DefaultStatusPageTemplate);
    assert StatusPageEndpoint(c.statusPageJsonUrl, template, slug)
      == StatusPageEndpoint(c.statusPageJsonUrl, c.statusPageEndpoint, c.statusPageSlug);
  }

  /** `_getText`: a status outside 2xx rejects with `HTTP <status>`; otherwise the body. */
  function ServiceText(o: Http.Outcome): (r: Result<string, JsError>)
    ensures o.Response? && (200 <= o.status < 300) ==> r == Ok(o.body)
    ensures o.Response? && !(200 <= o.status < 300) ==> r == Err(Error("HTTP " + IntToString(o.status)))
    ensures o.Failure? ==> r == Err(o.error)
  {
    match o
    case Response(status, body) =>
      if status < 200 || status >= 300 then Err(Error("HTTP " + IntToString(status))) else Ok(body)
    case Failure(e) => Err(e)
  }

  /**
   * The services the request yields from the response `o`. `parse` is
   * `JSON.parse` and `normalizeMetrics` the metrics text parser.
   */
  function Fetched(source: ServiceSource, o: Http.Outcome, parse: string -> Result<Json, JsError>,
                   normalizeMetrics: string -> Json): Result<seq<Service>, JsError>
  {
    match source
    case FromStatusPage =>
      (match ServiceJson(o, parse) case Err(e) => Err(e) case Ok(json) => StatusPageServices(json))
    case FromPrivateApi =>
      (match ServiceJson(o, parse) case Err(e) => Err(e) case Ok(json) => PrivateApiServices(json))
    case FromMetrics =>
      (match ServiceText(o) case Err(e) => Err(e) case Ok(text) => MetricsServices(normalizeMetrics(text)))
  }

  /**
   * The request `_fetchServices` gets as far as: none while a fetch runs,
   * without a base URL, or without a token where the mode needs one.
   */
  function GuardedRequest(fetching: bool, baseUrl: string, apiKey: string, apiMode: string,
                          s: SourceSettings, base64: string -> string): (r: Option<ServiceRequest>)
    ensures r.Some? <==> !fetching && baseUrl != "" && (!NeedsToken(apiMode) || apiKey != "")
    ensures r.Some? ==> r.value == RequestFor(baseUrl, apiKey, apiMode, s, base64)
  {
    if fetching || baseUrl == "" || (NeedsToken(apiMode) && apiKey == "") then None
    else Some(RequestFor(baseUrl, apiKey, apiMode, s, base64))
  }

  /** The toast `_fetchServices` shows before any request: which setting is missing. */
  function GuardToasts(fetching: bool, baseUrl: string, apiKey: string, apiMode: string): (r: seq<string>)
    ensures |r| <= 1
    ensures r == [MissingBaseUrlMessage] <==> !fetching && baseUrl == ""
    ensures r == [MissingTokenMessage] <==> !fetching && baseUrl != "" && NeedsToken(apiMode) && apiKey == ""
  {
    if fetching then []
    else if baseUrl == "" then [MissingBaseUrlMessage]
    else if NeedsToken(apiMode) && apiKey == "" then [MissingTokenMessage]
    else []
  }

  /** Unless a fetch is already running, an attempt either makes a request or says which setting is missing. */
  lemma RequestOrToast(fetching: bool, baseUrl: string, apiKey: string, apiMode: string,
                       s: SourceSettings, base64: string -> string)
    requires !fetching
    ensures GuardedRequest(fetching, baseUrl, apiKey, apiMode, s, base64).Some?
      <==> GuardToasts(fetching, baseUrl, apiKey, apiMode) == []
  {
  }

  /** The toast of a failed fetch. */
  function FailureToast(e: JsError): string {
    "Failed to fetch services: " + ErrorMessage(e)
  }

  // ---------------------------------------------------------------------------
  // The window

  /**
   * The window's state: the settings it writes (`base-url`, `api-key`,
   * `api-mode`, `selected-services`), the fetched services, the parallel
   * lists of rows and dropdowns, the add button's visibility, the
   * re-entrancy flags, the auto-fetch bookkeeping and the toasts shown.
   */
  class PreferencesBuilder {
    var baseUrl: string
    var apiKey: string
    var apiMode: string
    var selectedServices: seq<string>
    var available: seq<Service>
    var dropdowns: seq<Dropdown>
    var rows: seq<ServiceRow>
    var nextToken: nat
    var addVisible: bool
    var updatingDropdowns: bool
    var fetching: bool
    var lastBaseUrl: string
    var lastApiKey: string
    var autoFetchPending: bool
    var initialFetchPending: bool
    var toasts: seq<string>

    /** Rows and dropdowns correspond one to one, rows are titled 1..n and distinct, dropdowns well formed. */
    ghost predicate RowsAligned()
      reads this
    {
      |rows| == |dropdowns| && Titled(rows) && TokensBelow(rows, nextToken) && AllWellFormed(dropdowns)
    }

    /** ... and the add button is shown exactly while fewer than ten rows exist. */
    ghost predicate Valid()
      reads this
    {
      RowsAligned() && addVisible == (|dropdowns| < MaxServices)
    }

    /**
     * The window as `fillPreferencesWindow` builds it from the stored
     * settings: the mode forced to `metrics`, the initial auto-fetch armed
     * when both the base URL and the token are set, and the rows rebuilt
     * from the saved selection.
     */
    constructor(settingsBaseUrl: string, settingsApiKey: string, saved: seq<string>)
      ensures Valid()
      ensures baseUrl == settingsBaseUrl && apiKey == settingsApiKey && apiMode == "metrics"
      ensures selectedServices == saved && available == [] && toasts == []
      ensures !fetching && !updatingDropdowns && !autoFetchPending
      ensures initialFetchPending == (settingsBaseUrl != "" && settingsApiKey != "")
      ensures initialFetchPending ==> lastBaseUrl == settingsBaseUrl && lastApiKey == settingsApiKey
      ensures !initialFetchPending ==> lastBaseUrl == "" && lastApiKey == ""
      ensures dropdowns == InitialDropdowns([], saved)
    {
      baseUrl := settingsBaseUrl;
      apiKey := settingsApiKey;
      apiMode := "metrics";
      selectedServices := saved;
      available := [];
      dropdowns := [];
      rows := [];
      nextToken := 0;
      addVisible := true;
      updatingDropdowns := false;
      fetching := false;
      autoFetchPending := false;
      toasts := [];
      if settingsBaseUrl != "" && settingsApiKey != "" {
        lastBaseUrl, lastApiKey := settingsBaseUrl, settingsApiKey;
        initialFetchPending := true;
      } else {
        lastBaseUrl, lastApiKey := "", "";
        initialFetchPending := false;
      }
      new;
      RebuildServiceRows(saved);
    }

    /** `_createServiceRow(serviceId, index)`: one more row and dropdown at the end. */
    method CreateServiceRow(serviceId: Option<string>, index: nat)
      modifies this`dropdowns, this`rows, this`nextToken
      ensures dropdowns == old(dropdowns) + [NewDropdown(available, serviceId)]
      ensures rows == old(rows) + [ServiceRow(old(nextToken), RowTitle(index))]
      ensures nextToken == old(nextToken) + 1
      ensures old(RowsAligned()) && index == old(|rows|) ==> RowsAligned()
    {
      dropdowns := dropdowns + [NewDropdown(available, serviceId)];
      rows := rows + [ServiceRow(nextToken, RowTitle(index))];
      nextToken := nextToken + 1;
    }

    /** `_updateAddButtonVisibility`. */
    method UpdateAddButtonVisibility()
      modifies this`addVisible
      ensures addVisible == (|dropdowns| < MaxServices)
    {
      addVisible := |dropdowns| < MaxServices;
    }

    /** `_rebuildServiceRows`: the rows of the saved selection, from scratch. */
    method RebuildServiceRows(saved: seq<string>)
      modifies this`dropdowns, this`rows, this`nextToken, this`addVisible
      ensures Valid()
      ensures dropdowns == InitialDropdowns(available, saved)
      ensures |rows| == |dropdowns| && nextToken >= old(nextToken)
    {
      dropdowns := [];
      rows := [];
      if |saved| == 0 {
        CreateServiceRow(None, 0);
      } else {
        CreateSavedRows(saved);
      }
      UpdateAddButtonVisibility();
    }

    /** The `forEach` of `_rebuildServiceRows` over a non-empty saved selection. */
    method CreateSavedRows(saved: seq<string>)
      requires rows == [] && dropdowns == []
      modifies this`dropdowns, this`rows, this`nextToken
      ensures RowsAligned() && nextToken >= old(nextToken)
      ensures dropdowns == SavedDropdowns(available, saved)
    {
      ghost var all := SavedDropdowns(available, saved);
      var i := 0;
      while i < |saved|
        invariant 0 <= i <= |saved|
        invariant RowsAligned() && |rows| == i && nextToken >= old(nextToken)
        invariant dropdowns == all[..i]
      {
        assert all[..i + 1] == all[..i] + [NewDropdown(available, Some(saved[i]))];
        CreateServiceRow(Some(saved[i]), i);
        i := i + 1;
      }
      assert all[..i] == all;
    }

    /**
     * `_onServiceSelected`: nothing while the dropdowns are being refreshed;
     * otherwise every dropdown takes its chosen service as its target and
     * the chosen ids are saved.
     */
    method OnServiceSelected()
      modifies this`dropdowns, this`selectedServices
      ensures updatingDropdowns ==> dropdowns == old(dropdowns) && selectedServices == old(selectedServices)
      ensures !updatingDropdowns ==>
        dropdowns == RetargetAll(old(dropdowns), available)
        && selectedServices == Chosen(old(dropdowns), available)
    {
      if updatingDropdowns {
        return;
      }
      var updated, chosen := RetargetLoop(dropdowns, available);
      dropdowns := updated;
      selectedServices := chosen;
    }

    /**
     * `_updateServiceDropdowns`: every dropdown lists the services again and
     * selects its target when it is offered; the flag that silences
     * `_onServiceSelected` is set only meanwhile.
     */
    method UpdateServiceDropdowns()
      requires forall i :: 0 <= i < |dropdowns| ==> WellFormed(dropdowns[i])
      modifies this`dropdowns, this`updatingDropdowns
      ensures dropdowns == RefreshAll(old(dropdowns), available)
      ensures !updatingDropdowns
    {
      updatingDropdowns := true;
      var i := 0;
      while i < |dropdowns|
        invariant 0 <= i <= |dropdowns| == |old(dropdowns)|
        invariant forall k :: 0 <= k < i ==> dropdowns[k] == Refreshed(old(dropdowns)[k], available)
        invariant forall k :: i <= k < |dropdowns| ==> dropdowns[k] == old(dropdowns)[k]
      {
        dropdowns := dropdowns[i := Refreshed(dropdowns[i], available)];
        i := i + 1;
      }
      updatingDropdowns := false;
    }

    /**
     * The user picks entry `position` of dropdown `index`. GTK emits
     * `notify::selected` only when the selection changes, so picking the
     * entry already selected changes nothing.
     */
    method ChooseService(index: nat, position: nat)
      requires Valid() && index < |dropdowns| && position < |dropdowns[index].items|
      modifies this`dropdowns, this`selectedServices
      ensures Valid()
      ensures position == old(dropdowns)[index].selected ==>
        dropdowns == old(dropdowns) && selectedServices == old(selectedServices)
      ensures var picked := old(dropdowns)[index := old(dropdowns)[index].(selected := position)];
        position != old(dropdowns)[index].selected ==>
          (updatingDropdowns ==> dropdowns == picked && selectedServices == old(selectedServices))
          && (!updatingDropdowns ==>
            dropdowns == RetargetAll(picked, available) && selectedServices == Chosen(picked, available))
    {
      if position != dropdowns[index].selected {
        dropdowns := dropdowns[index := dropdowns[index].(selected := position)];
        OnServiceSelected();
      }
    }

    /**
     * `_addServiceRow`: at ten rows a toast and nothing else; otherwise an
     * empty row at the end, the add button updated and the selection saved.
     */
    method AddServiceRow()
      requires Valid()
      modifies this`dropdowns, this`rows, this`nextToken, this`addVisible, this`selectedServices, this`toasts
      ensures Valid() && |dropdowns| <= if old(|dropdowns|) < MaxServices then MaxServices else old(|dropdowns|)
      ensures old(|dropdowns|) >= MaxServices ==>
        dropdowns == old(dropdowns) && rows == old(rows) && selectedServices == old(selectedServices)
        && toasts == old(toasts) + [MaxReachedMessage]
      ensures old(|dropdowns|) < MaxServices ==>
        var grown := old(dropdowns) + [NewDropdown(available, None)];
        rows == old(rows) + [ServiceRow(old(nextToken), RowTitle(old(|rows|)))]
        && toasts == old(toasts)
        && (updatingDropdowns ==> dropdowns == grown && selectedServices == old(selectedServices))
        && (!updatingDropdowns ==> dropdowns == RetargetAll(grown, available) && selectedServices == Chosen(grown, available))
    {
      var currentCount := |dropdowns|;
      if currentCount >= MaxServices {
        toasts := toasts + [MaxReachedMessage];
        return;
      }
      AppendServiceRow();
    }

    /** The row `_addServiceRow` adds below the limit. */
    method AppendServiceRow()
      requires Valid() && |dropdowns| < MaxServices
      modifies this`dropdowns, this`rows, this`nextToken, this`addVisible, this`selectedServices
      ensures Valid() && |dropdowns| == old(|dropdowns|) + 1
      ensures rows == old(rows) + [ServiceRow(old(nextToken), RowTitle(old(|rows|)))]
      ensures var grown := old(dropdowns) + [NewDropdown(available, None)];
        (updatingDropdowns ==> dropdowns == grown && selectedServices == old(selectedServices))
        && (!updatingDropdowns ==> dropdowns == RetargetAll(grown, available) && selectedServices == Chosen(grown, available))
    {
      CreateServiceRow(None, |dropdowns|);
      UpdateAddButtonVisibility();
      ghost var grown := dropdowns;
      OnServiceSelected();
      RetargetAllWellFormed(grown, available);
    }

    /**
     * `_removeServiceRow(row)`: an unknown row changes nothing; otherwise the
     * same position leaves both lists, the rows are renumbered, the add
     * button is updated and the selection saved.
     */
    method RemoveServiceRow(token: nat)
      requires Valid()
      modifies this`rows, this`dropdowns, this`addVisible, this`selectedServices
      ensures Valid()
      ensures IndexOfRow(old(rows), token).None? ==>
        rows == old(rows) && dropdowns == old(dropdowns) && selectedServices == old(selectedServices)
      ensures IndexOfRow(old(rows), token).Some? ==>
        var i := IndexOfRow(old(rows), token).value;
        var kept := old(dropdowns)[..i] + old(dropdowns)[i + 1..];
        rows == Renumbered(old(rows)[..i] + old(rows)[i + 1..])
        && (updatingDropdowns ==> dropdowns == kept && selectedServices == old(selectedServices))
        && (!updatingDropdowns ==> dropdowns == RetargetAll(kept, available) && selectedServices == Chosen(kept, available))
    {
      var index := IndexOfRow(rows, token);
      if index.Some? {
        RemoveRowAt(index.value);
      }
    }

    /** The removal proper, once `indexOf` found the row at position `i`. */
    method RemoveRowAt(i: nat)
      requires Valid() && i < |rows|
      modifies this`rows, this`dropdowns, this`addVisible, this`selectedServices
      ensures Valid()
      ensures rows == Renumbered(old(rows)[..i] + old(rows)[i + 1..])
      ensures var kept := old(dropdowns)[..i] + old(dropdowns)[i + 1..];
        (updatingDropdowns ==> dropdowns == kept && selectedServices == old(selectedServices))
        && (!updatingDropdowns ==> dropdowns == RetargetAll(kept, available) && selectedServices == Chosen(kept, available))
    {
      TokensRemove(rows, i, nextToken);
      AllWellFormedRemove(dropdowns, i);
      rows := rows[..i] + rows[i + 1..];
      dropdowns := dropdowns[..i] + dropdowns[i + 1..];
      RenumberRows();
      RenumberedKeepsTokens(old(rows)[..i] + old(rows)[i + 1..], nextToken);
      UpdateAddButtonVisibility();
      ghost var kept := dropdowns;
      OnServiceSelected();
      RetargetAllWellFormed(kept, available);
    }

    /** The `forEach` that retitles the rows after a removal. */
    method RenumberRows()
      modifies this`rows
      ensures rows == Renumbered(old(rows))
    {
      var i := 0;
      while i < |rows|
        invariant 0 <= i <= |rows| == |old(rows)|
        invariant forall k :: 0 <= k < i ==> rows[k] == old(rows)[k].(title := RowTitle(k))
        invariant forall k :: i <= k < |rows| ==> rows[k] == old(rows)[k]
      {
        rows := rows[i := rows[i].(title := RowTitle(i))];
        i := i + 1;
      }
    }

    /**
     * `_scheduleAutoFetch`: any pending fetch is cancelled; a new one is
     * scheduled, and the pair recorded, only when the pair changed and
     * neither part is empty.
     */
    method ScheduleAutoFetch()
      modifies this`lastBaseUrl, this`lastApiKey, this`autoFetchPending
      ensures autoFetchPending == ShouldFetch(baseUrl, apiKey, old(lastBaseUrl), old(lastApiKey))
      ensures autoFetchPending ==> lastBaseUrl == baseUrl && lastApiKey == apiKey
      ensures !autoFetchPending ==> lastBaseUrl == old(lastBaseUrl) && lastApiKey == old(lastApiKey)
    {
      autoFetchPending := false;
      if (baseUrl != lastBaseUrl || apiKey != lastApiKey) && baseUrl != "" && apiKey != "" {
        lastBaseUrl := baseUrl;
        lastApiKey := apiKey;
        autoFetchPending := true;
      }
    }

    /** The base URL entry changed: the trimmed text is stored and an auto-fetch considered. */
    method SetBaseUrl(text: string)
      modifies this`baseUrl, this`lastBaseUrl, this`lastApiKey, this`autoFetchPending
      ensures baseUrl == Trim(text)
      ensures autoFetchPending == ShouldFetch(Trim(text), apiKey, old(lastBaseUrl), old(lastApiKey))
      ensures autoFetchPending ==> lastBaseUrl == baseUrl && lastApiKey == apiKey
      ensures !autoFetchPending ==> lastBaseUrl == old(lastBaseUrl) && lastApiKey == old(lastApiKey)
    {
      baseUrl := Trim(text);
      ScheduleAutoFetch();
    }

    /** The token entry changed: the trimmed text is stored and an auto-fetch considered. */
    method SetApiKey(text: string)
      modifies this`apiKey, this`lastBaseUrl, this`lastApiKey, this`autoFetchPending
      ensures apiKey == Trim(text)
      ensures autoFetchPending == ShouldFetch(baseUrl, Trim(text), old(lastBaseUrl), old(lastApiKey))
      ensures autoFetchPending ==> lastBaseUrl == baseUrl && lastApiKey == apiKey
      ensures !autoFetchPending ==> lastBaseUrl == old(lastBaseUrl) && lastApiKey == old(lastApiKey)
    {
      apiKey := Trim(text);
      ScheduleAutoFetch();
    }

    /**
     * `_fetchServices` up to its `await`. Nothing while a fetch runs; a toast
     * and no request without a base URL, or without a token in the
     * `api-key` and `metrics` modes; otherwise the request, the flag staying
     * set until `FinishFetch`.
     */
    method BeginFetch(s: SourceSettings, base64: string -> string) returns (request: Option<ServiceRequest>)
      modifies this`fetching, this`toasts
      ensures old(fetching) ==> request == None && fetching && toasts == old(toasts)
      ensures !old(fetching) && baseUrl == "" ==>
        request == None && !fetching && toasts == old(toasts) + [MissingBaseUrlMessage]
      ensures !old(fetching) && baseUrl != "" && NeedsToken(apiMode) && apiKey == "" ==>
        request == None && !fetching && toasts == old(toasts) + [MissingTokenMessage]
      ensures !old(fetching) && baseUrl != "" && (!NeedsToken(apiMode) || apiKey != "") ==>
        request == Some(RequestFor(baseUrl, apiKey, apiMode, s, base64)) && fetching && toasts == old(toasts)
      ensures request == GuardedRequest(old(fetching), baseUrl, apiKey, apiMode, s, base64)
      ensures toasts == old(toasts) + GuardToasts(old(fetching), baseUrl, apiKey, apiMode)
      ensures fetching == (old(fetching) || request.Some?)
    {
      if fetching {
        return None;
      }
      fetching := true;
      if baseUrl == "" {
        toasts := toasts + [MissingBaseUrlMessage];
        fetching := false;
        return None;
      }
      if NeedsToken(apiMode) && apiKey == "" {
        toasts := toasts + [MissingTokenMessage];
        fetching := false;
        return None;
      }
      return Some(RequestFor(baseUrl, apiKey, apiMode, s, base64));
    }

    /** The 100 ms timer `_initialAutoFetch` armed runs `_fetchServices`. */
    method FireInitialFetch(s: SourceSettings, base64: string -> string) returns (request: Option<ServiceRequest>)
      requires initialFetchPending
      modifies this`initialFetchPending, this`fetching, this`toasts
      ensures !initialFetchPending
      ensures request == GuardedRequest(old(fetching), baseUrl, apiKey, apiMode, s, base64)
      ensures toasts == old(toasts) + GuardToasts(old(fetching), baseUrl, apiKey, apiMode)
      ensures fetching == (old(fetching) || request.Some?)
    {
      request := BeginFetch(s, base64);
      initialFetchPending := false;
    }

    /** The 2 s timer `_scheduleAutoFetch` armed runs `_fetchServices` and forgets its id. */
    method FireAutoFetch(s: SourceSettings, base64: string -> string) returns (request: Option<ServiceRequest>)
      requires autoFetchPending
      modifies this`autoFetchPending, this`fetching, this`toasts
      ensures !autoFetchPending
      ensures request == GuardedRequest(old(fetching), baseUrl, apiKey, apiMode, s, base64)
      ensures toasts == old(toasts) + GuardToasts(old(fetching), baseUrl, apiKey, apiMode)
      ensures fetching == (old(fetching) || request.Some?)
    {
      request := BeginFetch(s, base64);
      autoFetchPending := false;
    }

    /**
     * `_fetchServices` after its `await`: on success the services replace the
     * list and the dropdowns are refreshed; on failure a toast names the
     * error. The flag is released either way.
     */
    method FinishFetch(fetched: Result<seq<Service>, JsError>)
      requires fetching && RowsAligned()
      modifies this`available, this`dropdowns, this`updatingDropdowns, this`toasts, this`fetching
      ensures !fetching && !updatingDropdowns == (fetched.Ok? || !old(updatingDropdowns))
      ensures RowsAligned()
      ensures fetched.Ok? ==>
        available == fetched.value && dropdowns == RefreshAll(old(dropdowns), fetched.value) && toasts == old(toasts)
      ensures fetched.Err? ==>
        available == old(available) && dropdowns == old(dropdowns) && toasts == old(toasts) + [FailureToast(fetched.error)]
    {
      if fetched.Ok? {
        available := fetched.value;
        UpdateServiceDropdowns();
      } else {
        toasts := toasts + [FailureToast(fetched.error)];
      }
      fetching := false;
    }
  }
}
