/**
 * The standalone indicator at the root of the repository (`extension.js`).
 * It has its own numeric status vocabulary (0 pending, 1 up, 2 down,
 * 3 maintenance), unrelated to the five statuses of the main extension. It
 * covers:
 * - the search for monitor lists in any payload shape;
 * - the filtered and de-duplicated monitor rows;
 * - the worst monitor shown on the panel;
 * - the request URL;
 * - the refresh cycle with its re-entrancy guard.
 */
module Legacy {
  import opened Wrappers
  import opened Text
  import opened Js
  import opened Uri
  import Http

  // ---------------------------------------------------------------------------
  // Status codes

  const PendingCode := 0
  const UpCode := 1
  const DownCode := 2
  const MaintenanceCode := 3

  /** `STATUS_MAP.get(code) || 'Unknown'`. */
  function StatusText(code: int): (r: string)
    ensures r != []
    ensures (r == "Unknown") <==> !(0 <= code <= 3)
  {
    if code == PendingCode then "Pending"
    else if code == UpCode then "Up"
    else if code == DownCode then "Down"
    else if code == MaintenanceCode then "Maintenance"
    else "Unknown"
  }

  /** `STATUS_ICON_MAP.get(code) || 'network-workgroup-symbolic'`. */
  function StatusIcon(code: int): (r: string)
    ensures (r == "network-workgroup-symbolic") <==> !(0 <= code <= 3)
  {
    if code == PendingCode then "dialog-question-symbolic"
    else if code == UpCode then "emblem-ok-symbolic"
    else if code == DownCode then "dialog-error-symbolic"
    else if code == MaintenanceCode then "preferences-system-time-symbolic"
    else "network-workgroup-symbolic"
  }

  /**
   * `_normalizeStatusCode`: a number is kept as it is; the words `up` and
   * `operational`, `down` and `critical`, and `maintenance` (in any case) give
   * their codes; any other value is pending.
   */
  function NormalizeStatusCode(status: Json): (r: int)
    ensures status.JNum? ==> r == status.n
    ensures !status.JNum? ==> 0 <= r <= 3
    ensures !status.JNum? && !status.JStr? ==> r == PendingCode
    ensures status.JStr? ==>
      var lower := ToLower(status.s);
      (r == UpCode <==> lower == "up" || lower == "operational")
      && (r == DownCode <==> lower == "down" || lower == "critical")
      && (r == MaintenanceCode <==> lower == "maintenance")
  {
    match status
    case JNum(n) => n
    case JStr(s) =>
      var lower := ToLower(s);
      if lower == "up" || lower == "operational" then UpCode
      else if lower == "down" || lower == "critical" then DownCode
      else if lower == "maintenance" then MaintenanceCode
      else PendingCode
    case _ => PendingCode
  }

  /** Status words are compared case-insensitively. */
  lemma NormalizeIgnoresCase(s: string)
    ensures NormalizeStatusCode(JStr(s)) == NormalizeStatusCode(JStr(ToLower(s)))
  {
    ToLowerIdempotent(s);
  }

  /** The text shown for a known code reads back as that code. */
  lemma StatusTextRoundTrip(code: int)
    requires 0 <= code <= 3
    ensures NormalizeStatusCode(JStr(StatusText(code))) == code
  {
    if code == PendingCode {
      assert ToLower("Pending") == "pending";
    } else if code == UpCode {
      assert ToLower("Up") == "up";
    } else if code == DownCode {
      assert ToLower("Down") == "down";
    } else {
      assert ToLower("Maintenance") == "maintenance";
    }
  }

  /**
   * `_statusScore`: up 3, pending 2, maintenance 1, and down or any other
   * code 0, so a lower score is a worse state.
   */
  function StatusScore(code: int): (r: nat)
    ensures r <= 3
    ensures r == 3 <==> code == UpCode
    ensures r == 2 <==> code == PendingCode
    ensures r == 1 <==> code == MaintenanceCode
    ensures r == 0 <==> code != UpCode && code != PendingCode && code != MaintenanceCode
  {
    if code == UpCode then 3
    else if code == PendingCode then 2
    else if code == MaintenanceCode then 1
    else 0
  }

  /** `Math.max(10, refresh-interval)`: the refresh period in seconds, never below 10. */
  function RefreshInterval(setting: int): (r: int)
    ensures r >= 10 && r >= setting
    ensures r == 10 || r == setting
  {
    if setting > 10 then setting else 10
  }

  // ---------------------------------------------------------------------------
  // Finding monitor lists in a payload

  /** `typeof value === 'object'`: null, arrays and objects. */
  predicate IsObjectTyped(j: Json) {
    j.JNull? || j.JArr? || j.JObj?
  }

  /** The lists concatenated in order, as repeated `push(...list)` builds them. */
  function Concat(lists: seq<seq<Json>>): seq<Json> {
    if lists == [] then [] else Concat(lists[..|lists| - 1]) + lists[|lists| - 1]
  }

  lemma {:induction false} ConcatAppend(a: seq<seq<Json>>, b: seq<seq<Json>>)
    ensures Concat(a + b) == Concat(a) + Concat(b)
  {
    if b == [] {
      assert a + b == a;
    } else {
      assert (a + b)[..|a + b| - 1] == a + b[..|b| - 1];
      ConcatAppend(a, b[..|b| - 1]);
    }
  }

  /**
   * `_findMonitors`: nothing in a value that is not an object; the results of
   * every element of an array, in order; an object's own `monitors` array
   * when it has one, without looking further; otherwise the results of each
   * object-typed property value, in order.
   */
  function FindMonitors(data: Json): (r: seq<Json>)
    decreases data
    ensures !data.JArr? && !data.JObj? ==> r == []
    ensures data.JObj? && Get(data, "monitors").JArr? ==> r == Get(data, "monitors").items
  {
    match data
    case JArr(items) =>
      Concat(seq(|items|, i requires 0 <= i < |items| => FindMonitors(items[i])))
    case JObj(fields) =>
      var listed := Get(data, "monitors");
      if listed.JArr? then listed.items
      else
        Concat(seq(|fields|, i requires 0 <= i < |fields| =>
          assert fields[i] in fields;
          if IsObjectTyped(fields[i].1) then FindMonitors(fields[i].1) else []))
    case _ => []
  }

  /** Searching an array is searching its parts one after the other. */
  lemma FindMonitorsOfAppend(a: seq<Json>, b: seq<Json>)
    ensures FindMonitors(JArr(a + b)) == FindMonitors(JArr(a)) + FindMonitors(JArr(b))
  {
    var la := seq(|a|, i requires 0 <= i < |a| => FindMonitors(a[i]));
    var lb := seq(|b|, i requires 0 <= i < |b| => FindMonitors(b[i]));
    var lab := seq(|a + b|, i requires 0 <= i < |a + b| => FindMonitors((a + b)[i]));
    assert lab == la + lb;
    ConcatAppend(la, lb);
  }

  /** A payload wrapped in an object under any other key than `monitors` is found the same. */
  lemma FindMonitorsThroughWrapper(key: string, inner: Json)
    requires key != "monitors" && IsObjectTyped(inner)
    ensures FindMonitors(JObj([(key, inner)])) == FindMonitors(inner)
  {
    var fields := [(key, inner)];
    assert Lookup(fields[1..], "monitors") == None;
    assert Get(JObj(fields), "monitors") == JUndef;
    forall lists: seq<seq<Json>> | |lists| == 1
      ensures Concat(lists) == lists[0]
    {
      assert lists[..0] == [];
    }
  }

  // ---------------------------------------------------------------------------
  // The monitor rows

  /** One row of the menu: the monitor's id, name, code, status text and description. */
  datatype LegacyMonitor = LegacyMonitor(id: Json, name: Json, statusCode: int, statusText: string, description: Json)

  /** What `_extractMonitors` returns: the rows and how many monitors the payload listed. */
  datatype Extraction = Extraction(monitors: seq<LegacyMonitor>, rawCount: nat)

  const StatusFields := ["status", "statusClass", "statusEnum", "statusText"]

  /**
   * The row of one raw monitor. Its status is the first of `status`,
   * `statusClass`, `statusEnum` and `statusText` that is present; its name
   * defaults to "Monitor"; its description is `description || note || null`.
   */
  function ShapeMonitor(m: Json): (r: LegacyMonitor)
    requires !Nullish(m)
    ensures r.id == Get(m, "id") && Truthy(r.name)
    ensures r.statusCode == NormalizeStatusCode(FirstPresent(m, StatusFields))
    ensures r.statusText == StatusText(r.statusCode)
  {
    var code := NormalizeStatusCode(FirstPresent(m, StatusFields));
    LegacyMonitor(
      Get(m, "id"),
      Or(Get(m, "name"), JStr("Monitor")),
      code,
      StatusText(code),
      Or(Or(Get(m, "description"), Get(m, "note")), JNull))
  }

  /** The de-duplication key: `id:<id>` for a truthy id, else `name:<name>` for a truthy name, else none. */
  function DedupeKey(m: Json): (r: Option<string>)
    requires !Nullish(m)
    ensures Truthy(Get(m, "id")) ==> r == Some("id:" + ToStr(Get(m, "id")))
    ensures !Truthy(Get(m, "id")) && Truthy(Get(m, "name")) ==> r == Some("name:" + ToStr(Get(m, "name")))
    ensures r.None? <==> !Truthy(Get(m, "id")) && !Truthy(Get(m, "name"))
  {
    var id := Get(m, "id");
    var name := Get(m, "name");
    if Truthy(id) then Some("id:" + ToStr(id))
    else if Truthy(name) then Some("name:" + ToStr(name))
    else None
  }

  /** The id filter: an empty list lets every monitor through, otherwise `String(id)` must be listed. */
  predicate PassesFilter(m: Json, ids: seq<string>)
    requires !Nullish(m)
  {
    |ids| == 0 || ToStr(Get(m, "id")) in ids
  }

  /** The de-duplication key of each raw entry (none for null or undefined, which throw first). */
  function KeyList(raw: seq<Json>): (r: seq<Option<string>>)
    ensures |r| == |raw|
    ensures forall i :: 0 <= i < |raw| && !Nullish(raw[i]) ==> r[i] == DedupeKey(raw[i])
  {
    seq(|raw|, i requires 0 <= i < |raw| => if Nullish(raw[i]) then None else DedupeKey(raw[i]))
  }

  /** Whether each raw entry passes the id filter. */
  function PassList(raw: seq<Json>, ids: seq<string>): (r: seq<bool>)
    ensures |r| == |raw|
    ensures forall i :: 0 <= i < |raw| ==> (r[i] <==> !Nullish(raw[i]) && PassesFilter(raw[i], ids))
  {
    seq(|raw|, i requires 0 <= i < |raw| => !Nullish(raw[i]) && PassesFilter(raw[i], ids))
  }

  predicate InRange(keys: seq<Option<string>>, ix: seq<nat>) {
    forall k :: 0 <= k < |ix| ==> ix[k] < |keys|
  }

  /** The keys the `seen` set holds once the entries at `ix` have been kept. */
  function KeysOf(keys: seq<Option<string>>, ix: seq<nat>): set<string>
    requires InRange(keys, ix)
  {
    if ix == [] then {}
    else
      var last := keys[ix[|ix| - 1]];
      KeysOf(keys, ix[..|ix| - 1]) + (match last case Some(k) => {k} case None => {})
  }

  lemma {:induction false} KeysOfMeaning(keys: seq<Option<string>>, ix: seq<nat>, key: string)
    requires InRange(keys, ix)
    ensures key in KeysOf(keys, ix) <==> exists k :: 0 <= k < |ix| && keys[ix[k]] == Some(key)
  {
    if ix != [] {
      var init := ix[..|ix| - 1];
      KeysOfMeaning(keys, init, key);
      if exists k :: 0 <= k < |ix| - 1 && keys[ix[k]] == Some(key) {
        var k :| 0 <= k < |ix| - 1 && keys[ix[k]] == Some(key);
        assert init[k] == ix[k];
      }
      if exists k :: 0 <= k < |init| && keys[init[k]] == Some(key) {
        var k :| 0 <= k < |init| && keys[init[k]] == Some(key);
        assert init[k] == ix[k];
      }
    }
  }

  /** Whether the loop keeps entry `i` after keeping the ones at `ix`. */
  predicate Keeps(keys: seq<Option<string>>, pass: seq<bool>, ix: seq<nat>, i: nat)
    requires InRange(keys, ix) && i < |keys| && i < |pass|
  {
    pass[i] && (keys[i].None? || keys[i].value !in KeysOf(keys, ix))
  }

  /**
   * The positions `_extractMonitors` keeps among the first `n` entries, in
   * order, given each entry's key and whether it passes the filter.
   */
  function Kept(keys: seq<Option<string>>, pass: seq<bool>, n: nat): (ix: seq<nat>)
    requires n <= |keys| == |pass|
    ensures forall k :: 0 <= k < |ix| ==> ix[k] < n && pass[ix[k]]
  {
    if n == 0 then []
    else
      var prev := Kept(keys, pass, n - 1);
      if Keeps(keys, pass, prev, n - 1) then prev + [n - 1] else prev
  }

  predicate PresentUpTo(raw: seq<Json>, n: nat) {
    n <= |raw| && forall i :: 0 <= i < n ==> !Nullish(raw[i])
  }

  predicate ValidIndices(raw: seq<Json>, ix: seq<nat>) {
    forall k :: 0 <= k < |ix| ==> ix[k] < |raw| && !Nullish(raw[ix[k]])
  }

  /** The rows of the monitors at `ix`. */
  function Shapes(raw: seq<Json>, ix: seq<nat>): (r: seq<LegacyMonitor>)
    requires ValidIndices(raw, ix)
    ensures |r| == |ix|
  {
    seq(|ix|, k requires 0 <= k < |ix| => ShapeMonitor(raw[ix[k]]))
  }

  /** The positions kept among the first `n` raw monitors. */
  function KeptIndices(raw: seq<Json>, ids: seq<string>, n: nat): (ix: seq<nat>)
    requires n <= |raw|
    ensures ValidIndices(raw, ix)
  {
    var ix := Kept(KeyList(raw), PassList(raw, ids), n);
    assert forall k :: 0 <= k < |ix| ==> PassList(raw, ids)[ix[k]];
    ix
  }

  /**
   * What `_extractMonitors` returns for the found list `raw`: the rows of the
   * kept monitors and the length of `raw`. A null or undefined entry makes
   * reading its `id` throw a TypeError.
   */
  function Extracted(raw: seq<Json>, ids: seq<string>): Result<Extraction, JsError> {
    if PresentUpTo(raw, |raw|) then Ok(Extraction(Shapes(raw, KeptIndices(raw, ids, |raw|)), |raw|))
    else Err(TypeError)
  }

  /** The kept positions increase, so the rows keep the order of the payload. */
  lemma {:induction false} KeptIncreasing(keys: seq<Option<string>>, pass: seq<bool>, n: nat)
    requires n <= |keys| == |pass|
    ensures forall k, l :: 0 <= k < l < |Kept(keys, pass, n)| ==> Kept(keys, pass, n)[k] < Kept(keys, pass, n)[l]
  {
    if n > 0 {
      KeptIncreasing(keys, pass, n - 1);
    }
  }

  /** No two of the entries at `ix` share a key. */
  predicate DistinctKeys(keys: seq<Option<string>>, ix: seq<nat>)
    requires InRange(keys, ix)
  {
    forall k, l :: 0 <= k < l < |ix| ==> keys[ix[k]].None? || keys[ix[k]] != keys[ix[l]]
  }

  /** No two kept monitors share a key. */
  lemma {:induction false} KeptKeysDistinct(keys: seq<Option<string>>, pass: seq<bool>, n: nat)
    requires n <= |keys| == |pass|
    ensures DistinctKeys(keys, Kept(keys, pass, n))
  {
    if n > 0 {
      var prev := Kept(keys, pass, n - 1);
      KeptKeysDistinct(keys, pass, n - 1);
      if Keeps(keys, pass, prev, n - 1) {
        var ix := prev + [n - 1];
        forall k, l | 0 <= k < l < |ix|
          ensures keys[ix[k]].None? || keys[ix[k]] != keys[ix[l]]
        {
          assert ix[k] == prev[k];
          if l < |prev| {
            assert ix[l] == prev[l];
          } else if keys[prev[k]].Some? {
            KeysOfMeaning(keys, prev, keys[prev[k]].value);
          }
        }
      }
    }
  }

  /**
   * Nothing that passes the filter is lost: an entry that is not kept has
   * a key that one of the entries kept before it already has.
   */
  lemma {:induction false} KeptComplete(keys: seq<Option<string>>, pass: seq<bool>, n: nat, j: nat)
    requires n <= |keys| == |pass| && j < n && pass[j]
    ensures j in Kept(keys, pass, n)
      || (keys[j].Some? && keys[j].value in KeysOf(keys, Kept(keys, pass, j)))
  {
    if j < n - 1 {
      KeptComplete(keys, pass, n - 1, j);
    }
  }

  /** Without a filter, monitors that have neither id nor name are all kept. */
  lemma {:induction false} KeptAllWithoutKeys(keys: seq<Option<string>>, pass: seq<bool>, n: nat)
    requires n <= |keys| == |pass|
    requires forall i :: 0 <= i < n ==> keys[i].None? && pass[i]
    ensures |Kept(keys, pass, n)| == n
  {
    if n > 0 {
      KeptAllWithoutKeys(keys, pass, n - 1);
    }
  }

  /** One step of the loop of `_extractMonitors`: what it keeps, and the rows and keys it has then. */
  lemma ExtractStep(raw: seq<Json>, ids: seq<string>, kept: seq<nat>, i: nat)
    requires PresentUpTo(raw, i + 1) && kept == KeptIndices(raw, ids, i)
    ensures var keys, pass := KeyList(raw), PassList(raw, ids);
      (!Keeps(keys, pass, kept, i) ==> KeptIndices(raw, ids, i + 1) == kept)
      && (Keeps(keys, pass, kept, i) ==>
        KeptIndices(raw, ids, i + 1) == kept + [i]
        && Shapes(raw, kept + [i]) == Shapes(raw, kept) + [ShapeMonitor(raw[i])])
  {
    assert (kept + [i])[..|kept|] == kept;
  }

  lemma KeysOfSnoc(keys: seq<Option<string>>, ix: seq<nat>, i: nat)
    requires InRange(keys, ix) && i < |keys|
    ensures InRange(keys, ix + [i])
    ensures keys[i].Some? ==> KeysOf(keys, ix + [i]) == KeysOf(keys, ix) + {keys[i].value}
    ensures keys[i].None? ==> KeysOf(keys, ix + [i]) == KeysOf(keys, ix)
  {
    assert (ix + [i])[..|ix|] == ix;
  }

  /** `_extractMonitors(data, monitorIds)`. */
  method ExtractMonitors(data: Json, ids: seq<string>) returns (r: Result<Extraction, JsError>)
    ensures r == Extracted(FindMonitors(data), ids)
  {
    var raw := FindMonitors(data);
    ghost var keys, pass := KeyList(raw), PassList(raw, ids);
    var monitors: seq<LegacyMonitor> := [];
    var seen: set<string> := {};
    ghost var kept: seq<nat> := [];
    var i: nat := 0;
    while i < |raw|
      invariant PresentUpTo(raw, i)
      invariant kept == KeptIndices(raw, ids, i)
      invariant monitors == Shapes(raw, kept)
      invariant seen == KeysOf(keys, kept)
    {
      var monitor := raw[i];
      if Nullish(monitor) {
        // reading `monitor.id` throws
        return Err(TypeError);
      }
      ExtractStep(raw, ids, kept, i);
      KeysOfSnoc(keys, kept, i);
      var key := DedupeKey(monitor);
      assert keys[i] == key;
      if (|ids| > 0 && ToStr(Get(monitor, "id")) !in ids) || (key.Some? && key.value in seen) {
        // filtered out, or a duplicate
      } else {
        monitors := monitors + [ShapeMonitor(monitor)];
        if key.Some? {
          seen := seen + {key.value};
        }
        kept := kept + [i];
      }
      i := i + 1;
    }
    return Ok(Extraction(monitors, |raw|));
  }

  // ---------------------------------------------------------------------------
  // The panel

  /**
   * The monitor `_updateIndicator` shows: the first one with the lowest
   * score, as the `reduce` that replaces its pick only on a strictly lower
   * score finds it.
   */
  function WorstIndex(ms: seq<LegacyMonitor>): (k: nat)
    requires |ms| > 0
    ensures k < |ms|
    ensures forall i :: 0 <= i < |ms| ==> StatusScore(ms[k].statusCode) <= StatusScore(ms[i].statusCode)
    ensures forall i :: 0 <= i < k ==> StatusScore(ms[i].statusCode) > StatusScore(ms[k].statusCode)
  {
    if |ms| == 1 then 0
    else
      var w := WorstIndex(ms[..|ms| - 1]);
      assert forall i :: 0 <= i < |ms| - 1 ==> ms[..|ms| - 1][i] == ms[i];
      if StatusScore(ms[|ms| - 1].statusCode) < StatusScore(ms[w].statusCode) then |ms| - 1 else w
  }

  /** Taking the worst row is insensitive to rows added after it that are no worse. */
  lemma {:induction false} WorstIndexKeepsEarlier(ms: seq<LegacyMonitor>, more: seq<LegacyMonitor>)
    requires |ms| > 0
    requires forall i :: 0 <= i < |more| ==> StatusScore(more[i].statusCode) >= StatusScore(ms[WorstIndex(ms)].statusCode)
    ensures WorstIndex(ms + more) == WorstIndex(ms)
  {
    if more == [] {
      assert ms + more == ms;
    } else {
      var init := more[..|more| - 1];
      WorstIndexKeepsEarlier(ms, init);
      var all := ms + more;
      assert all[..|all| - 1] == ms + init;
      assert all[WorstIndex(ms)] == ms[WorstIndex(ms)];
      assert all[|all| - 1] == more[|more| - 1];
    }
  }

  /** The panel text and icon `_updateIndicator` sets. */
  function PanelStatus(ms: seq<LegacyMonitor>): (r: (string, string))
    ensures |ms| == 0 ==> r == ("No data", "dialog-warning-symbolic")
    ensures |ms| > 0 ==>
      exists k :: 0 <= k < |ms| && r == (ms[k].statusText, StatusIcon(ms[k].statusCode))
        && (forall i :: 0 <= i < |ms| ==> StatusScore(ms[k].statusCode) <= StatusScore(ms[i].statusCode))
        && (forall i :: 0 <= i < k ==> StatusScore(ms[i].statusCode) > StatusScore(ms[k].statusCode))
  {
    if |ms| == 0 then ("No data", "dialog-warning-symbolic")
    else
      var w := WorstIndex(ms);
      (ms[w].statusText, StatusIcon(ms[w].statusCode))
  }

  // ---------------------------------------------------------------------------
  // The menu

  datatype MenuItem = Item(text: string) | Separator

  /** A row's line: `<name>: <status>`, then the description on a line of its own if there is one. */
  function MonitorLine(m: LegacyMonitor): string {
    ToStr(m.name) + ": " + m.statusText + (if Truthy(m.description) then "\n" + ToStr(m.description) else "")
  }

  /** The single placeholder of an empty list: it says whether the filter removed every monitor. */
  function EmptyMenu(filtered: bool, rawCount: nat): seq<MenuItem> {
    [Item(if filtered && rawCount > 0 then "No matching monitors found" else "No monitors available")]
  }

  /**
   * `_rebuildMenu`: one line per row, then a separator and the time of the
   * update (the local clock's `%X` text, passed in); or the placeholder.
   */
  function MonitorMenu(ms: seq<LegacyMonitor>, filtered: bool, rawCount: nat, clock: string): (r: seq<MenuItem>)
    ensures |ms| == 0 ==> r == EmptyMenu(filtered, rawCount)
    ensures |ms| > 0 ==>
      |r| == |ms| + 2 && r[|ms|] == Separator && r[|ms| + 1] == Item("Last update: " + clock)
      && forall i :: 0 <= i < |ms| ==> r[i] == Item(MonitorLine(ms[i]))
  {
    if |ms| == 0 then EmptyMenu(filtered, rawCount)
    else seq(|ms|, i requires 0 <= i < |ms| => Item(MonitorLine(ms[i]))) + [Separator, Item("Last update: " + clock)]
  }

  function ErrorMenu(e: JsError): seq<MenuItem> {
    [Item("Failed to load data"), Item(ErrorMessage(e))]
  }

  // ---------------------------------------------------------------------------
  // Settings

  /**
   * `_buildUrl`: none for a blank server URL; otherwise the trimmed URL
   * without one trailing `/`, followed by `/api/monitors` when the trimmed
   * slug is blank and by `/api/status-page/summary/<encoded slug>` otherwise.
   */
  function BuildUrl(serverUrl: string, slug: string): (r: Option<string>)
    ensures r.None? <==> Trim(serverUrl) == []
  {
    var base := Trim(serverUrl);
    if base == [] then None
    else
      var normalized := DropTrailingSlash(base);
      var s := Trim(slug);
      if s == [] then Some(normalized + "/api/monitors")
      else Some(normalized + "/api/status-page/summary/" + EncodeUriComponent(s))
  }

  /** Blanks around either setting do not change the URL. */
  lemma BuildUrlIgnoresBlanks(serverUrl: string, slug: string)
    ensures BuildUrl([' '] + serverUrl + [' '], [' '] + slug + [' ']) == BuildUrl(serverUrl, slug)
  {
    TrimPadded(serverUrl);
    TrimPadded([' '] + serverUrl);
    TrimPadded(slug);
    TrimPadded([' '] + slug);
  }

  /** A server URL given with one trailing slash gives the same URL as without it. */
  lemma BuildUrlTrailingSlash(base: string, slug: string)
    requires base != [] && Trim(base) == base && !EndsWith(base, "/")
    ensures BuildUrl(base + "/", slug) == BuildUrl(base, slug)
  {
    assert (base + "/")[0] == base[0];
    TrimHasNoOuterSpace(base);
    TrimFixed(base + "/");
    assert (base + "/")[..|base|] == base;
  }

  /** `.map(id => id.trim()).filter(Boolean)`. */
  function TrimmedNonEmpty(parts: seq<string>): (r: seq<string>)
    ensures |r| <= |parts|
  {
    if parts == [] then []
    else
      var rest := TrimmedNonEmpty(parts[..|parts| - 1]);
      var t := Trim(parts[|parts| - 1]);
      if t == [] then rest else rest + [t]
  }

  /** The `monitor-ids` setting as a list: split on `,`, each part trimmed, blank parts dropped. */
  function ParseMonitorIds(setting: string): seq<string> {
    TrimmedNonEmpty(Split(setting, ','))
  }

  lemma {:induction false} TrimmedNonEmptyClean(parts: seq<string>)
    requires forall k :: 0 <= k < |parts| ==> ',' !in parts[k]
    ensures forall k :: 0 <= k < |TrimmedNonEmpty(parts)| ==>
      TrimmedNonEmpty(parts)[k] != [] && Trim(TrimmedNonEmpty(parts)[k]) == TrimmedNonEmpty(parts)[k]
      && ',' !in TrimmedNonEmpty(parts)[k]
  {
    if parts != [] {
      var init := parts[..|parts| - 1];
      var last := parts[|parts| - 1];
      assert forall k :: 0 <= k < |init| ==> init[k] == parts[k];
      TrimmedNonEmptyClean(init);
      TrimIdempotent(last);
      TrimKeepsOut(last, ',');
      var rest := TrimmedNonEmpty(init);
      var t := Trim(last);
      if t != [] {
        var r := rest + [t];
        forall k | 0 <= k < |r|
          ensures r[k] != [] && Trim(r[k]) == r[k] && ',' !in r[k]
        {
          if k < |rest| {
            assert r[k] == rest[k];
          } else {
            assert r[k] == t;
          }
        }
      }
    }
  }

  /** Every parsed id is non-blank, has no blanks around it and no comma. */
  lemma ParseMonitorIdsClean(setting: string)
    ensures var ids := ParseMonitorIds(setting);
      forall k :: 0 <= k < |ids| ==> ids[k] != [] && Trim(ids[k]) == ids[k] && ',' !in ids[k]
  {
    TrimmedNonEmptyClean(Split(setting, ','));
  }

  lemma {:induction false} TrimmedNonEmptyOfClean(ids: seq<string>)
    requires forall k :: 0 <= k < |ids| ==> ids[k] != [] && Trim(ids[k]) == ids[k]
    ensures TrimmedNonEmpty(ids) == ids
  {
    if ids != [] {
      TrimmedNonEmptyOfClean(ids[..|ids| - 1]);
    }
  }

  /** Writing clean ids joined by commas into the setting reads them back. */
  lemma ParseMonitorIdsOfJoin(ids: seq<string>)
    requires forall k :: 0 <= k < |ids| ==> ids[k] != [] && Trim(ids[k]) == ids[k] && ',' !in ids[k]
    ensures ParseMonitorIds(Join(ids, ',')) == ids
  {
    if ids == [] {
      assert Split("", ',') == [""];
      assert Trim("") == "";
    } else {
      SplitJoin(ids, ',');
      TrimmedNonEmptyOfClean(ids);
    }
  }

  // ---------------------------------------------------------------------------
  // The refresh cycle

  /** `HttpClient.get`: the body of a 2xx response, otherwise an error naming the status. */
  function GetResult(o: Http.Outcome): (r: Result<string, JsError>)
    ensures r.Ok? <==> o.Response? && 200 <= o.status < 300
  {
    match o
    case Response(status, body) =>
      if 200 <= status < 300 then Ok(body)
      else Err(Error("Request failed with status " + IntToString(status)))
    case Failure(e) => Err(e)
  }

  /** The body of the `try` in `_refresh` after the response `o`: parse, filter and extract. */
  function RefreshOutcome(o: Http.Outcome, parse: string -> Result<Json, JsError>, ids: seq<string>)
    : (r: Result<Extraction, JsError>)
    ensures GetResult(o).Err? ==> r == Err(GetResult(o).error)
    ensures GetResult(o).Ok? && parse(GetResult(o).value).Err? ==> r == Err(parse(GetResult(o).value).error)
    ensures GetResult(o).Ok? && parse(GetResult(o).value).Ok? ==> r == Extracted(FindMonitors(parse(GetResult(o).value).value), ids)
  {
    match GetResult(o)
    case Err(e) => Err(e)
    case Ok(text) =>
      match parse(text)
      case Err(e) => Err(e)
      case Ok(data) => Extracted(FindMonitors(data), ids)
  }

  const InitialText := "..."
  const InitialIcon := "network-workgroup-symbolic"

  /**
   * The panel button: its label and icon, its menu, and the `_refreshing`
   * flag that keeps two refreshes from overlapping.
   */
  class LegacyIndicator {
    var refreshing: bool
    var panelText: string
    var iconName: string
    var menu: seq<MenuItem>

    /** `_init`, before its first `_refresh()`, which the caller makes. */
    constructor()
      ensures !refreshing && panelText == InitialText && iconName == InitialIcon && menu == []
    {
      refreshing := false;
      panelText := InitialText;
      iconName := InitialIcon;
      menu := [];
    }

    /** `_setStatus`. */
    method SetStatus(text: string, icon: string)
      modifies this`panelText, this`iconName
      ensures panelText == text && iconName == icon
    {
      panelText := text;
      iconName := icon;
    }

    /**
     * `_refresh` up to its `await`. While a refresh runs it does nothing;
     * without a server URL it shows the hint and an empty menu and releases
     * the flag; otherwise it shows "Updating…" and returns the URL to fetch,
     * the flag staying set until `FinishRefresh`.
     */
    method Refresh(serverUrl: string, slug: string) returns (request: Option<string>)
      modifies this
      ensures old(refreshing) ==>
        request == None && refreshing && panelText == old(panelText) && iconName == old(iconName) && menu == old(menu)
      ensures !old(refreshing) && BuildUrl(serverUrl, slug).None? ==>
        request == None && !refreshing && menu == EmptyMenu(false, 0)
        && panelText == "Configure Uptime Kuma in preferences" && iconName == "dialog-information-symbolic"
      ensures !old(refreshing) && BuildUrl(serverUrl, slug).Some? ==>
        request == BuildUrl(serverUrl, slug) && refreshing && menu == old(menu)
        && panelText == "Updating…" && iconName == "network-transmit-receive-symbolic"
    {
      if refreshing {
        return None;
      }
      refreshing := true;
      var url := BuildUrl(serverUrl, slug);
      if url.None? {
        SetStatus("Configure Uptime Kuma in preferences", "dialog-information-symbolic");
        menu := EmptyMenu(false, 0);
        refreshing := false;
        return None;
      }
      SetStatus("Updating…", "network-transmit-receive-symbolic");
      return url;
    }

    /**
     * `_refresh` after its `await`: the response `o`, the `monitor-ids`
     * setting read then, and the local clock's text. On success the panel
     * shows the worst monitor and the menu its rows; on any error the panel
     * shows "Error" and the menu the reason. The flag is released either way.
     */
    method FinishRefresh(o: Http.Outcome, parse: string -> Result<Json, JsError>, monitorIdsSetting: string, clock: string)
      requires refreshing
      modifies this
      ensures !refreshing
      ensures var ids := ParseMonitorIds(monitorIdsSetting);
        var outcome := RefreshOutcome(o, parse, ids);
        (outcome.Ok? ==>
          (panelText, iconName) == PanelStatus(outcome.value.monitors)
          && menu == MonitorMenu(outcome.value.monitors, |ids| > 0, outcome.value.rawCount, clock))
        && (outcome.Err? ==>
          panelText == "Error" && iconName == "dialog-error-symbolic" && menu == ErrorMenu(outcome.error))
    {
      var failure: Option<JsError> := None;
      var response := GetResult(o);
      if response.Err? {
        failure := Some(response.error);
      } else {
        var data := parse(response.value);
        if data.Err? {
          failure := Some(data.error);
        } else {
          var ids := ParseMonitorIds(monitorIdsSetting);
          var extracted := ExtractMonitors(data.value, ids);
          if extracted.Err? {
            failure := Some(extracted.error);
          } else {
            var status := PanelStatus(extracted.value.monitors);
            SetStatus(status.0, status.1);
            menu := MonitorMenu(extracted.value.monitors, |ids| > 0, extracted.value.rawCount, clock);
          }
        }
      }
      if failure.Some? {
        SetStatus("Error", "dialog-error-symbolic");
        menu := ErrorMenu(failure.value);
      }
      refreshing := false;
    }
  }
}
