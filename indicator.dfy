/**
 * The panel indicator: relative times, the selected-services filter, the
 * order in which history gaps are filled, the reconciliation of the monitor
 * rows, offline and recovery notices, the merged summary series and the
 * log filter, around one refresh cycle.
 */
module Indicator {
  import opened Wrappers
  import opened Text
  import opened Js
  import opened Http
  import opened Parsers
  import opened Sparkline
  import opened Network

  // ---------------------------------------------------------------------------
  // formatRelative

  datatype TimeUnit = Seconds | Minutes | Hours | Days | Weeks

  function UnitSeconds(u: TimeUnit): nat {
    match u
    case Seconds => 1
    case Minutes => 60
    case Hours => 3600
    case Days => 86400
    case Weeks => 604800
  }

  /** A count of whole units, as `formatRelative` words it. */
  datatype Relative = Relative(count: nat, unit: TimeUnit)

  /** `Math.max(0, Math.floor(delta))` for a whole number of seconds. */
  function Clamp(deltaSeconds: int): nat {
    if deltaSeconds < 0 then 0 else deltaSeconds
  }

  /** Quotients compose: dividing by `b` and then by `c` is dividing by `b * c`. */
  lemma DivDiv(a: nat, b: nat, c: nat)
    requires b > 0 && c > 0
    ensures a / b / c == a / (b * c)
  {
    var q1, r1 := a / b, a % b;
    var q2, r2 := q1 / c, q1 % c;
    Regroup(a, b, c, q1, r1, q2, r2);
    DivUnique(a, b * c, q2, b * r2 + r1);
  }

  /** The two divisions with remainders, regrouped as one by `b * c`. */
  lemma Regroup(a: nat, b: nat, c: nat, q1: nat, r1: nat, q2: nat, r2: nat)
    requires b > 0 && c > 0 && r1 < b && r2 < c
    requires a == b * q1 + r1 && q1 == c * q2 + r2
    ensures a == (b * c) * q2 + (b * r2 + r1) && b * r2 + r1 < b * c
  {
    assert b * q1 == b * (c * q2) + b * r2;
    assert b * (c * q2) == (b * c) * q2;
    assert b * r2 <= b * (c - 1) by {
      MulMonotone(b, r2, c - 1);
    }
    assert b * (c - 1) == b * c - b;
  }

  lemma MulMonotone(b: nat, x: nat, y: nat)
    requires x <= y
    ensures b * x <= b * y
  {
    assert b * y - b * x == b * (y - x);
  }

  lemma DivUnique(a: nat, d: nat, q: nat, r: nat)
    requires d > 0 && r < d && a == d * q + r
    ensures a / d == q
  {
    var q0, r0 := a / d, a % d;
    assert d * q0 + r0 == d * q + r;
    if q0 < q {
      assert d * (q - q0) == r0 - r;
      MulMonotone(d, 1, q - q0);
    } else if q0 > q {
      assert d * (q0 - q) == r - r0;
      MulMonotone(d, 1, q0 - q);
    }
  }

  /**
   * `formatRelative`: seconds under a minute, then minutes under an hour,
   * hours under a day, days under a week, and weeks beyond; each count is
   * the floor of the previous one divided by the next unit.
   */
  function FormatRelative(deltaSeconds: int): (r: Relative)
    ensures r.unit == Seconds ==> r.count < 60
    ensures r.unit == Minutes ==> 1 <= r.count < 60
    ensures r.unit == Hours ==> 1 <= r.count < 24
    ensures r.unit == Days ==> 1 <= r.count < 7
    ensures r.unit == Weeks ==> r.count >= 1
  {
    var abs := Clamp(deltaSeconds);
    if abs < 60 then Relative(abs, Seconds)
    else
      var minutes := abs / 60;
      if minutes < 60 then Relative(minutes, Minutes)
      else
        var hours := minutes / 60;
        if hours < 24 then Relative(hours, Hours)
        else
          var days := hours / 24;
          if days < 7 then Relative(days, Days)
          else Relative(days / 7, Weeks)
  }

  /**
   * The chained floors amount to one floor by the unit's length, and the unit
   * is the largest one that the (clamped) delta fills at least once.
   */
  lemma FormatRelativeMeaning(deltaSeconds: int)
    ensures var abs := Clamp(deltaSeconds);
      var r := FormatRelative(deltaSeconds);
      r.count == abs / UnitSeconds(r.unit)
      && (r.unit == Seconds <==> abs < 60)
      && (r.unit == Minutes <==> 60 <= abs < 3600)
      && (r.unit == Hours <==> 3600 <= abs < 86400)
      && (r.unit == Days <==> 86400 <= abs < 604800)
      && (r.unit == Weeks <==> 604800 <= abs)
  {
    var abs := Clamp(deltaSeconds);
    DivDiv(abs, 60, 60);
    DivDiv(abs, 3600, 24);
    DivDiv(abs, 86400, 7);
    DivDiv(abs / 60, 60, 24);
    DivDiv(abs / 3600, 24, 7);
    assert abs / 60 / 60 / 24 == abs / 86400;
    assert abs / 60 / 60 / 24 / 7 == abs / 604800;
  }

  /** A negative delta (a check stamped in the future) reads as zero seconds. */
  lemma FutureIsNow(deltaSeconds: int)
    requires deltaSeconds <= 0
    ensures FormatRelative(deltaSeconds) == Relative(0, Seconds)
  {
  }

  function UnitName(u: TimeUnit): string {
    match u
    case Seconds => "second"
    case Minutes => "minute"
    case Hours => "hour"
    case Days => "day"
    case Weeks => "week"
  }

  /** The English text of the untranslated catalogue: singular for one, plural otherwise. */
  function RelativeText(r: Relative): (t: string)
    ensures StartsWith(t, NatToString(r.count) + " " + UnitName(r.unit))
    ensures EndsWith(t, " ago")
  {
    var head := NatToString(r.count) + " " + UnitName(r.unit);
    var t := head + (if r.count == 1 then "" else "s") + " ago";
    assert t[..|head|] == head;
    assert t[|t| - 4..] == " ago";
    t
  }

  // ---------------------------------------------------------------------------
  // The selected-services filter

  /** `monitors.filter(m => selectedSet.has(String(m.id)))`. */
  function SelectedOnly(ms: seq<Monitor>, selected: seq<string>): (r: seq<Monitor>)
    ensures |r| <= |ms|
  {
    if ms == [] then []
    else
      SelectedOnly(ms[..|ms| - 1], selected)
        + (if ToStr(ms[|ms| - 1].id) in selected then [ms[|ms| - 1]] else [])
  }

  /** The filter keeps exactly the monitors whose textual id is selected. */
  lemma {:induction false} SelectedOnlyMembers(ms: seq<Monitor>, selected: seq<string>)
    ensures forall m :: m in SelectedOnly(ms, selected) <==> m in ms && ToStr(m.id) in selected
  {
    if ms != [] {
      SelectedOnlyMembers(ms[..|ms| - 1], selected);
      assert ms == ms[..|ms| - 1] + [ms[|ms| - 1]];
    }
  }

  /** The filter keeps the order: filtering a concatenation filters each part. */
  lemma {:induction false} SelectedOnlyAppend(ms: seq<Monitor>, more: seq<Monitor>, selected: seq<string>)
    ensures SelectedOnly(ms + more, selected) == SelectedOnly(ms, selected) + SelectedOnly(more, selected)
    decreases |more|
  {
    if more == [] {
      assert ms + more == ms;
    } else {
      var init := more[..|more| - 1];
      SelectedOnlyAppend(ms, init, selected);
      assert (ms + more)[..|ms + more| - 1] == ms + init;
    }
  }

  // ---------------------------------------------------------------------------
  // Filling history gaps

  /**
   * The series the heartbeat map holds for an id. The map is a JSON object
   * here; the candidate keys are `id` and `String(id ?? '')`, each skipped
   * when falsy. `null` when neither is present.
   */
  function SeriesFor(heartbeatMap: Json, id: Json): Json
    requires heartbeatMap.JObj?
  {
    var first := id;
    var second := JStr(ToStr(Coalesce(id, JStr(""))));
    if Truthy(first) && Lookup(heartbeatMap.fields, ToStr(first)).Some? then
      Lookup(heartbeatMap.fields, ToStr(first)).value
    else if Truthy(second) && Lookup(heartbeatMap.fields, ToStr(second)).Some? then
      Lookup(heartbeatMap.fields, ToStr(second)).value
    else JNull
  }

  /** The first loop of `_populateMonitorHistory` on one monitor. */
  function FromMap(m: Monitor, heartbeatMap: Json): Monitor
    requires heartbeatMap.JObj?
  {
    var series := SeriesFor(heartbeatMap, m.id);
    if Truthy(series) && Pending(m) then m.(history := series) else m
  }

  /** The second loop on one monitor: a cached series, by textual id, for a monitor still without one. */
  function FromCache(m: Monitor, cache: map<string, Json>): Monitor {
    if Nullish(m.id) then m
    else if Pending(m) && ToStr(m.id) in cache then m.(history := cache[ToStr(m.id)])
    else m
  }

  function MapFilled(ms: seq<Monitor>, heartbeatMap: Json): (r: seq<Monitor>)
    ensures |r| == |ms|
  {
    if heartbeatMap.JObj? then seq(|ms|, i requires 0 <= i < |ms| => FromMap(ms[i], heartbeatMap))
    else ms
  }

  function CacheFilled(ms: seq<Monitor>, cache: map<string, Json>): (r: seq<Monitor>)
    ensures |r| == |ms|
  {
    seq(|ms|, i requires 0 <= i < |ms| => FromCache(ms[i], cache))
  }

  predicate Missing(ms: seq<Monitor>) {
    exists i :: 0 <= i < |ms| && Pending(ms[i])
  }

  /**
   * The list after `_populateMonitorHistory`: map, then cache, then — only
   * when some monitor still has no history — the fetcher's back-fill.
   */
  function Populated(ms: seq<Monitor>, heartbeatMap: Json, cache: map<string, Json>,
                     backfill: seq<Monitor> -> seq<Monitor>): seq<Monitor> {
    if |ms| == 0 then ms
    else
      var filled := CacheFilled(MapFilled(ms, heartbeatMap), cache);
      if Missing(filled) then backfill(filled) else filled
  }

  /** Whether `_populateMonitorHistory` calls the fetcher. */
  predicate BackfillCalled(ms: seq<Monitor>, heartbeatMap: Json, cache: map<string, Json>) {
    |ms| > 0 && Missing(CacheFilled(MapFilled(ms, heartbeatMap), cache))
  }

  /** Every cached series is a non-empty array. */
  predicate CacheHoldsSeries(cache: map<string, Json>) {
    forall k :: k in cache ==> cache[k].JArr? && |cache[k].items| > 0
  }

  /**
   * The order of the two local sources: a monitor that has a history keeps
   * it; a series in the heartbeat map wins over the cache; the cache is
   * consulted by textual id; only `history` ever changes.
   */
  lemma FillOrder(ms: seq<Monitor>, heartbeatMap: Json, cache: map<string, Json>, i: nat)
    requires i < |ms|
    ensures var out := CacheFilled(MapFilled(ms, heartbeatMap), cache)[i];
      out == ms[i].(history := out.history)
      && (!Pending(ms[i]) ==> out == ms[i])
      && ((heartbeatMap.JObj? && Pending(ms[i]) && SeriesFor(heartbeatMap, ms[i].id).JArr?
           && |SeriesFor(heartbeatMap, ms[i].id).items| > 0)
          ==> out.history == SeriesFor(heartbeatMap, ms[i].id))
      && (((!heartbeatMap.JObj? || !Truthy(SeriesFor(heartbeatMap, ms[i].id))) && Pending(ms[i])
           && !Nullish(ms[i].id) && ToStr(ms[i].id) in cache)
          ==> out.history == cache[ToStr(ms[i].id)])
  {
  }

  /**
   * With the fetcher's `populateHistory` as the back-fill, filling the list
   * keeps every monitor in its place and changes nothing but `history`.
   */
  lemma PopulatedByFetcher(ms: seq<Monitor>, heartbeatMap: Json, cache: map<string, Json>,
                           open: bool, net: Http.Network, retries: int, host: Host, c: Config, apiKey: string, start: nat)
    ensures var out := Populated(ms, heartbeatMap, cache, xs => HistoryFilled(open, net, retries, host, c, apiKey, xs, start));
      |out| == |ms| && forall i :: 0 <= i < |ms| ==> out[i] == ms[i].(history := out[i].history)
  {
    if |ms| > 0 {
      var filled := CacheFilled(MapFilled(ms, heartbeatMap), cache);
      forall i | 0 <= i < |ms|
        ensures filled[i] == ms[i].(history := filled[i].history)
      {
        FillOrder(ms, heartbeatMap, cache, i);
      }
      HistoryFilledTouchesOnlyHistory(open, net, retries, host, c, apiKey, filled, start);
    }
  }

  /** With a cache of non-empty series, every monitor whose key is cached leaves the fill with a history. */
  lemma CachedMonitorsAreFilled(ms: seq<Monitor>, heartbeatMap: Json, cache: map<string, Json>, i: nat)
    requires i < |ms| && CacheHoldsSeries(cache)
    requires !Nullish(ms[i].id) && ToStr(ms[i].id) in cache
    ensures !Pending(CacheFilled(MapFilled(ms, heartbeatMap), cache)[i])
  {
    var mid := MapFilled(ms, heartbeatMap)[i];
    assert mid.id == ms[i].id;
  }

  // ---------------------------------------------------------------------------
  // Caching histories

  /** `_historyCache` after `_cacheMonitorHistory`: each truthy id with a series stores it, the last one winning. */
  function CachedAfter(cache: map<string, Json>, ms: seq<Monitor>): map<string, Json> {
    if ms == [] then cache
    else
      var c := CachedAfter(cache, ms[..|ms| - 1]);
      var m := ms[|ms| - 1];
      if Truthy(m.id) && !Pending(m) then c[ToStr(m.id) := m.history] else c
  }

  /**
   * Caching adds exactly the keys of truthy-id monitors that have a series,
   * and keeps every cached value a non-empty array.
   */
  lemma {:induction false} CachedAfterMeaning(cache: map<string, Json>, ms: seq<Monitor>)
    ensures forall k :: k in CachedAfter(cache, ms) <==>
      k in cache || exists i :: 0 <= i < |ms| && Truthy(ms[i].id) && !Pending(ms[i]) && ToStr(ms[i].id) == k
    ensures CacheHoldsSeries(cache) ==> CacheHoldsSeries(CachedAfter(cache, ms))
  {
    if ms != [] {
      var init := ms[..|ms| - 1];
      CachedAfterMeaning(cache, init);
      assert forall i :: 0 <= i < |init| ==> init[i] == ms[i];
    }
  }

  // ---------------------------------------------------------------------------
  // _updateMonitorList

  function RelativeLastCheck(m: Monitor, now: int): Option<string> {
    if m.lastCheck.Some? then Some(RelativeText(FormatRelative(now - m.lastCheck.value))) else None
  }

  /** Monitor `index` as listed: a falsy id becomes `<name>-<index>`, and the relative time is set. */
  function Listed(m: Monitor, index: nat, now: int): (r: Monitor)
    ensures Truthy(r.id)
    ensures Truthy(m.id) ==> r.id == m.id
    ensures r == m.(id := r.id, relativeLastCheck := RelativeLastCheck(m, now))
  {
    var id := if Truthy(m.id) then m.id else JStr(ToStr(m.name) + "-" + NatToString(index));
    m.(id := id, relativeLastCheck := RelativeLastCheck(m, now))
  }

  function ListedAll(ms: seq<Monitor>, now: int): (r: seq<Monitor>)
    ensures |r| == |ms|
  {
    seq(|ms|, i requires 0 <= i < |ms| => Listed(ms[i], i, now))
  }

  /** The rows after listing `listed`: one per id, showing the last monitor with that id. */
  function RowsOf(listed: seq<Monitor>): map<Json, Monitor> {
    if listed == [] then map[]
    else RowsOf(listed[..|listed| - 1])[listed[|listed| - 1].id := listed[|listed| - 1]]
  }

  /** The rows are keyed by exactly the ids of this call. */
  lemma {:induction false} RowsOfKeys(listed: seq<Monitor>)
    ensures forall id :: id in RowsOf(listed) <==> exists i :: 0 <= i < |listed| && listed[i].id == id
  {
    if listed != [] {
      var init := listed[..|listed| - 1];
      var last := listed[|listed| - 1];
      RowsOfKeys(init);
      forall id ensures id in RowsOf(listed) <==> exists i :: 0 <= i < |listed| && listed[i].id == id {
        if id in RowsOf(listed) && id != last.id {
          assert id in RowsOf(init);
          var i :| 0 <= i < |init| && init[i].id == id;
          assert listed[i].id == id;
        }
        if exists i :: 0 <= i < |listed| && listed[i].id == id {
          var i :| 0 <= i < |listed| && listed[i].id == id;
          if i < |init| {
            assert init[i].id == id;
          }
        }
      }
    }
  }

  /** Each row shows the last monitor listed with its id. */
  lemma {:induction false} RowsOfLast(listed: seq<Monitor>, i: nat)
    requires i < |listed| && forall j :: i < j < |listed| ==> listed[j].id != listed[i].id
    ensures listed[i].id in RowsOf(listed) && RowsOf(listed)[listed[i].id] == listed[i]
  {
    if i < |listed| - 1 {
      var init := listed[..|listed| - 1];
      RowsOfLast(init, i);
    }
  }

  // ---------------------------------------------------------------------------
  // _checkForStatusChanges

  datatype Notice = Offline(name: Json) | Recovered(name: Json)

  /** `_previousMonitorStates.get(id)`, undefined when absent. */
  function Previous(states: map<Json, Json>, id: Json): Json {
    if id in states then states[id] else JUndef
  }

  /** The notice one monitor raises, given its stored and current status. */
  function Transition(previous: Json, current: Json, name: Json, onRecovery: bool): (r: Option<Notice>)
    ensures previous == JUndef ==> r.None?
    ensures r == Some(Offline(name)) <==>
      previous == JStr("up") && (current == JStr("down") || current == JStr("degraded"))
    ensures r == Some(Recovered(name)) <==>
      onRecovery && (previous == JStr("down") || previous == JStr("degraded")) && current == JStr("up")
    ensures r.None? || r == Some(Offline(name)) || r == Some(Recovered(name))
  {
    if previous == JUndef then None
    else if previous == JStr("up") && (current == JStr("down") || current == JStr("degraded")) then Some(Offline(name))
    else if (previous == JStr("down") || previous == JStr("degraded")) && current == JStr("up") then
      if onRecovery then Some(Recovered(name)) else None
    else None
  }

  function StatesAfter(states: map<Json, Json>, ms: seq<Monitor>): map<Json, Json> {
    if ms == [] then states
    else StatesAfter(states, ms[..|ms| - 1])[ms[|ms| - 1].id := ms[|ms| - 1].status]
  }

  function NoticesAfter(states: map<Json, Json>, ms: seq<Monitor>, onRecovery: bool): seq<Notice> {
    if ms == [] then []
    else
      var init := ms[..|ms| - 1];
      var m := ms[|ms| - 1];
      var t := Transition(Previous(StatesAfter(states, init), m.id), m.status, m.name, onRecovery);
      NoticesAfter(states, init, onRecovery) + (if t.Some? then [t.value] else [])
  }

  /** The stored statuses are keyed by the old keys and the ids of this call, and no others. */
  lemma {:induction false} StatesAfterKeys(states: map<Json, Json>, ms: seq<Monitor>)
    ensures forall id :: id in StatesAfter(states, ms) <==>
      id in states || exists i :: 0 <= i < |ms| && ms[i].id == id
  {
    if ms != [] {
      var init := ms[..|ms| - 1];
      var last := ms[|ms| - 1];
      StatesAfterKeys(states, init);
      forall id ensures id in StatesAfter(states, ms) <==> id in states || exists i :: 0 <= i < |ms| && ms[i].id == id {
        if id in StatesAfter(states, ms) && id != last.id && id !in states {
          var i :| 0 <= i < |init| && init[i].id == id;
          assert ms[i].id == id;
        }
        if exists i :: 0 <= i < |ms| && ms[i].id == id {
          var i :| 0 <= i < |ms| && ms[i].id == id;
          if i < |init| {
            assert init[i].id == id;
          }
        }
      }
    }
  }

  /** The stored status of a monitor becomes its current one; the last monitor with an id decides. */
  lemma {:induction false} StatesAfterLast(states: map<Json, Json>, ms: seq<Monitor>, i: nat)
    requires i < |ms| && forall j :: i < j < |ms| ==> ms[j].id != ms[i].id
    ensures ms[i].id in StatesAfter(states, ms) && StatesAfter(states, ms)[ms[i].id] == ms[i].status
  {
    if i < |ms| - 1 {
      StatesAfterLast(states, ms[..|ms| - 1], i);
    }
  }

  /** A stored status no monitor of this call has an id for is left as it was. */
  lemma {:induction false} StatesAfterKeepsOthers(states: map<Json, Json>, ms: seq<Monitor>, id: Json)
    requires id in states && forall i :: 0 <= i < |ms| ==> ms[i].id != id
    ensures id in StatesAfter(states, ms) && StatesAfter(states, ms)[id] == states[id]
  {
    if ms != [] {
      StatesAfterKeepsOthers(states, ms[..|ms| - 1], id);
    }
  }

  /**
   * At most one notice per monitor; none at all with recovery notices off
   * but offline ones; and none for monitors seen for the first time.
   */
  lemma {:induction false} NoticesAfterMeaning(states: map<Json, Json>, ms: seq<Monitor>, onRecovery: bool)
    ensures |NoticesAfter(states, ms, onRecovery)| <= |ms|
    ensures !onRecovery ==> forall n :: n in NoticesAfter(states, ms, onRecovery) ==> n.Offline?
    ensures (forall i :: 0 <= i < |ms| ==> ms[i].id !in states)
      && (forall i, j :: 0 <= i < j < |ms| ==> ms[i].id != ms[j].id)
      ==> NoticesAfter(states, ms, onRecovery) == []
  {
    if ms != [] {
      var init := ms[..|ms| - 1];
      NoticesAfterMeaning(states, init, onRecovery);
      if (forall i :: 0 <= i < |ms| ==> ms[i].id !in states)
        && (forall i, j :: 0 <= i < j < |ms| ==> ms[i].id != ms[j].id) {
        StatesAfterKeys(states, init);
        assert forall i :: 0 <= i < |init| ==> init[i] == ms[i];
        assert ms[|ms| - 1].id !in StatesAfter(states, init);
      }
    }
  }

  // ---------------------------------------------------------------------------
  // _composeSummaryHistory

  function HistoryItems(m: Monitor): seq<Json> {
    if m.history.JArr? then m.history.items else []
  }

  /** A sample the summary takes: truthy, with a numeric timestamp. */
  predicate Usable(j: Json) {
    Truthy(j) && Get(j, "timestamp").JNum?
  }

  function UsableSample(j: Json): Sample
    requires Usable(j)
  {
    var status := Get(j, "status");
    Sample(if status.JStr? then status.s else "unknown", Get(j, "timestamp").n)
  }

  function UsableOf(items: seq<Json>): seq<Sample> {
    if items == [] then []
    else
      var last := items[|items| - 1];
      UsableOf(items[..|items| - 1]) + (if Usable(last) then [UsableSample(last)] else [])
  }

  /** Every usable sample of every monitor, monitor by monitor, in order. */
  function UsableAll(ms: seq<Monitor>): seq<Sample> {
    if ms == [] then []
    else UsableAll(ms[..|ms| - 1]) + UsableOf(HistoryItems(ms[|ms| - 1]))
  }

  /** The statuses of the samples stamped `t`, in order. */
  function StatusesAt(s: seq<Sample>, t: int): seq<string> {
    if s == [] then []
    else StatusesAt(s[..|s| - 1], t) + (if s[|s| - 1].timestamp == t then [s[|s| - 1].status] else [])
  }

  /** `bucketMap` after the samples `s`. */
  function Buckets(s: seq<Sample>): map<int, seq<string>> {
    if s == [] then map[]
    else
      var b := Buckets(s[..|s| - 1]);
      var x := s[|s| - 1];
      b[x.timestamp := (if x.timestamp in b then b[x.timestamp] else []) + [x.status]]
  }

  /** The keys of `bucketMap` in insertion order, as `Array.from(bucketMap.keys())` lists them. */
  function KeyOrder(s: seq<Sample>): seq<int> {
    if s == [] then []
    else
      var k := KeyOrder(s[..|s| - 1]);
      if s[|s| - 1].timestamp in k then k else k + [s[|s| - 1].timestamp]
  }

  lemma BucketsSnoc(s: seq<Sample>, x: Sample)
    ensures Buckets(s + [x]) == Buckets(s)[x.timestamp :=
      (if x.timestamp in Buckets(s) then Buckets(s)[x.timestamp] else []) + [x.status]]
    ensures KeyOrder(s + [x]) == if x.timestamp in KeyOrder(s) then KeyOrder(s) else KeyOrder(s) + [x.timestamp]
  {
    assert (s + [x])[..|s|] == s;
  }

  predicate Distinct(s: seq<int>) {
    forall i, j :: 0 <= i < j < |s| ==> s[i] != s[j]
  }

  /** The key order lists each timestamp present once, and the buckets are keyed by it. */
  lemma {:induction false} BucketsKeys(s: seq<Sample>)
    ensures forall t :: t in Buckets(s) <==> t in KeyOrder(s)
    ensures forall t :: t in KeyOrder(s) <==> exists i :: 0 <= i < |s| && s[i].timestamp == t
    ensures Distinct(KeyOrder(s))
  {
    if s != [] {
      var init := s[..|s| - 1];
      var x := s[|s| - 1];
      BucketsKeys(init);
      forall t ensures t in KeyOrder(s) <==> exists i :: 0 <= i < |s| && s[i].timestamp == t {
        if t in KeyOrder(s) && t != x.timestamp {
          var i :| 0 <= i < |init| && init[i].timestamp == t;
          assert s[i].timestamp == t;
        }
        if exists i :: 0 <= i < |s| && s[i].timestamp == t {
          var i :| 0 <= i < |s| && s[i].timestamp == t;
          if i < |init| {
            assert init[i].timestamp == t;
          }
        }
      }
    }
  }

  /** Each bucket holds the statuses of the samples stamped with its key, in order, and is never empty. */
  lemma {:induction false} BucketsValues(s: seq<Sample>, t: int)
    requires t in Buckets(s)
    ensures Buckets(s)[t] == StatusesAt(s, t) && |Buckets(s)[t]| > 0
  {
    var init := s[..|s| - 1];
    var x := s[|s| - 1];
    if t in Buckets(init) {
      BucketsValues(init, t);
    } else if t == x.timestamp {
      BucketsKeys(init);
      forall i | 0 <= i < |init|
        ensures init[i].timestamp != t
      {
        assert init[i].timestamp in KeyOrder(init);
      }
      StatusesAtAbsent(init, t);
    }
  }

  lemma {:induction false} StatusesAtAbsent(s: seq<Sample>, t: int)
    requires forall i :: 0 <= i < |s| ==> s[i].timestamp != t
    ensures StatusesAt(s, t) == []
  {
    if s != [] {
      StatusesAtAbsent(s[..|s| - 1], t);
    }
  }

  /** `worst` of one bucket: starts at `up` and moves to any strictly worse ranked status. */
  function WorstOf(entries: seq<string>): string {
    if entries == [] then "up"
    else
      var w := WorstOf(entries[..|entries| - 1]);
      var status := entries[|entries| - 1];
      var candidate := PriorityIndex(JStr(status));
      var current := PriorityIndex(JStr(w));
      if candidate != -1 && (current == -1 || candidate < current) then status else w
  }

  /**
   * The worst status is ranked, ranks no lower than any ranked status of the
   * bucket, and is `up` or one of them.
   */
  lemma {:induction false} WorstOfMinimal(entries: seq<string>)
    ensures PriorityIndex(JStr(WorstOf(entries))) != -1
    ensures forall k :: 0 <= k < |entries| && PriorityIndex(JStr(entries[k])) != -1 ==>
      PriorityIndex(JStr(WorstOf(entries))) <= PriorityIndex(JStr(entries[k]))
    ensures WorstOf(entries) == "up" || WorstOf(entries) in entries
  {
    if entries != [] {
      var init := entries[..|entries| - 1];
      WorstOfMinimal(init);
      assert forall k :: 0 <= k < |init| ==> init[k] == entries[k];
    }
  }

  /** `maintenance` is shown as `degraded`. */
  function Collapse(worst: string): (r: string)
    ensures r != "maintenance"
  {
    if worst == "maintenance" then "degraded" else worst
  }

  function InsertInt(x: int, s: seq<int>): (r: seq<int>)
    ensures |r| == |s| + 1
    ensures multiset(r) == multiset(s) + multiset{x}
  {
    if s == [] then [x]
    else if s[|s| - 1] <= x then s + [x]
    else
      assert s == s[..|s| - 1] + [s[|s| - 1]];
      InsertInt(x, s[..|s| - 1]) + [s[|s| - 1]]
  }

  /** `sort((a, b) => a - b)`: ascending. */
  function SortInts(s: seq<int>): (r: seq<int>)
    ensures |r| == |s|
    ensures multiset(r) == multiset(s)
  {
    if s == [] then []
    else
      assert s == s[..|s| - 1] + [s[|s| - 1]];
      InsertInt(s[|s| - 1], SortInts(s[..|s| - 1]))
  }

  predicate Increasing(s: seq<int>) {
    forall i, j :: 0 <= i < j < |s| ==> s[i] < s[j]
  }

  lemma {:induction false} InsertIntIncreasing(x: int, s: seq<int>)
    requires Increasing(s) && x !in s
    ensures Increasing(InsertInt(x, s))
    decreases |s|
  {
    if s != [] && s[|s| - 1] > x {
      var init := s[..|s| - 1];
      assert forall k :: 0 <= k < |init| ==> init[k] == s[k];
      InsertIntIncreasing(x, init);
      var r := InsertInt(x, init);
      forall k | 0 <= k < |r|
        ensures r[k] < s[|s| - 1]
      {
        assert r[k] in multiset(init) + multiset{x};
        if r[k] != x {
          assert r[k] in init;
        }
      }
    }
  }

  /** Sorting distinct timestamps gives them strictly ascending. */
  lemma {:induction false} SortIntsIncreasing(s: seq<int>)
    requires Distinct(s)
    ensures Increasing(SortInts(s))
  {
    if s != [] {
      var init := s[..|s| - 1];
      assert forall k :: 0 <= k < |init| ==> init[k] == s[k];
      SortIntsIncreasing(init);
      assert s[|s| - 1] !in multiset(SortInts(init));
      InsertIntIncreasing(s[|s| - 1], SortInts(init));
    }
  }

  /** `bucketMap.get(t) ?? []`. */
  function BucketAt(buckets: map<int, seq<string>>, t: int): seq<string> {
    if t in buckets then buckets[t] else []
  }

  /** The point of one timestamp; an empty bucket (which never occurs) reads `unknown`. */
  function PointFor(buckets: map<int, seq<string>>, t: int): Sample {
    var entries := BucketAt(buckets, t);
    if |entries| == 0 then Sample("unknown", t) else Sample(Collapse(WorstOf(entries)), t)
  }

  /** `_composeSummaryHistory`: one point per distinct timestamp, ascending. */
  function Compose(ms: seq<Monitor>): (r: seq<Sample>) {
    var s := UsableAll(ms);
    var b := Buckets(s);
    var ts := SortInts(KeyOrder(s));
    seq(|ts|, i requires 0 <= i < |ts| => PointFor(b, ts[i]))
  }

  /** The merged series is strictly ascending in time. */
  lemma ComposeAscending(ms: seq<Monitor>)
    ensures var r := Compose(ms);
      forall i, j :: 0 <= i < j < |r| ==> r[i].timestamp < r[j].timestamp
  {
    var s := UsableAll(ms);
    BucketsKeys(s);
    SortIntsIncreasing(KeyOrder(s));
  }

  /** The points are the sorted keys, one each. */
  lemma ComposeStamps(ms: seq<Monitor>)
    ensures var ts := SortInts(KeyOrder(UsableAll(ms)));
      |Compose(ms)| == |ts| && forall i :: 0 <= i < |ts| ==> Compose(ms)[i].timestamp == ts[i]
  {
  }

  /** Every point of the merged series is stamped like some usable sample. */
  lemma ComposeOnlySampleStamps(ms: seq<Monitor>, i: nat)
    requires i < |Compose(ms)|
    ensures exists k :: 0 <= k < |UsableAll(ms)| && UsableAll(ms)[k].timestamp == Compose(ms)[i].timestamp
  {
    var s := UsableAll(ms);
    var ts := SortInts(KeyOrder(s));
    ComposeStamps(ms);
    BucketsKeys(s);
    assert ts[i] in multiset(KeyOrder(s));
  }

  /** Every usable sample's timestamp has a point in the merged series. */
  lemma ComposeCoversSample(ms: seq<Monitor>, k: nat)
    requires k < |UsableAll(ms)|
    ensures exists i :: 0 <= i < |Compose(ms)| && Compose(ms)[i].timestamp == UsableAll(ms)[k].timestamp
  {
    var s := UsableAll(ms);
    var ts := SortInts(KeyOrder(s));
    ComposeStamps(ms);
    BucketsKeys(s);
    assert s[k].timestamp in KeyOrder(s);
    assert s[k].timestamp in multiset(KeyOrder(s));
    assert s[k].timestamp in multiset(ts);
    var i :| 0 <= i < |ts| && ts[i] == s[k].timestamp;
    assert Compose(ms)[i].timestamp == ts[i];
  }

  /** Each point carries the worst status of the samples stamped so, never `maintenance`. */
  lemma ComposeWorst(ms: seq<Monitor>, i: nat)
    requires i < |Compose(ms)|
    ensures var p := Compose(ms)[i];
      p.status == Collapse(WorstOf(StatusesAt(UsableAll(ms), p.timestamp))) && p.status != "maintenance"
  {
    var s := UsableAll(ms);
    var ts := SortInts(KeyOrder(s));
    BucketsKeys(s);
    assert ts[i] in multiset(KeyOrder(s));
    BucketsValues(s, ts[i]);
  }

  /** The series handed to the summary sparkline. */
  function SeriesJson(points: seq<Sample>): Json {
    JArr(seq(|points|, i requires 0 <= i < |points| => PointJson(points[i])))
  }

  /** One point of the series: `{ timestamp, status }`. */
  function PointJson(p: Sample): Json {
    JObj([("timestamp", JNum(p.timestamp)), ("status", JStr(p.status))])
  }

  lemma ReadPoint(p: Sample)
    ensures !Nullish(PointJson(p)) && Truthy(PointJson(p)) && ReadSample(PointJson(p)) == p
  {
    var fields := [("timestamp", JNum(p.timestamp)), ("status", JStr(p.status))];
    assert Lookup(fields, "timestamp") == Some(JNum(p.timestamp));
    assert Lookup(fields, "status") == Some(JStr(p.status)) by {
      assert fields[1..] == [("status", JStr(p.status))];
    }
  }

  /** Reading the series back gives the points it was built from. */
  lemma {:induction false} ReadSeries(points: seq<Sample>)
    ensures ReadSamples(SeriesJson(points).items) == points
  {
    if points != [] {
      var init := points[..|points| - 1];
      ReadSeries(init);
      var items := SeriesJson(points).items;
      var last := points[|points| - 1];
      assert items[..|points| - 1] == SeriesJson(init).items;
      assert items[|points| - 1] == PointJson(last);
      ReadPoint(last);
      assert points == init + [last];
    }
  }

  /** The summary sparkline keeps the merged series as it is: sanitising it neither drops nor reorders a point. */
  lemma SummarySeriesKept(ms: seq<Monitor>)
    ensures Sanitize(SeriesJson(Compose(ms))) == Compose(ms)
  {
    ReadSeries(Compose(ms));
    ComposeAscending(ms);
    SortByTimeOfSorted(Compose(ms));
  }

  /** The input of `setSamples` in `_updateSummarySparkline`. */
  function SparklineInput(showSparkline: bool, ms: seq<Monitor>): Json {
    if showSparkline then SeriesJson(Compose(ms)) else JArr([])
  }

  // ---------------------------------------------------------------------------
  // Settings

  /** The raw values `_loadSettings` reads from the settings schema. */
  datatype Settings = Settings(
    baseUrl: string, apiMode: string, statusPageSlug: string, statusPageEndpoint: string,
    statusPageJsonUrl: string, apiEndpoint: string, metricsEndpoint: string,
    refreshSeconds: int, showLatency: bool, appearance: string, logLevel: string,
    demoMode: bool, selectedServices: seq<string>, showText: bool, showSparkline: bool,
    enableNotifications: bool, notifyOnRecovery: bool)

  /** `_config`: the fetcher's part, then the indicator's own settings. */
  datatype IndicatorConfig = IndicatorConfig(
    fetch: Config, refreshSeconds: int, showLatency: bool, appearance: string, logLevel: string,
    demoMode: bool, selectedServices: seq<string>, showText: bool, showSparkline: bool,
    enableNotifications: bool, notifyOnRecovery: bool)

  /** The shortest refresh interval, in seconds. */
  const MinRefreshSeconds := 10

  function LoadConfig(s: Settings): IndicatorConfig
  {
    IndicatorConfig(
      Config(OrDefault(s.apiMode, "status-page"), Trim(s.baseUrl), Trim(s.statusPageJsonUrl), Trim(s.statusPageSlug),
             Trim(s.statusPageEndpoint), Trim(s.apiEndpoint), Trim(s.metricsEndpoint), "", None),
      if s.refreshSeconds < MinRefreshSeconds then MinRefreshSeconds else s.refreshSeconds,
      s.showLatency, OrDefault(s.appearance, "normal"), OrDefault(s.logLevel, "info"), s.demoMode,
      s.selectedServices, s.showText, s.showSparkline, s.enableNotifications, s.notifyOnRecovery)
  }

  /**
   * `_loadSettings`: text settings are trimmed (the mode is not), empty ones
   * take their defaults, and the interval is at least ten seconds. The
   * heartbeat endpoint and limit are not part of this configuration.
   */
  lemma LoadConfigMeaning(s: Settings)
    ensures var c := LoadConfig(s);
      c.fetch.baseUrl == Trim(s.baseUrl) && c.fetch.statusPageSlug == Trim(s.statusPageSlug)
      && c.fetch.statusPageEndpoint == Trim(s.statusPageEndpoint) && c.fetch.statusPageJsonUrl == Trim(s.statusPageJsonUrl)
      && c.fetch.apiEndpoint == Trim(s.apiEndpoint) && c.fetch.metricsEndpoint == Trim(s.metricsEndpoint)
      && c.fetch.apiMode != "" && (s.apiMode != "" ==> c.fetch.apiMode == s.apiMode)
      && c.fetch.heartbeatEndpoint == "" && c.fetch.heartbeatLimit.None?
      && c.refreshSeconds >= MinRefreshSeconds && c.refreshSeconds >= s.refreshSeconds
      && (c.refreshSeconds == MinRefreshSeconds || c.refreshSeconds == s.refreshSeconds)
      && c.appearance != "" && (s.appearance != "" ==> c.appearance == s.appearance)
      && c.logLevel != "" && (s.logLevel != "" ==> c.logLevel == s.logLevel)
      && c.selectedServices == s.selectedServices && c.showSparkline == s.showSparkline
      && c.enableNotifications == s.enableNotifications && c.notifyOnRecovery == s.notifyOnRecovery
  {
  }

  /** The empty settings give the documented defaults. */
  lemma LoadConfigDefaults(s: Settings)
    requires s.apiMode == "" && s.appearance == "" && s.logLevel == "" && s.refreshSeconds <= 0
    ensures LoadConfig(s).fetch.apiMode == "status-page" && LoadConfig(s).appearance == "normal"
    ensures LoadConfig(s).logLevel == "info" && LoadConfig(s).refreshSeconds == 10
  {
  }

  /**
   * The sparkline mode `_applySparklineSizing` chooses (extension.js:451);
   * a decision of the indicator of its own, distinct from the preferences' mode.
   */
  function SparklineMode(appearance: string): (r: string)
    ensures r == "compact" <==> appearance == "compact"
    ensures r == "compact" || r == "normal"
  {
    if appearance == "compact" then "compact" else "normal"
  }

  /**
   * The mock list is used exactly when no base URL is configured: the demo
   * switch takes part in the condition but can never change its outcome.
   */
  predicate UsesMock(c: IndicatorConfig) {
    c.fetch.baseUrl == "" || (c.demoMode && c.fetch.baseUrl == "")
  }

  lemma UsesMockMeaning(c: IndicatorConfig)
    ensures UsesMock(c) <==> c.fetch.baseUrl == ""
    ensures UsesMock(c.(demoMode := true)) == UsesMock(c.(demoMode := false))
  {
  }

  /** `_lookupApiKey`: the stored token, or `null` when it is empty. */
  function LookupApiKey(token: string): (r: Option<string>)
    ensures r.Some? <==> token != ""
    ensures r.Some? ==> r.value == token
  {
    if |token| > 0 then Some(token) else None
  }

  // ---------------------------------------------------------------------------
  // The panel dot and label

  /** `STATUS_CLASS_MAP[status] ?? 'unknown'`. */
  function DotClass(status: string): (r: string)
    ensures r == "ok" <==> status == "up"
    ensures r == "warn" <==> status == "degraded" || status == "maintenance"
    ensures r == "fail" <==> status == "down"
    ensures r == "unknown" <==> status != "up" && status != "degraded" && status != "maintenance" && status != "down"
  {
    if status == "up" then "ok"
    else if status == "degraded" || status == "maintenance" then "warn"
    else if status == "down" then "fail"
    else "unknown"
  }

  /** Every summary status has its own dot class, and the four are distinct. */
  lemma DotClassOfSummary(s: Summary)
    requires s.status in {"up", "down", "degraded", "unknown"}
    ensures DotClass(s.status) == (if s.status == "up" then "ok" else if s.status == "down" then "fail"
                                   else if s.status == "degraded" then "warn" else "unknown")
  {
  }

  /** The untranslated `'%d up / %d down'`. */
  function SummaryLabel(s: Summary): string {
    NatToString(s.up) + " up / " + NatToString(s.down) + " down"
  }

  const InitialLabel := "—/—"
  const ErrorLabel := "Error"

  // ---------------------------------------------------------------------------
  // _log

  const LogLevels: seq<string> := ["error", "info", "debug"]
  const LogPrefix := "[kuma-indicator]"

  /** `LOG_LEVELS.indexOf(level)`. */
  function LevelIndex(level: string): (r: int)
    ensures -1 <= r < |LogLevels|
    ensures r >= 0 ==> LogLevels[r] == level
    ensures r == -1 <==> level !in LogLevels
  {
    if level == "error" then 0 else if level == "info" then 1 else if level == "debug" then 2 else -1
  }

  /** `_updateLogLevel`: the index of the configured level, `info` when it is not one. */
  function LevelIndexFor(level: string): (r: nat)
    ensures r < |LogLevels|
    ensures level in LogLevels ==> LogLevels[r] == level
    ensures level !in LogLevels ==> r == 1
  {
    var i := LevelIndex(level);
    if i >= 0 then i else 1
  }

  datatype Stream = ErrorStream | DebugStream | LogStream

  datatype LogLine = LogLine(stream: Stream, text: string)

  /** One written line: errors and debug lines carry the prefix only, the rest also their level. */
  function FormatLog(level: string, message: string): LogLine {
    var effective := if LevelIndex(level) == -1 then "debug" else level;
    if effective == "error" then LogLine(ErrorStream, LogPrefix + " " + message)
    else if effective == "debug" then LogLine(DebugStream, LogPrefix + " " + message)
    else LogLine(LogStream, LogPrefix + " [" + effective + "] " + message)
  }

  /** The lines `_log` writes at a threshold: none when the level is above it. */
  function Logged(level: string, message: string, threshold: nat): seq<LogLine> {
    if LevelIndex(level) > threshold then [] else [FormatLog(level, message)]
  }

  /**
   * Errors always go to the error stream; an unknown level is never filtered
   * and is written as debug; `debug` needs the debug threshold and `info` at
   * least the info one.
   */
  lemma LoggedMeaning(level: string, message: string, threshold: nat)
    requires threshold < |LogLevels|
    ensures level == "error" ==> Logged(level, message, threshold) == [LogLine(ErrorStream, LogPrefix + " " + message)]
    ensures level !in LogLevels ==> Logged(level, message, threshold) == [LogLine(DebugStream, LogPrefix + " " + message)]
    ensures level == "debug" ==> (Logged(level, message, threshold) != [] <==> threshold == 2)
    ensures level == "debug" && threshold == 2 ==>
      Logged(level, message, threshold) == [LogLine(DebugStream, LogPrefix + " " + message)]
    ensures level == "info" ==> (Logged(level, message, threshold) != [] <==> threshold >= 1)
    ensures level == "info" && threshold >= 1 ==>
      Logged(level, message, threshold) == [LogLine(LogStream, LogPrefix + " [info] " + message)]
  {
    assert LogPrefix + " [" + "info" + "] " + message == LogPrefix + " [info] " + message;
  }

  const SkipMessage := "Refresh skipped because a refresh is already running"

  function FailureMessage(e: JsError): string {
    "Refresh failed: " + ErrorMessage(e)
  }

  const MockMessage := "Using mock monitors (demo mode or missing baseUrl)"

  /** The debug line after the selection filter, with the number of monitors kept. */
  function FilterMessage(n: nat): string {
    "Filtered to " + NatToString(n) + " selected services"
  }

  /** The info line `_checkForStatusChanges` writes next to a notice. */
  function ChangeMessage(n: Notice, m: Monitor, previous: Json): string {
    "Monitor " + ToStr(m.name) + " (" + ToStr(m.id) + ") "
    + (if n.Offline? then "went offline: " else "recovered: ")
    + ToStr(previous) + " \U{2192} " + ToStr(m.status)
  }

  /** The lines `_checkForStatusChanges` writes for `ms`: one info line per notice it raises. */
  function TransitionLog(states: map<Json, Json>, ms: seq<Monitor>, onRecovery: bool, threshold: nat): seq<LogLine> {
    if ms == [] then []
    else
      var init := ms[..|ms| - 1];
      var m := ms[|ms| - 1];
      var previous := Previous(StatesAfter(states, init), m.id);
      var t := Transition(previous, m.status, m.name, onRecovery);
      TransitionLog(states, init, onRecovery, threshold)
        + (if t.Some? then Logged("info", ChangeMessage(t.value, m, previous), threshold) else [])
  }

  /**
   * Below the info threshold nothing is written; from it on, exactly one
   * info line per notice sent, in the order of the notices.
   */
  lemma {:induction false} TransitionLogMeaning(states: map<Json, Json>, ms: seq<Monitor>, onRecovery: bool, threshold: nat)
    requires threshold < |LogLevels|
    ensures threshold == 0 ==> TransitionLog(states, ms, onRecovery, threshold) == []
    ensures threshold >= 1 ==> |TransitionLog(states, ms, onRecovery, threshold)| == |NoticesAfter(states, ms, onRecovery)|
    ensures forall k :: 0 <= k < |TransitionLog(states, ms, onRecovery, threshold)| ==>
      TransitionLog(states, ms, onRecovery, threshold)[k].stream == LogStream
  {
    if ms != [] {
      var init := ms[..|ms| - 1];
      var m := ms[|ms| - 1];
      var previous := Previous(StatesAfter(states, init), m.id);
      var t := Transition(previous, m.status, m.name, onRecovery);
      TransitionLogMeaning(states, init, onRecovery, threshold);
      if t.Some? {
        LoggedMeaning("info", ChangeMessage(t.value, m, previous), threshold);
      }
    }
  }

  lemma TransitionLogSnoc(states: map<Json, Json>, ms: seq<Monitor>, i: nat, onRecovery: bool, threshold: nat)
    requires i < |ms|
    ensures TransitionLog(states, ms[..i + 1], onRecovery, threshold) == TransitionLog(states, ms[..i], onRecovery, threshold)
      + (var previous := Previous(StatesAfter(states, ms[..i]), ms[i].id);
         var t := Transition(previous, ms[i].status, ms[i].name, onRecovery);
         if t.Some? then Logged("info", ChangeMessage(t.value, ms[i], previous), threshold) else [])
  {
    assert ms[..i + 1][..i] == ms[..i];
  }

  // ---------------------------------------------------------------------------
  // One refresh

  /** What `_refresh` works on: the monitors and heartbeat map of the payload, or the mock list and no payload. */
  datatype Gathered = Gathered(monitors: Option<seq<Monitor>>, heartbeatMap: Json)

  function Gather(c: IndicatorConfig, fetched: Result<FetchResult, JsError>, mock: seq<Monitor>): Result<Gathered, JsError> {
    if UsesMock(c) then Ok(Gathered(Some(mock), JNull))
    else if fetched.Err? then Err(fetched.error)
    else Ok(Gathered(fetched.value.monitors, fetched.value.heartbeatMap))
  }

  /** The selection step: filtering an undefined list throws. */
  function Select(monitors: Option<seq<Monitor>>, selected: seq<string>): Result<Option<seq<Monitor>>, JsError> {
    if |selected| == 0 then Ok(monitors)
    else if monitors.None? then Err(TypeError)
    else Ok(Some(SelectedOnly(monitors.value, selected)))
  }

  /**
   * The list `_refresh` hands to `_updateMonitorList`, or what it throws:
   * gathered, selected, filled when the sparkline is shown, and rejected
   * when still undefined (`forEach` of `undefined`).
   */
  function Prepared(c: IndicatorConfig, cache: map<string, Json>, fetched: Result<FetchResult, JsError>,
                    mock: seq<Monitor>, backfill: seq<Monitor> -> seq<Monitor>): Result<seq<Monitor>, JsError> {
    var g := Gather(c, fetched, mock);
    if g.Err? then Err(g.error)
    else
      var sel := Select(g.value.monitors, c.selectedServices);
      if sel.Err? || sel.value.None? then Err(TypeError)
      else if c.showSparkline then Ok(Populated(sel.value.value, g.value.heartbeatMap, cache, backfill))
      else Ok(sel.value.value)
  }

  /** The lines `_refresh` writes before the history fill: the mock notice, then the number kept by the filter. */
  function PrepareLog(c: IndicatorConfig, fetched: Result<FetchResult, JsError>, mock: seq<Monitor>, threshold: nat): seq<LogLine> {
    var g := Gather(c, fetched, mock);
    (if UsesMock(c) then Logged("info", MockMessage, threshold) else [])
    + (if g.Ok? && |c.selectedServices| > 0 && g.value.monitors.Some?
       then Logged("debug", FilterMessage(|SelectedOnly(g.value.monitors.value, c.selectedServices)|), threshold)
       else [])
  }

  /**
   * Nothing is written below the info threshold or when a request failed;
   * the mock notice is an info line, and the filter count is written only
   * with selected services configured, as a debug line.
   */
  lemma PrepareLogMeaning(c: IndicatorConfig, fetched: Result<FetchResult, JsError>, mock: seq<Monitor>, threshold: nat)
    requires threshold < |LogLevels|
    ensures threshold == 0 ==> PrepareLog(c, fetched, mock, threshold) == []
    ensures !UsesMock(c) && fetched.Err? ==> PrepareLog(c, fetched, mock, threshold) == []
    ensures UsesMock(c) && threshold >= 1 ==>
      PrepareLog(c, fetched, mock, threshold)[0] == LogLine(LogStream, LogPrefix + " [info] " + MockMessage)
    ensures |c.selectedServices| == 0 ==> |PrepareLog(c, fetched, mock, threshold)| <= 1
    ensures UsesMock(c) && |c.selectedServices| > 0 && threshold == 2 ==>
      PrepareLog(c, fetched, mock, threshold) ==
        [LogLine(LogStream, LogPrefix + " [info] " + MockMessage),
         LogLine(DebugStream, LogPrefix + " " + FilterMessage(|SelectedOnly(mock, c.selectedServices)|))]
  {
    LoggedMeaning("info", MockMessage, threshold);
    LoggedMeaning("debug", FilterMessage(|SelectedOnly(mock, c.selectedServices)|), threshold);
  }

  /** Whether the refresh asks the fetcher to back-fill histories. */
  predicate Backfills(c: IndicatorConfig, cache: map<string, Json>, fetched: Result<FetchResult, JsError>, mock: seq<Monitor>) {
    var g := Gather(c, fetched, mock);
    g.Ok? && c.showSparkline
    && var sel := Select(g.value.monitors, c.selectedServices);
    sel.Ok? && sel.value.Some? && BackfillCalled(sel.value.value, g.value.heartbeatMap, cache)
  }

  /**
   * A refresh fails exactly when a request is made and it fails or yields no
   * list; the mock list never fails; the history fill only runs with the
   * sparkline shown, and without it a selected refresh keeps exactly the
   * selected monitors.
   */
  lemma PreparedMeaning(c: IndicatorConfig, cache: map<string, Json>, fetched: Result<FetchResult, JsError>,
                        mock: seq<Monitor>, backfill: seq<Monitor> -> seq<Monitor>)
    ensures Prepared(c, cache, fetched, mock, backfill).Err? <==>
      c.fetch.baseUrl != "" && (fetched.Err? || fetched.value.monitors.None?)
    ensures c.fetch.baseUrl != "" && fetched.Err? ==> Prepared(c, cache, fetched, mock, backfill) == Err(fetched.error)
    ensures Backfills(c, cache, fetched, mock) ==> c.showSparkline
    ensures var r := Prepared(c, cache, fetched, mock, backfill);
      r.Ok? && !c.showSparkline && |c.selectedServices| > 0 ==>
        forall m :: m in r.value ==> ToStr(m.id) in c.selectedServices
  {
    UsesMockMeaning(c);
    var g := Gather(c, fetched, mock);
    if g.Ok? && g.value.monitors.Some? && |c.selectedServices| > 0 {
      SelectedOnlyMembers(g.value.monitors.value, c.selectedServices);
    }
  }

  // ---------------------------------------------------------------------------
  // Helpers for the loops of the indicator

  lemma UsableOfStep(items: seq<Json>, j: nat)
    requires j < |items|
    ensures UsableOf(items[..j + 1]) == UsableOf(items[..j]) + (if Usable(items[j]) then [UsableSample(items[j])] else [])
  {
    assert items[..j + 1][..j] == items[..j];
  }

  lemma UsableAllStep(ms: seq<Monitor>, i: nat)
    requires i < |ms|
    ensures UsableAll(ms[..i + 1]) == UsableAll(ms[..i]) + UsableOf(HistoryItems(ms[i]))
  {
    assert ms[..i + 1][..i] == ms[..i];
  }

  lemma AppendAssoc<T>(a: seq<T>, b: seq<T>, c: seq<T>)
    ensures a + (b + c) == (a + b) + c
  {
  }

  /** One sample more: its status appended to its bucket, and its timestamp listed if new. */
  lemma BucketsStep(s: seq<Sample>, x: Sample)
    ensures Buckets(s + [x]) == Buckets(s)[x.timestamp := BucketAt(Buckets(s), x.timestamp) + [x.status]]
    ensures KeyOrder(s + [x]) == if x.timestamp in Buckets(s) then KeyOrder(s) else KeyOrder(s) + [x.timestamp]
  {
    BucketsSnoc(s, x);
    BucketsKeys(s);
  }

  /** One history entry more: a usable one extends the buckets and key order, any other changes nothing. */
  lemma AddSampleStep(before: seq<Sample>, history: seq<Json>, j: nat)
    requires j < |history|
    ensures var done := before + UsableOf(history[..j]);
      var next := before + UsableOf(history[..j + 1]);
      (Usable(history[j]) ==>
        var x := UsableSample(history[j]);
        Buckets(next) == Buckets(done)[x.timestamp := BucketAt(Buckets(done), x.timestamp) + [x.status]]
        && KeyOrder(next) == if x.timestamp in Buckets(done) then KeyOrder(done) else KeyOrder(done) + [x.timestamp])
      && (!Usable(history[j]) ==> next == done)
  {
    UsableOfStep(history, j);
    var done := before + UsableOf(history[..j]);
    if Usable(history[j]) {
      var x := UsableSample(history[j]);
      AppendAssoc(before, UsableOf(history[..j]), [x]);
      BucketsStep(done, x);
    }
  }

  /** The inner loop of `_composeSummaryHistory`'s first pass: one monitor's samples added to the buckets. */
  method AddSamples(buckets0: map<int, seq<string>>, order0: seq<int>, history: seq<Json>, ghost before: seq<Sample>)
    returns (buckets: map<int, seq<string>>, order: seq<int>)
    requires buckets0 == Buckets(before) && order0 == KeyOrder(before)
    ensures buckets == Buckets(before + UsableOf(history)) && order == KeyOrder(before + UsableOf(history))
  {
    buckets, order := buckets0, order0;
    assert before + UsableOf(history[..0]) == before by {
      assert history[..0] == [];
    }
    var j := 0;
    while j < |history|
      invariant 0 <= j <= |history|
      invariant buckets == Buckets(before + UsableOf(history[..j]))
      invariant order == KeyOrder(before + UsableOf(history[..j]))
    {
      var sample := history[j];
      AddSampleStep(before, history, j);
      if Usable(sample) {
        var status := Get(sample, "status");
        var entry := Sample(if status.JStr? then status.s else "unknown", Get(sample, "timestamp").n);
        assert entry == UsableSample(sample);
        var list := if entry.timestamp in buckets then buckets[entry.timestamp] else [];
        if entry.timestamp !in buckets {
          order := order + [entry.timestamp];
        }
        buckets := buckets[entry.timestamp := list + [entry.status]];
      }
      j := j + 1;
    }
    assert history[..|history|] == history;
  }

  /** The buckets and key order of the usable samples, built as the first pass of `_composeSummaryHistory` does. */
  method CollectBuckets(ms: seq<Monitor>) returns (buckets: map<int, seq<string>>, order: seq<int>)
    ensures buckets == Buckets(UsableAll(ms)) && order == KeyOrder(UsableAll(ms))
  {
    buckets, order := map[], [];
    var i := 0;
    while i < |ms|
      invariant 0 <= i <= |ms|
      invariant buckets == Buckets(UsableAll(ms[..i])) && order == KeyOrder(UsableAll(ms[..i]))
    {
      buckets, order := AddSamples(buckets, order, HistoryItems(ms[i]), UsableAll(ms[..i]));
      UsableAllStep(ms, i);
      i := i + 1;
    }
    assert ms[..|ms|] == ms;
  }

  /** The loop over one bucket in `_composeSummaryHistory`. */
  method WorstStatus(entries: seq<string>) returns (worst: string)
    ensures worst == WorstOf(entries)
  {
    worst := "up";
    var e := 0;
    while e < |entries|
      invariant 0 <= e <= |entries| && worst == WorstOf(entries[..e])
    {
      assert entries[..e + 1][..e] == entries[..e];
      var candidateIndex := PriorityIndex(JStr(entries[e]));
      var currentIndex := PriorityIndex(JStr(worst));
      if candidateIndex != -1 && (currentIndex == -1 || candidateIndex < currentIndex) {
        worst := entries[e];
      }
      e := e + 1;
    }
    assert entries[..|entries|] == entries;
  }

  /** The second pass of `_composeSummaryHistory`: one point per sorted timestamp. */
  method PointsOf(buckets: map<int, seq<string>>, timestamps: seq<int>) returns (r: seq<Sample>)
    ensures |r| == |timestamps|
    ensures forall m :: 0 <= m < |timestamps| ==> r[m] == PointFor(buckets, timestamps[m])
  {
    r := [];
    var k := 0;
    while k < |timestamps|
      invariant 0 <= k <= |timestamps| && |r| == k
      invariant forall m :: 0 <= m < k ==> r[m] == PointFor(buckets, timestamps[m])
    {
      var entries := if timestamps[k] in buckets then buckets[timestamps[k]] else [];
      var point: Sample;
      if |entries| == 0 {
        point := Sample("unknown", timestamps[k]);
      } else {
        var worst := WorstStatus(entries);
        if worst == "maintenance" {
          worst := "degraded";
        }
        point := Sample(worst, timestamps[k]);
      }
      r := r + [point];
      k := k + 1;
    }
  }

  /** `_composeSummaryHistory`. */
  method ComposeSummaryHistory(ms: seq<Monitor>) returns (r: seq<Sample>)
    ensures r == Compose(ms)
  {
    if |ms| == 0 {
      return [];
    }
    var buckets, order := CollectBuckets(ms);
    if |buckets| == 0 {
      NoBucketsNoOrder(UsableAll(ms));
      assert |SortInts(order)| == 0;
      return [];
    }
    var timestamps := SortInts(order);
    r := PointsOf(buckets, timestamps);
  }

  /** With no bucket there is no timestamp to order. */
  lemma NoBucketsNoOrder(s: seq<Sample>)
    ensures |Buckets(s)| == 0 ==> KeyOrder(s) == []
  {
    if KeyOrder(s) != [] {
      var t := KeyOrder(s)[0];
      assert t in KeyOrder(s);
      BucketsKeys(s);
      assert t in Buckets(s).Keys;
    }
  }

  lemma RowsOfSnoc(listed: seq<Monitor>, m: Monitor)
    ensures RowsOf(listed + [m]) == RowsOf(listed)[m.id := m]
  {
    assert (listed + [m])[..|listed|] == listed;
  }

  lemma StatesAfterSnoc(states: map<Json, Json>, ms: seq<Monitor>, i: nat, onRecovery: bool)
    requires i < |ms|
    ensures StatesAfter(states, ms[..i + 1]) == StatesAfter(states, ms[..i])[ms[i].id := ms[i].status]
    ensures NoticesAfter(states, ms[..i + 1], onRecovery) == NoticesAfter(states, ms[..i], onRecovery)
      + (var t := Transition(Previous(StatesAfter(states, ms[..i]), ms[i].id), ms[i].status, ms[i].name, onRecovery);
         if t.Some? then [t.value] else [])
  {
    assert ms[..i + 1][..i] == ms[..i];
  }

  /**
   * The loop of `_checkForStatusChanges` on values: the stored statuses, the
   * notices sent and the info lines written (`_log` at `threshold`), one
   * monitor at a time.
   */
  method StatusChanges(states0: map<Json, Json>, ms: seq<Monitor>, onRecovery: bool, threshold: nat)
    returns (states: map<Json, Json>, sent: seq<Notice>, lines: seq<LogLine>)
    ensures states == StatesAfter(states0, ms)
    ensures sent == NoticesAfter(states0, ms, onRecovery)
    ensures lines == TransitionLog(states0, ms, onRecovery, threshold)
  {
    states, sent, lines := states0, [], [];
    var i := 0;
    while i < |ms|
      invariant 0 <= i <= |ms|
      invariant states == StatesAfter(states0, ms[..i])
      invariant sent == NoticesAfter(states0, ms[..i], onRecovery)
      invariant lines == TransitionLog(states0, ms[..i], onRecovery, threshold)
    {
      StatesAfterSnoc(states0, ms, i, onRecovery);
      TransitionLogSnoc(states0, ms, i, onRecovery, threshold);
      var m := ms[i];
      var previous := if m.id in states then states[m.id] else JUndef;
      if previous != JUndef {
        if previous == JStr("up") && (m.status == JStr("down") || m.status == JStr("degraded")) {
          sent := sent + [Offline(m.name)];
          lines := lines + Logged("info", ChangeMessage(Offline(m.name), m, previous), threshold);
        } else if (previous == JStr("down") || previous == JStr("degraded")) && m.status == JStr("up") {
          if onRecovery {
            sent := sent + [Recovered(m.name)];
            lines := lines + Logged("info", ChangeMessage(Recovered(m.name), m, previous), threshold);
          }
        }
      }
      states := states[m.id := m.status];
      i := i + 1;
    }
    assert ms[..|ms|] == ms;
  }

  lemma CachedAfterSnoc(cache: map<string, Json>, ms: seq<Monitor>, i: nat)
    requires i < |ms|
    ensures CachedAfter(cache, ms[..i + 1]) ==
      (var c := CachedAfter(cache, ms[..i]);
       if Truthy(ms[i].id) && !Pending(ms[i]) then c[ToStr(ms[i].id) := ms[i].history] else c)
  {
    assert ms[..i + 1][..i] == ms[..i];
  }

  // ---------------------------------------------------------------------------
  // The indicator

  /**
   * The panel button's state. The asynchronous `_refresh` is split at its
   * `await`: `BeginRefresh` takes the guard, the fetch happens outside,
   * `PrepareMonitors` is handed its outcome, and `RefreshFailed` or
   * `RefreshSucceeded` ends the refresh with what that prepared.
   */
  class KumaIndicator {
    var config: IndicatorConfig
    var isRefreshing: bool
    var rows: map<Json, Monitor>
    var logLevelIndex: nat
    var fetcher: MonitorFetcher?
    var previousStates: map<Json, Json>
    var historyCache: map<string, Json>
    var summary: Summary
    var panelLabel: string
    var dotClass: string
    const summarySparkline: SparklineModel
    /** The notifications sent, oldest first. */
    var notices: seq<Notice>
    /** The lines written to the log, oldest first. */
    var console: seq<LogLine>
    /** How many times the fetcher was asked to back-fill histories. */
    var historyFetches: nat

    ghost predicate Valid()
      reads this`fetcher, this`historyCache, this`logLevelIndex, summarySparkline, fetcher
    {
      summarySparkline.Valid() && (fetcher != null ==> fetcher.Valid())
      && CacheHoldsSeries(historyCache) && logLevelIndex < |LogLevels|
    }

    /** No refresh running, nothing listed, stored or sent, and an empty summary. */
    ghost predicate Idle()
      reads this`isRefreshing, this`rows, this`previousStates, this`historyCache, this`summary, this`panelLabel,
        this`dotClass, this`notices, this`console, this`historyFetches
    {
      !isRefreshing && rows == map[] && previousStates == map[] && historyCache == map[]
      && summary == EmptySummary && panelLabel == InitialLabel && dotClass == "unknown"
      && notices == [] && console == [] && historyFetches == 0
    }

    /** The constructor: empty state, a fresh 96-pixel sparkline, then `_loadSettings`. */
    constructor(s: Settings)
      ensures Valid() && Idle()
      ensures config == LoadConfig(s) && logLevelIndex == LevelIndexFor(config.logLevel)
      ensures fresh(summarySparkline) && fetcher != null && fresh(fetcher)
      ensures fetcher.activeTimeouts == {} && fetcher.sessionOpen
      ensures summarySparkline.defaultWidth == DefaultWidth && summarySparkline.targetBars == TargetBars
      ensures summarySparkline.width == (if config.appearance == "compact" then CompactWidth else DefaultWidth)
      ensures summarySparkline.samples == (if config.showSparkline then [] else Padding(TargetBars))
    {
      isRefreshing := false;
      rows := map[];
      logLevelIndex := 1;
      fetcher := new MonitorFetcher(DefaultTimeoutSeconds, DefaultRetries, RetryBackoff);
      previousStates := map[];
      historyCache := map[];
      summary := EmptySummary;
      panelLabel := InitialLabel;
      dotClass := "unknown";
      summarySparkline := new SparklineModel(DefaultWidth, CompactWidth, MaxSamples, TargetBars);
      notices := [];
      console := [];
      historyFetches := 0;
      new;
      LoadSettings(s);
    }

    /**
     * `_loadSettings`: the configuration read from the settings, applied by
     * `ApplyConfig`.
     */
    method LoadSettings(s: Settings)
      requires Valid()
      modifies this`config, this`logLevelIndex, summarySparkline
      ensures Valid() && (old(Idle()) ==> Idle())
      ensures config == LoadConfig(s) && logLevelIndex == LevelIndexFor(config.logLevel)
      ensures summarySparkline.width ==
        (if config.appearance == "compact" then summarySparkline.compactWidth else summarySparkline.defaultWidth)
      ensures !config.showSparkline ==>
        (summarySparkline.samples == Padding(summarySparkline.targetBars)
         && summarySparkline.repaints == old(summarySparkline.repaints) + 1)
      ensures config.showSparkline ==>
        (summarySparkline.samples == old(summarySparkline.samples)
         && summarySparkline.repaints == old(summarySparkline.repaints))
    {
      ApplyConfig(LoadConfig(s));
    }

    /**
     * The rest of `_loadSettings` once the configuration `c` is read: the
     * sparkline mode, an emptied sparkline when it is hidden, and the log
     * threshold.
     */
    method ApplyConfig(c: IndicatorConfig)
      requires Valid()
      modifies this`config, this`logLevelIndex, summarySparkline
      ensures Valid() && (old(Idle()) ==> Idle())
      ensures config == c && logLevelIndex == LevelIndexFor(c.logLevel)
      ensures summarySparkline.width ==
        (if c.appearance == "compact" then summarySparkline.compactWidth else summarySparkline.defaultWidth)
      ensures !c.showSparkline ==>
        (summarySparkline.samples == Padding(summarySparkline.targetBars)
         && summarySparkline.repaints == old(summarySparkline.repaints) + 1)
      ensures c.showSparkline ==>
        (summarySparkline.samples == old(summarySparkline.samples)
         && summarySparkline.repaints == old(summarySparkline.repaints))
    {
      summarySparkline.SetMode(SparklineMode(c.appearance));
      if !c.showSparkline {
        summarySparkline.SetSamples(JArr([]));
      }
      config := c;
      UpdateLogLevel();
    }

    /** `_updateLogLevel`. */
    method UpdateLogLevel()
      modifies this`logLevelIndex
      ensures logLevelIndex == LevelIndexFor(config.logLevel)
    {
      var index := LevelIndex(config.logLevel);
      logLevelIndex := if index >= 0 then index else 1;
    }

    /** `_log`: a line is written unless its level is above the threshold. */
    method Log(level: string, message: string)
      modifies this`console
      ensures console == old(console) + Logged(level, message, logLevelIndex)
    {
      var index := LevelIndex(level);
      if index > logLevelIndex {
        return;
      }
      console := console + [FormatLog(level, message)];
    }

    /** The guard of `_refresh`: a refresh already running makes this one a logged no-op. */
    method BeginRefresh() returns (started: bool)
      modifies this`isRefreshing, this`console
      ensures started == !old(isRefreshing) && isRefreshing
      ensures console == old(console) + (if started then [] else Logged("debug", SkipMessage, logLevelIndex))
    {
      if isRefreshing {
        Log("debug", SkipMessage);
        return false;
      }
      isRefreshing := true;
      started := true;
    }

    /**
     * The end of a `_refresh` whose preparation threw `e`: the `catch` that
     * logs and shows the error, then the `finally` that releases the guard.
     */
    method RefreshFailed(e: JsError)
      requires isRefreshing
      modifies this`isRefreshing, this`console, this`summary, this`panelLabel, this`dotClass
      ensures !isRefreshing
      ensures summary == EmptySummary && panelLabel == ErrorLabel && dotClass == "unknown"
      ensures console == old(console) + Logged("error", FailureMessage(e), logLevelIndex)
    {
      FailRefresh(e);
      isRefreshing := false;
    }

    /**
     * The end of a `_refresh` that prepared the list `ms` at time `now`: the
     * steps after the list is known, then the `finally` that releases the guard.
     */
    method RefreshSucceeded(ms: seq<Monitor>, now: int)
      requires Valid() && isRefreshing
      modifies this`isRefreshing, this`rows, this`previousStates, this`notices, this`summary, this`panelLabel,
        this`dotClass, this`historyCache, this`console, summarySparkline
      ensures Valid() && !isRefreshing
      ensures Shows(ListedAll(ms, now), old(previousStates), old(notices), old(historyCache))
      ensures LogsChanges(ListedAll(ms, now), old(previousStates), old(console))
    {
      ShowMonitors(ms, now);
      ghost var shown := Shows(ListedAll(ms, now), old(previousStates), old(notices), old(historyCache));
      assert shown;
      isRefreshing := false;
      assert shown == Shows(ListedAll(ms, now), old(previousStates), old(notices), old(historyCache));
    }

    /**
     * The panel after a successful refresh that listed `listed`, from the
     * stored statuses, sent notices and cache it started with: one row per
     * id, notices for the transitions when notifications are on, the summary
     * of the list, and its histories cached.
     */
    ghost predicate Shows(listed: seq<Monitor>, states0: map<Json, Json>, notices0: seq<Notice>, cache0: map<string, Json>)
      reads this`rows, this`previousStates, this`notices, this`summary, this`panelLabel, this`dotClass,
        this`historyCache, this`config, summarySparkline
    {
      rows == RowsOf(listed) && Tracks(listed, states0, notices0) && Summarises(listed)
      && historyCache == (if |listed| == 0 then cache0 else CachedAfter(cache0, listed))
    }

    /** The stored statuses and the notices sent, when notifications are on; unchanged otherwise. */
    ghost predicate Tracks(listed: seq<Monitor>, states0: map<Json, Json>, notices0: seq<Notice>)
      reads this`previousStates, this`notices, this`config
    {
      (config.enableNotifications ==>
         previousStates == StatesAfter(states0, listed)
         && notices == notices0 + NoticesAfter(states0, listed, config.notifyOnRecovery))
      && (!config.enableNotifications ==> previousStates == states0 && notices == notices0)
    }

    /** The info lines of the status changes of the list, after `console0`; none with notifications off. */
    ghost predicate LogsChanges(listed: seq<Monitor>, states0: map<Json, Json>, console0: seq<LogLine>)
      reads this`console, this`config, this`logLevelIndex
    {
      console == console0
        + (if config.enableNotifications then TransitionLog(states0, listed, config.notifyOnRecovery, logLevelIndex) else [])
    }

    /** The summary, its label and dot, and the summary sparkline, for the list. */
    ghost predicate Summarises(listed: seq<Monitor>)
      reads this`summary, this`panelLabel, this`dotClass, this`config, summarySparkline
    {
      summary == SummaryOf(listed) && panelLabel == SummaryLabel(summary) && dotClass == DotClass(summary.status)
      && summarySparkline.samples ==
           Resample(Sanitize(SparklineInput(config.showSparkline, listed)), summarySparkline.targetBars)
    }

    /** The `catch` of `_refresh`: the error is logged and shown. */
    method FailRefresh(e: JsError)
      modifies this`console, this`summary, this`panelLabel, this`dotClass
      ensures summary == EmptySummary && panelLabel == ErrorLabel && dotClass == "unknown"
      ensures console == old(console) + Logged("error", FailureMessage(e), logLevelIndex)
    {
      Log("error", FailureMessage(e));
      SetErrorState();
    }

    /** The steps of `_refresh` after the list is known. */
    method ShowMonitors(ms: seq<Monitor>, now: int)
      requires Valid()
      modifies this`rows, this`previousStates, this`notices, this`summary, this`panelLabel, this`dotClass,
        this`historyCache, this`console, summarySparkline
      ensures Valid()
      ensures Shows(ListedAll(ms, now), old(previousStates), old(notices), old(historyCache))
      ensures LogsChanges(ListedAll(ms, now), old(previousStates), old(console))
    {
      var listed := UpdateMonitorList(ms, now);
      ShowListed(listed);
    }

    /** The steps of `_refresh` after `_updateMonitorList`. */
    method ShowListed(listed: seq<Monitor>)
      requires Valid()
      modifies this`previousStates, this`notices, this`summary, this`panelLabel, this`dotClass,
        this`historyCache, this`console, summarySparkline
      ensures Valid() && Tracks(listed, old(previousStates), old(notices)) && Summarises(listed)
      ensures LogsChanges(listed, old(previousStates), old(console))
      ensures historyCache == (if |listed| == 0 then old(historyCache) else CachedAfter(old(historyCache), listed))
    {
      CheckForStatusChanges(listed);
      UpdateSummary(listed);
      CacheMonitorHistory(listed);
    }

    /**
     * The part of `_refresh` between the guard and `_updateMonitorList`,
     * given the fetch outcome, the mock list and what the fetcher's
     * back-fill makes of a list: the list to show, or what it throws.
     */
    method PrepareMonitors(fetched: Result<FetchResult, JsError>, mock: seq<Monitor>,
                           backfill: seq<Monitor> -> seq<Monitor>) returns (r: Result<seq<Monitor>, JsError>)
      modifies this`historyFetches, this`console
      ensures r == Prepared(config, historyCache, fetched, mock, backfill)
      ensures console == old(console) + PrepareLog(config, fetched, mock, logLevelIndex)
      ensures historyFetches == old(historyFetches) + (if Backfills(config, historyCache, fetched, mock) then 1 else 0)
    {
      var monitors: Option<seq<Monitor>>;
      var heartbeatMap: Json;
      if config.fetch.baseUrl == "" || (config.demoMode && config.fetch.baseUrl == "") {
        Log("info", MockMessage);
        monitors, heartbeatMap := Some(mock), JNull;
      } else {
        if fetched.Err? {
          return Err(fetched.error);
        }
        monitors, heartbeatMap := fetched.value.monitors, fetched.value.heartbeatMap;
      }
      if |config.selectedServices| > 0 {
        if monitors.None? {
          return Err(TypeError);
        }
        monitors := Some(SelectedOnly(monitors.value, config.selectedServices));
        Log("debug", FilterMessage(|monitors.value|));
      }
      if monitors.None? {
        return Err(TypeError);
      }
      var list := monitors.value;
      if config.showSparkline {
        list := PopulateMonitorHistory(list, heartbeatMap, backfill);
      }
      r := Ok(list);
    }

    /** `_populateMonitorHistory`: the map, then the cache, then the fetcher only if some gap is left. */
    method PopulateMonitorHistory(ms: seq<Monitor>, heartbeatMap: Json, backfill: seq<Monitor> -> seq<Monitor>)
      returns (r: seq<Monitor>)
      modifies this`historyFetches
      ensures r == Populated(ms, heartbeatMap, historyCache, backfill)
      ensures historyFetches == old(historyFetches) + (if BackfillCalled(ms, heartbeatMap, historyCache) then 1 else 0)
    {
      if |ms| == 0 {
        return ms;
      }
      r := ms;
      if heartbeatMap.JObj? {
        var i := 0;
        while i < |r|
          invariant 0 <= i <= |r| == |ms|
          invariant forall k :: 0 <= k < i ==> r[k] == FromMap(ms[k], heartbeatMap)
          invariant forall k :: i <= k < |r| ==> r[k] == ms[k]
        {
          var series := SeriesFor(heartbeatMap, r[i].id);
          if Truthy(series) && Pending(r[i]) {
            r := r[i := r[i].(history := series)];
          }
          i := i + 1;
        }
      }
      assert r == MapFilled(ms, heartbeatMap);
      ghost var mapped := r;
      var i := 0;
      while i < |r|
        invariant 0 <= i <= |r| == |mapped|
        invariant forall k :: 0 <= k < i ==> r[k] == FromCache(mapped[k], historyCache)
        invariant forall k :: i <= k < |r| ==> r[k] == mapped[k]
      {
        var id := r[i].id;
        if !Nullish(id) && Pending(r[i]) && ToStr(id) in historyCache {
          r := r[i := r[i].(history := historyCache[ToStr(id)])];
        }
        i := i + 1;
      }
      assert r == CacheFilled(mapped, historyCache);
      if Missing(r) {
        r := backfill(r);
        historyFetches := historyFetches + 1;
      }
    }

    /** `_updateMonitorList`: ids are completed, relative times set, and rows kept for exactly the ids listed. */
    method UpdateMonitorList(ms: seq<Monitor>, now: int) returns (listed: seq<Monitor>)
      modifies this`rows
      ensures listed == ListedAll(ms, now) && rows == RowsOf(listed)
    {
      listed := [];
      ghost var seen: set<Json> := {};
      var i := 0;
      while i < |ms|
        invariant 0 <= i <= |ms| && |listed| == i
        invariant forall k :: 0 <= k < i ==> listed[k] == Listed(ms[k], k, now)
        invariant rows == old(rows) + RowsOf(listed)
      {
        var m := Listed(ms[i], i, now);
        RowsOfSnoc(listed, m);
        listed := listed + [m];
        rows := rows[m.id := m];
        i := i + 1;
      }
      RowsOfKeys(listed);
      rows := map id | id in rows && id in RowsOf(listed) :: rows[id];
    }

    /**
     * `_checkForStatusChanges`, gated by the notification setting: each
     * notice sent is followed by its info line.
     */
    method CheckForStatusChanges(ms: seq<Monitor>)
      modifies this`previousStates, this`notices, this`console
      ensures config.enableNotifications ==>
        (previousStates == StatesAfter(old(previousStates), ms)
         && notices == old(notices) + NoticesAfter(old(previousStates), ms, config.notifyOnRecovery)
         && console == old(console) + TransitionLog(old(previousStates), ms, config.notifyOnRecovery, logLevelIndex))
      ensures !config.enableNotifications ==>
        previousStates == old(previousStates) && notices == old(notices) && console == old(console)
    {
      if !config.enableNotifications {
        return;
      }
      var states, sent, lines := StatusChanges(previousStates, ms, config.notifyOnRecovery, logLevelIndex);
      previousStates := states;
      notices := notices + sent;
      console := console + lines;
    }

    /** `_updateSummary` and `_updateSummarySparkline`. */
    method UpdateSummary(ms: seq<Monitor>)
      requires summarySparkline.Valid()
      modifies this`summary, this`panelLabel, this`dotClass, summarySparkline
      ensures summarySparkline.Valid()
      ensures summary == SummaryOf(ms) && panelLabel == SummaryLabel(summary) && dotClass == DotClass(summary.status)
      ensures summarySparkline.samples == Resample(Sanitize(SparklineInput(config.showSparkline, ms)), summarySparkline.targetBars)
    {
      var s := AggregateMonitors(Some(ms));
      summary := s;
      panelLabel := SummaryLabel(s);
      dotClass := DotClass(s.status);
      if !config.showSparkline {
        summarySparkline.SetSamples(JArr([]));
        return;
      }
      var series := ComposeSummaryHistory(ms);
      summarySparkline.SetSamples(SeriesJson(series));
    }

    /** `_cacheMonitorHistory`. */
    method CacheMonitorHistory(ms: seq<Monitor>)
      requires CacheHoldsSeries(historyCache)
      modifies this`historyCache
      ensures CacheHoldsSeries(historyCache)
      ensures historyCache == if |ms| == 0 then old(historyCache) else CachedAfter(old(historyCache), ms)
    {
      if |ms| == 0 {
        return;
      }
      var i := 0;
      while i < |ms|
        invariant 0 <= i <= |ms|
        invariant historyCache == CachedAfter(old(historyCache), ms[..i])
      {
        CachedAfterSnoc(old(historyCache), ms, i);
        var id := ms[i].id;
        if Truthy(id) && !Pending(ms[i]) {
          historyCache := historyCache[ToStr(id) := ms[i].history];
        }
        i := i + 1;
      }
      assert ms[..|ms|] == ms;
      CachedAfterMeaning(old(historyCache), ms);
    }

    /** `_setErrorState`. */
    method SetErrorState()
      modifies this`summary, this`panelLabel, this`dotClass
      ensures summary == EmptySummary && panelLabel == ErrorLabel && dotClass == "unknown"
    {
      summary := EmptySummary;
      panelLabel := ErrorLabel;
      dotClass := DotClass("unknown");
    }

    /**
     * `stop`: the rows and the history cache are dropped, the sparkline is
     * cleared and the fetcher destroyed and released; the stored statuses
     * are kept.
     */
    method Stop()
      requires Valid()
      modifies this`rows, this`historyCache, this`fetcher, summarySparkline, fetcher
      ensures Valid()
      ensures rows == map[] && historyCache == map[] && fetcher == null
      ensures summarySparkline.samples == []
      ensures old(fetcher) != null ==> old(fetcher).activeTimeouts == {} && !old(fetcher).sessionOpen
    {
      rows := map[];
      historyCache := map[];
      summarySparkline.Clear();
      if fetcher != null {
        fetcher.Destroy();
        fetcher := null;
      }
    }
  }
}
