/**
 * The service lists of the preferences windows: the `{ id, name }` entries
 * the windows offer in their dropdowns, read from a status page or from the
 * private monitor list. Both copies of `prefs.js` carry the same extraction
 * code, so both use this module.
 */
module Services {
  import opened Wrappers
  import opened Text
  import opened Js
  import Http

  /** One entry of `_availableServices`: the id as text and the name as given. */
  datatype Service = Service(id: string, name: Json)

  /** `monitor.id && monitor.name`. */
  predicate Eligible(m: Json)
    requires !Nullish(m)
  {
    Truthy(Get(m, "id")) && Truthy(Get(m, "name"))
  }

  /** `{ id: String(monitor.id), name: monitor.name }`. */
  function ServiceOf(m: Json): (r: Service)
    requires !Nullish(m)
    ensures r.id == ToStr(Get(m, "id")) && r.name == Get(m, "name")
  {
    Service(ToStr(Get(m, "id")), Get(m, "name"))
  }

  /**
   * The inner loop of the extraction: every monitor with a truthy id and
   * name, in order. Reading `monitor.id` of null or undefined throws.
   */
  function Picked(ms: seq<Json>): (r: Result<seq<Service>, JsError>)
    ensures r.Err? ==> r == Err(TypeError)
  {
    if ms == [] then Ok([])
    else
      match Picked(ms[..|ms| - 1])
      case Err(e) => Err(e)
      case Ok(done) =>
        var m := ms[|ms| - 1];
        if Nullish(m) then Err(TypeError)
        else if Eligible(m) then Ok(done + [ServiceOf(m)])
        else Ok(done)
  }

  /** The extraction fails exactly when one of the monitors is null or undefined. */
  lemma {:induction false} PickedOk(ms: seq<Json>)
    ensures Picked(ms).Ok? <==> forall i :: 0 <= i < |ms| ==> !Nullish(ms[i])
  {
    if ms != [] {
      var init := ms[..|ms| - 1];
      PickedOk(init);
      assert forall i :: 0 <= i < |init| ==> init[i] == ms[i];
    }
  }

  /** Extracting from two lists one after the other is extracting from their concatenation. */
  lemma {:induction false} PickedAppend(a: seq<Json>, b: seq<Json>)
    ensures Picked(a + b) == if Picked(a).Ok? && Picked(b).Ok? then Ok(Picked(a).value + Picked(b).value) else Err(TypeError)
  {
    if b == [] {
      assert a + b == a;
      if Picked(a).Ok? {
        assert Picked(a).value + [] == Picked(a).value;
      }
    } else {
      var init := b[..|b| - 1];
      PickedAppend(a, init);
      assert (a + b)[..|a + b| - 1] == a + init;
      assert (a + b)[|a + b| - 1] == b[|b| - 1];
      var last := b[|b| - 1];
      if Picked(a).Ok? && Picked(init).Ok? && !Nullish(last) && Eligible(last) {
        assert Picked(a).value + Picked(init).value + [ServiceOf(last)]
          == Picked(a).value + (Picked(init).value + [ServiceOf(last)]);
      }
    }
  }

  /** When every monitor has an id and a name, every one becomes a service, in order. */
  lemma {:induction false} PickedAllEligible(ms: seq<Json>)
    requires forall i :: 0 <= i < |ms| ==> !Nullish(ms[i]) && Eligible(ms[i])
    ensures Picked(ms).Ok? && |Picked(ms).value| == |ms|
    ensures forall i :: 0 <= i < |ms| ==> Picked(ms).value[i] == ServiceOf(ms[i])
  {
    if ms != [] {
      var init := ms[..|ms| - 1];
      assert forall i :: 0 <= i < |init| ==> init[i] == ms[i];
      PickedAllEligible(init);
    }
  }

  /** A monitor without a truthy id or name leaves no trace in the list. */
  lemma PickedDropsIneligible(a: seq<Json>, m: Json, b: seq<Json>)
    requires !Nullish(m) && !Eligible(m)
    ensures Picked(a + [m] + b) == Picked(a + b)
  {
    PickedAppend(a + [m], b);
    PickedAppend(a, [m]);
    PickedAppend(a, b);
    assert [m][..0] == [];
    match Picked(a) {
      case Ok(v) => assert v + [] == v;
      case Err(_) =>
    }
  }

  /** `json?.[key] || []`, walked with `for … of`: a truthy value that is not iterable throws. */
  function ListOf(j: Json, key: string): (r: Result<seq<Json>, JsError>)
    ensures r.Err? ==> r == Err(TypeError)
    ensures !Truthy(GetOpt(j, key)) ==> r == Ok([])
    ensures GetOpt(j, key).JArr? ==> r == Ok(GetOpt(j, key).items)
  {
    match Iterate(Or(GetOpt(j, key), JArr([])))
    case None => Err(TypeError)
    case Some(items) => Ok(items)
  }

  /** `_fetchFromPrivateApi` after the request: the services of `monitorList`. */
  function PrivateApiServices(json: Json): (r: Result<seq<Service>, JsError>)
    ensures r.Err? ==> r == Err(TypeError)
  {
    match ListOf(json, "monitorList")
    case Err(e) => Err(e)
    case Ok(ms) => Picked(ms)
  }

  /** The outer loop of the status-page extraction, over the groups seen so far. */
  function PickedGroups(groups: seq<Json>): (r: Result<seq<Service>, JsError>)
    ensures r.Err? ==> r == Err(TypeError)
  {
    if groups == [] then Ok([])
    else
      match PickedGroups(groups[..|groups| - 1])
      case Err(e) => Err(e)
      case Ok(done) =>
        match ListOf(groups[|groups| - 1], "monitorList")
        case Err(e) => Err(e)
        case Ok(ms) =>
          match Picked(ms)
          case Err(e) => Err(e)
          case Ok(found) => Ok(done + found)
  }

  /** `_fetchFromStatusPage` after the request: the services of every `publicGroupList[*].monitorList`. */
  function StatusPageServices(json: Json): (r: Result<seq<Service>, JsError>)
    ensures r.Err? ==> r == Err(TypeError)
  {
    match ListOf(json, "publicGroupList")
    case Err(e) => Err(e)
    case Ok(groups) => PickedGroups(groups)
  }

  function Flatten(lists: seq<seq<Json>>): seq<Json> {
    if lists == [] then [] else Flatten(lists[..|lists| - 1]) + lists[|lists| - 1]
  }

  /** The monitor list of each group, when every one of them can be walked. */
  function GroupLists(groups: seq<Json>): (r: seq<seq<Json>>)
    requires forall i :: 0 <= i < |groups| ==> ListOf(groups[i], "monitorList").Ok?
    ensures |r| == |groups|
  {
    seq(|groups|, i requires 0 <= i < |groups| && ListOf(groups[i], "monitorList").Ok? =>
      ListOf(groups[i], "monitorList").value)
  }

  /** The status-page extraction flattens the groups' monitor lists in order. */
  lemma {:induction false} PickedGroupsFlatten(groups: seq<Json>)
    requires forall i :: 0 <= i < |groups| ==> ListOf(groups[i], "monitorList").Ok?
    ensures PickedGroups(groups) == Picked(Flatten(GroupLists(groups)))
  {
    if groups != [] {
      var init := groups[..|groups| - 1];
      var lists := GroupLists(groups);
      assert GroupLists(init) == lists[..|lists| - 1];
      PickedGroupsFlatten(init);
      PickedAppend(Flatten(GroupLists(init)), lists[|lists| - 1]);
    }
  }

  lemma PickedGroupsStep(groups: seq<Json>, i: nat)
    requires i < |groups|
    ensures groups[..i + 1][..i] == groups[..i] && groups[..i + 1][i] == groups[i]
  {
  }

  lemma {:induction false} PickedGroupsErrExtends(groups: seq<Json>, n: nat)
    requires n <= |groups| && PickedGroups(groups[..n]).Err?
    ensures PickedGroups(groups).Err?
    decreases |groups| - n
  {
    if n < |groups| {
      assert groups[..n + 1][..n] == groups[..n];
      PickedGroupsErrExtends(groups, n + 1);
    } else {
      assert groups[..n] == groups;
    }
  }

  /** The loop over one list of monitors, as both copies of the preferences window write it. */
  method PickServices(ms: seq<Json>) returns (r: Result<seq<Service>, JsError>)
    ensures r == Picked(ms)
  {
    var services: seq<Service> := [];
    var j := 0;
    while j < |ms|
      invariant 0 <= j <= |ms|
      invariant Picked(ms[..j]) == Ok(services)
    {
      var monitor := ms[j];
      assert ms[..j + 1][..j] == ms[..j];
      if Nullish(monitor) {
        // reading `monitor.id` throws
        PickedAppend(ms[..j + 1], ms[j + 1..]);
        assert ms[..j + 1] + ms[j + 1..] == ms;
        return Err(TypeError);
      }
      if Eligible(monitor) {
        services := services + [ServiceOf(monitor)];
      }
      j := j + 1;
    }
    assert ms[..j] == ms;
    return Ok(services);
  }

  /** `_fetchFromPrivateApi`'s loop. */
  method PrivateApiList(json: Json) returns (r: Result<seq<Service>, JsError>)
    ensures r == PrivateApiServices(json)
  {
    var list := ListOf(json, "monitorList");
    if list.Err? {
      return Err(TypeError);
    }
    r := PickServices(list.value);
  }

  /** `_fetchFromStatusPage`'s nested loops. */
  method StatusPageList(json: Json) returns (r: Result<seq<Service>, JsError>)
    ensures r == StatusPageServices(json)
  {
    var list := ListOf(json, "publicGroupList");
    if list.Err? {
      return Err(TypeError);
    }
    var groups := list.value;
    var services: seq<Service> := [];
    var i := 0;
    while i < |groups|
      invariant 0 <= i <= |groups|
      invariant PickedGroups(groups[..i]) == Ok(services)
    {
      PickedGroupsStep(groups, i);
      var monitors := ListOf(groups[i], "monitorList");
      if monitors.Err? {
        PickedGroupsErrExtends(groups, i + 1);
        return Err(TypeError);
      }
      var found := PickServices(monitors.value);
      if found.Err? {
        PickedGroupsErrExtends(groups, i + 1);
        return Err(TypeError);
      }
      services := services + found.value;
      i := i + 1;
    }
    assert groups[..i] == groups;
    return Ok(services);
  }

  // ---------------------------------------------------------------------------
  // Requests

  /** `_getJson`: a status outside 2xx rejects with `HTTP <status>`; otherwise the body is parsed. */
  function ServiceJson(o: Http.Outcome, parse: string -> Result<Json, JsError>): (r: Result<Json, JsError>)
    ensures o.Response? && !(200 <= o.status < 300) ==> r == Err(Error("HTTP " + IntToString(o.status)))
    ensures o.Response? && 200 <= o.status < 300 ==> r == parse(o.body)
    ensures o.Failure? ==> r == Err(o.error)
  {
    match o
    case Response(status, body) =>
      if status < 200 || status >= 300 then Err(Error("HTTP " + IntToString(status))) else parse(body)
    case Failure(e) => Err(e)
  }

  // ---------------------------------------------------------------------------
  // Dropdown entries

  const NoneItem := "(None)"

  /** The dropdown label of a service: `<name> (ID: <id>)`. */
  function ItemText(s: Service): string {
    ToStr(s.name) + " (ID: " + s.id + ")"
  }

  /** The dropdown model that lists the services after the "(None)" entry. */
  function ServiceItems(available: seq<Service>): (r: seq<string>)
    ensures |r| == |available| + 1 && r[0] == NoneItem
    ensures forall k :: 0 <= k < |available| ==> r[k + 1] == ItemText(available[k])
  {
    [NoneItem] + seq(|available|, k requires 0 <= k < |available| => ItemText(available[k]))
  }

  /**
   * The dropdown position of the service with id `id`: one past its index
   * (`findIndex(…) + 1`), or 0, the "(None)" entry, when no service has it.
   */
  function SelectedIndex(available: seq<Service>, id: string): (r: nat)
    ensures r <= |available|
    ensures r > 0 ==> available[r - 1].id == id && forall k :: 0 <= k < r - 1 ==> available[k].id != id
    ensures r == 0 ==> forall k :: 0 <= k < |available| ==> available[k].id != id
  {
    if available == [] then 0
    else if available[0].id == id then 1
    else
      var rest := SelectedIndex(available[1..], id);
      if rest == 0 then 0 else rest + 1
  }

  /** Choosing a position and reading back its id finds that position again when ids are unique. */
  lemma {:induction false} SelectedIndexOfChoice(available: seq<Service>, s: nat)
    requires 0 < s <= |available|
    requires forall k, l :: 0 <= k < l < |available| ==> available[k].id != available[l].id
    ensures SelectedIndex(available, available[s - 1].id) == s
  {
    if s > 1 {
      var rest := available[1..];
      assert rest[s - 2] == available[s - 1];
      assert forall k, l :: 0 <= k < l < |rest| ==> rest[k] == available[k + 1] && rest[l] == available[l + 1];
      SelectedIndexOfChoice(rest, s - 1);
    }
  }
}
