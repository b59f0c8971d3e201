/**
 * The preferences window of the packaged copy
 * (`build/uptime-kuma-indicator@dumke/prefs.js`). It differs from the main
 * copy in four ways:
 * - it has two modes, chosen from a dropdown that also sets which widgets show;
 * - it has exactly four service dropdowns, restored from the saved selection
 *   rather than from per-dropdown targets;
 * - its fetch button is disabled while a fetch runs;
 * - its dropdown refresh has no guard against its own `notify::selected`
 *   signals, so every selection it changes runs `_onServiceSelected` and
 *   re-saves `selected-services` midway. Those re-saves are not modelled:
 *   `UpdateServiceDropdowns` and `FinishFetch` leave `selectedServices` as it was.
 * Its service-list extraction and its `_joinUrl` are the same code as in the
 * main copy, so they come from `Services` and `Uri`.
 */
module BuildPrefs {
  import opened Wrappers
  import opened Js
  import opened Services
  import Network
  import BuildNetwork
  import Prefs

  const DropdownCount := 4
  const FetchLabel := "Fetch"
  const FetchingLabel := "Fetching..."

  // ---------------------------------------------------------------------------
  // Mode

  /**
   * `_updateVisibility`'s `currentMode` (build prefs.js:474): `api-key`, or
   * `status-page` for anything else; the fetcher's `SelectBuildMode` decides the same way.
   */
  function EffectiveMode(mode: string): (r: string)
    ensures r == "api-key" <==> mode == "api-key"
    ensures r == "api-key" || r == "status-page"
  {
    if mode == "api-key" then "api-key" else "status-page"
  }

  /** The mode dropdown's position for a stored mode. */
  function ModeIndex(mode: string): (r: nat)
    ensures r <= 1
    ensures r == 1 <==> mode == "api-key"
  {
    if mode == "api-key" then 1 else 0
  }

  /** The mode a dropdown position stores. */
  function ModeOfIndex(index: nat): (r: string)
    ensures r == "api-key" <==> index == 1
    ensures r != "api-key" ==> r == "status-page"
  {
    if index == 1 then "api-key" else "status-page"
  }

  /** Choosing a position and reading the stored mode back shows that position. */
  lemma ModeIndexRoundTrip(index: nat)
    requires index <= 1
    ensures ModeIndex(ModeOfIndex(index)) == index
  {
  }

  /** Reading a stored mode into the dropdown and storing it again keeps its effect. */
  lemma ModeOfIndexRoundTrip(mode: string)
    ensures ModeOfIndex(ModeIndex(mode)) == EffectiveMode(mode)
  {
  }

  /** Which widget groups `_updateVisibility` shows. */
  datatype Visibility = Visibility(statusWidgets: bool, apiWidgets: bool)

  function VisibilityFor(mode: string): (r: Visibility)
    ensures r.statusWidgets <==> mode != "api-key"
    ensures r.apiWidgets <==> mode == "api-key"
  {
    var current := EffectiveMode(mode);
    Visibility(current == "status-page", current == "api-key")
  }

  /** Exactly one group shows, and it is the one the packaged fetcher reads for that mode. */
  lemma VisibilityMatchesFetcher(mode: string)
    ensures VisibilityFor(mode).statusWidgets != VisibilityFor(mode).apiWidgets
    ensures VisibilityFor(mode).apiWidgets <==> BuildNetwork.SelectBuildMode(mode) == Network.ApiKey
    ensures VisibilityFor(mode).statusWidgets <==> BuildNetwork.SelectBuildMode(mode) == Network.StatusPage
  {
  }

  // ---------------------------------------------------------------------------
  // The four dropdowns

  /** A service dropdown: its entries and its selection. */
  datatype Picker = Picker(items: seq<string>, selected: nat)

  /** The saved id for dropdown `i`, when there is one and it is not empty. */
  function SavedAt(saved: seq<string>, i: nat): (r: Option<string>)
    ensures r.Some? <==> i < |saved| && saved[i] != ""
    ensures r.Some? ==> r.value == saved[i]
  {
    if i < |saved| && saved[i] != "" then Some(saved[i]) else None
  }

  /** Dropdown `i` as first built: "(None)", plus the saved id as a placeholder, selected, when there is one. */
  function InitialPicker(saved: seq<string>, i: nat): (p: Picker)
    ensures |p.items| >= 1 && p.items[0] == NoneItem && p.selected < |p.items|
    ensures p.selected == 1 <==> SavedAt(saved, i).Some?
    ensures p.selected == 1 ==> |p.items| == 2 && p.items[1] == saved[i]
  {
    match SavedAt(saved, i)
    case Some(id) => Picker([NoneItem, id], 1)
    case None => Picker([NoneItem], 0)
  }

  function InitialPickers(saved: seq<string>): (r: seq<Picker>)
    ensures |r| == DropdownCount
    ensures forall i :: 0 <= i < DropdownCount ==> r[i] == InitialPicker(saved, i)
  {
    seq(DropdownCount, i requires 0 <= i < DropdownCount => InitialPicker(saved, i))
  }

  /** Dropdown `i` after `_updateServiceDropdowns`: the services, and its saved id selected when offered. */
  function RefreshedPicker(available: seq<Service>, target: Option<string>): (p: Picker)
    ensures p.items == ServiceItems(available) && p.selected < |p.items|
    ensures p.selected > 0 ==> target.Some? && available[p.selected - 1].id == target.value
    ensures p.selected == 0 ==> target.None? || !Prefs.Offers(available, target.value)
  {
    Picker(ServiceItems(available), if target.Some? then SelectedIndex(available, target.value) else 0)
  }

  /** The first `n` dropdowns after a refresh. */
  function RefreshedPickers(n: nat, available: seq<Service>, saved: seq<string>): (r: seq<Picker>)
    ensures |r| == n && forall i :: 0 <= i < n ==> r[i] == RefreshedPicker(available, SavedAt(saved, i))
  {
    seq(n, i requires 0 <= i < n => RefreshedPicker(available, SavedAt(saved, i)))
  }

  predicate Picks(p: Picker, available: seq<Service>) {
    0 < p.selected <= |available|
  }

  /**
   * The list `_onServiceSelected` saves: the chosen ids, dropdown by dropdown.
   * Every saved id is the id of an offered service; one id is saved per
   * dropdown that picks a service, so none when no dropdown picks one.
   */
  function SavedIds(ps: seq<Picker>, available: seq<Service>): (r: seq<string>)
    ensures |r| <= |ps|
    ensures forall j :: 0 <= j < |r| ==> exists k :: 0 <= k < |available| && available[k].id == r[j]
    ensures (forall i :: 0 <= i < |ps| ==> Picks(ps[i], available)) ==> |r| == |ps|
    ensures (forall i :: 0 <= i < |ps| ==> !Picks(ps[i], available)) ==> r == []
  {
    if ps == [] then []
    else
      var p := ps[|ps| - 1];
      SavedIds(ps[..|ps| - 1], available) + (if Picks(p, available) then [available[p.selected - 1].id] else [])
  }

  lemma SavedIdsSnoc(ps: seq<Picker>, p: Picker, available: seq<Service>)
    ensures SavedIds(ps + [p], available)
      == SavedIds(ps, available) + (if Picks(p, available) then [available[p.selected - 1].id] else [])
  {
    assert (ps + [p])[..|ps|] == ps;
  }

  /** The saved ids among the first `n` positions that are among the services, in order. */
  function OfferedSaved(saved: seq<string>, available: seq<Service>, n: nat): seq<string> {
    if n == 0 then []
    else
      OfferedSaved(saved, available, n - 1)
        + (if SavedAt(saved, n - 1).Some? && Prefs.Offers(available, saved[n - 1]) then [saved[n - 1]] else [])
  }

  /** After a refresh, saving the selection keeps exactly the saved ids that are still offered, in order. */
  lemma {:induction false} RefreshKeepsOfferedSaved(n: nat, available: seq<Service>, saved: seq<string>)
    ensures SavedIds(RefreshedPickers(n, available, saved), available) == OfferedSaved(saved, available, n)
  {
    if n > 0 {
      var r := RefreshedPickers(n, available, saved);
      assert r[..n - 1] == RefreshedPickers(n - 1, available, saved);
      RefreshKeepsOfferedSaved(n - 1, available, saved);
    }
  }

  /** When every saved id is set and offered, the saved ids are kept as they are. */
  lemma {:induction false} OfferedSavedAll(saved: seq<string>, available: seq<Service>, n: nat)
    requires forall k :: 0 <= k < |saved| ==> saved[k] != "" && Prefs.Offers(available, saved[k])
    ensures OfferedSaved(saved, available, n) == saved[..if n < |saved| then n else |saved|]
  {
    if n > 0 {
      OfferedSavedAll(saved, available, n - 1);
      if n <= |saved| {
        assert saved[..n] == saved[..n - 1] + [saved[n - 1]];
      }
    }
  }

  /** A saved selection of at most four ids, all of them offered, survives a fetch unchanged. */
  lemma OfferedSelectionSurvivesFetch(saved: seq<string>, available: seq<Service>)
    requires |saved| <= DropdownCount
    requires forall k :: 0 <= k < |saved| ==> saved[k] != "" && Prefs.Offers(available, saved[k])
    ensures SavedIds(RefreshedPickers(DropdownCount, available, saved), available) == saved
  {
    RefreshKeepsOfferedSaved(DropdownCount, available, saved);
    OfferedSavedAll(saved, available, DropdownCount);
    assert saved[..|saved|] == saved;
  }

  // ---------------------------------------------------------------------------
  // Fetching

  /** The request for a mode: the private API for `api-key`, the status page otherwise. */
  function BuildRequest(baseUrl: string, apiKey: string, apiMode: string, s: Prefs.SourceSettings): (r: Prefs.ServiceRequest)
    ensures r.source == Prefs.FromPrivateApi <==> apiMode == "api-key"
    ensures r.source != Prefs.FromMetrics
  {
    Prefs.RequestFor(baseUrl, apiKey, EffectiveMode(apiMode), s, k => k)
  }

  /** In the two modes it has, the packaged window makes the same request as the main one. */
  lemma BuildRequestAsMain(baseUrl: string, apiKey: string, apiMode: string, s: Prefs.SourceSettings,
                           base64: string -> string)
    requires apiMode == "api-key" || apiMode == "status-page"
    ensures BuildRequest(baseUrl, apiKey, apiMode, s) == Prefs.RequestFor(baseUrl, apiKey, apiMode, s, base64)
  {
  }

  // ---------------------------------------------------------------------------
  // The window

  /**
   * The packaged window's state: the settings it writes, the fetched
   * services, the four dropdowns, the mode dropdown, which widgets show, the
   * fetch button and the toasts shown.
   */
  class BuildPreferences {
    var baseUrl: string
    var apiKey: string
    var apiMode: string
    var selectedServices: seq<string>
    var available: seq<Service>
    var pickers: seq<Picker>
    var modeSelected: nat
    var visibility: Visibility
    var buttonSensitive: bool
    var buttonLabel: string
    var toasts: seq<string>

    /** The window as built from the stored settings. */
    constructor(settingsBaseUrl: string, settingsApiKey: string, settingsApiMode: string, saved: seq<string>)
      ensures baseUrl == settingsBaseUrl && apiKey == settingsApiKey && apiMode == settingsApiMode
      ensures selectedServices == saved && available == [] && toasts == []
      ensures pickers == InitialPickers(saved)
      ensures modeSelected == ModeIndex(settingsApiMode) && visibility == VisibilityFor(settingsApiMode)
      ensures buttonSensitive && buttonLabel == FetchLabel
    {
      baseUrl := settingsBaseUrl;
      apiKey := settingsApiKey;
      apiMode := settingsApiMode;
      selectedServices := saved;
      available := [];
      pickers := InitialPickers(saved);
      modeSelected := ModeIndex(settingsApiMode);
      visibility := VisibilityFor(settingsApiMode);
      buttonSensitive := true;
      buttonLabel := FetchLabel;
      toasts := [];
    }

    /** The mode dropdown's `notify::selected`: the mode is stored and the widgets follow it. */
    method SelectMode(index: nat)
      requires index <= 1
      modifies this`modeSelected, this`apiMode, this`visibility
      ensures modeSelected == index && apiMode == ModeOfIndex(index) && visibility == VisibilityFor(apiMode)
      ensures ModeIndex(apiMode) == modeSelected
    {
      modeSelected := index;
      apiMode := ModeOfIndex(index);
      visibility := VisibilityFor(apiMode);
    }

    /** `_updateServiceDropdowns`: each dropdown lists the services and selects its saved id when offered. */
    method UpdateServiceDropdowns()
      modifies this`pickers
      ensures pickers == RefreshedPickers(|old(pickers)|, available, selectedServices)
    {
      var i := 0;
      while i < |pickers|
        invariant 0 <= i <= |pickers| == |old(pickers)|
        invariant forall k :: 0 <= k < i ==> pickers[k] == RefreshedPicker(available, SavedAt(selectedServices, k))
      {
        var target := if i < |selectedServices| && selectedServices[i] != "" then Some(selectedServices[i]) else None;
        pickers := pickers[i := RefreshedPicker(available, target)];
        i := i + 1;
      }
    }

    /** `_onServiceSelected`: the ids of the dropdowns that pick a service, in order. */
    method OnServiceSelected()
      modifies this`selectedServices
      ensures selectedServices == SavedIds(pickers, available)
    {
      var chosen: seq<string> := [];
      var i := 0;
      while i < |pickers|
        invariant 0 <= i <= |pickers|
        invariant chosen == SavedIds(pickers[..i], available)
      {
        var picker := pickers[i];
        SavedIdsSnoc(pickers[..i], picker, available);
        assert pickers[..i + 1] == pickers[..i] + [picker];
        if picker.selected > 0 && picker.selected <= |available| {
          chosen := chosen + [available[picker.selected - 1].id];
        }
        i := i + 1;
      }
      assert pickers[..i] == pickers;
      selectedServices := chosen;
    }

    /**
     * The user picks entry `position` of dropdown `index`. GTK emits
     * `notify::selected` only when the selection changes, so picking the
     * entry already selected changes nothing.
     */
    method ChooseService(index: nat, position: nat)
      requires index < |pickers| && position < |pickers[index].items|
      modifies this`pickers, this`selectedServices
      ensures pickers == old(pickers)[index := old(pickers)[index].(selected := position)]
      ensures position == old(pickers)[index].selected ==> selectedServices == old(selectedServices)
      ensures position != old(pickers)[index].selected ==> selectedServices == SavedIds(pickers, available)
    {
      if position != pickers[index].selected {
        pickers := pickers[index := pickers[index].(selected := position)];
        OnServiceSelected();
      }
    }

    /**
     * `_fetchServices(button)` up to its `await`: a toast and no request
     * without a base URL, or without a token in `api-key` mode, the button
     * restored at once; otherwise the request, the button disabled and
     * labelled "Fetching..." until `FinishFetch`.
     */
    method BeginFetch(s: Prefs.SourceSettings) returns (request: Option<Prefs.ServiceRequest>)
      modifies this`buttonSensitive, this`buttonLabel, this`toasts
      ensures baseUrl == "" ==> request == None && toasts == old(toasts) + [Prefs.MissingBaseUrlMessage]
      ensures baseUrl != "" && apiMode == "api-key" && apiKey == "" ==>
        request == None && toasts == old(toasts) + [Prefs.MissingTokenMessage]
      ensures baseUrl != "" && (apiMode != "api-key" || apiKey != "") ==>
        request == Some(BuildRequest(baseUrl, apiKey, apiMode, s)) && toasts == old(toasts)
      ensures buttonSensitive <==> request.None?
      ensures buttonLabel == if request.None? then FetchLabel else FetchingLabel
    {
      buttonSensitive := false;
      buttonLabel := FetchingLabel;
      if baseUrl == "" {
        toasts := toasts + [Prefs.MissingBaseUrlMessage];
        buttonSensitive, buttonLabel := true, FetchLabel;
        return None;
      }
      if apiMode == "api-key" && apiKey == "" {
        toasts := toasts + [Prefs.MissingTokenMessage];
        buttonSensitive, buttonLabel := true, FetchLabel;
        return None;
      }
      return Some(BuildRequest(baseUrl, apiKey, apiMode, s));
    }

    /**
     * `_fetchServices(button)` after its `await`: on success the services
     * replace the list and the dropdowns are refreshed, on failure a toast;
     * the button is restored either way.
     */
    method FinishFetch(fetched: Result<seq<Service>, JsError>)
      modifies this`available, this`pickers, this`toasts, this`buttonSensitive, this`buttonLabel
      ensures buttonSensitive && buttonLabel == FetchLabel
      ensures fetched.Ok? ==>
        available == fetched.value && toasts == old(toasts)
        && pickers == RefreshedPickers(|old(pickers)|, fetched.value, selectedServices)
      ensures fetched.Err? ==>
        available == old(available) && pickers == old(pickers) && toasts == old(toasts) + [Prefs.FailureToast(fetched.error)]
    {
      if fetched.Ok? {
        available := fetched.value;
        UpdateServiceDropdowns();
      } else {
        toasts := toasts + [Prefs.FailureToast(fetched.error)];
      }
      buttonSensitive, buttonLabel := true, FetchLabel;
    }
  }
}
