/**
 * The default-autofill-service picker: the candidate list built from the services answering the
 * current and the legacy autofill interface, and the lookup of the settings activity of the selected
 * service, which searches the current interface's services before the legacy ones.
 */
module Autofill {
  import opened Common

  /**
   * A resolved autofill service: its package, its class, and the settings activity its metadata
   * declares (the `AutofillServiceInfo` parse of that metadata is not modelled, only its result).
   */
  datatype ServiceInfo = ServiceInfo(packageName: string, name: string, settingsActivity: Option<string>)

  /** The component a service runs as. */
  function ServiceComponent(s: ServiceInfo): (c: ComponentName)
    ensures c.packageName == s.packageName && c.className == s.name
  {
    ComponentName(s.packageName, s.name)
  }

  /** A candidate row of the picker: a user and a component. */
  datatype DefaultAppInfo = DefaultAppInfo(userId: int, component: ComponentName)

  /**
   * `getCandidates`: one candidate per service answering the current interface, then one per service
   * answering the legacy interface, each list in query order, duplicates kept, all for the picker's user.
   */
  method GetCandidates(userId: int, services: seq<ServiceInfo>, oldServices: seq<ServiceInfo>)
    returns (candidates: seq<DefaultAppInfo>)
    ensures |candidates| == |services| + |oldServices|
    ensures forall i :: 0 <= i < |services| ==>
      candidates[i] == DefaultAppInfo(userId, ServiceComponent(services[i]))
    ensures forall i :: 0 <= i < |oldServices| ==>
      candidates[|services| + i] == DefaultAppInfo(userId, ServiceComponent(oldServices[i]))
  {
    candidates := [];
    for i := 0 to |services|
      invariant |candidates| == i
      invariant forall j :: 0 <= j < i ==> candidates[j] == DefaultAppInfo(userId, ServiceComponent(services[j]))
    {
      candidates := candidates + [DefaultAppInfo(userId, ComponentName(services[i].packageName, services[i].name))];
    }
    for i := 0 to |oldServices|
      invariant |candidates| == |services| + i
      invariant forall j :: 0 <= j < |services| ==> candidates[j] == DefaultAppInfo(userId, ServiceComponent(services[j]))
      invariant forall j :: 0 <= j < i ==>
        candidates[|services| + j] == DefaultAppInfo(userId, ServiceComponent(oldServices[j]))
    {
      candidates := candidates + [DefaultAppInfo(userId, ComponentName(oldServices[i].packageName, oldServices[i].name))];
    }
  }

  /** `TextUtils.equals(selectedKey, flattened component)`: the flattened name is never null. */
  function Matches(key: Option<string>): ServiceInfo -> bool
  {
    (s: ServiceInfo) => key == Some(Flatten(ServiceComponent(s)))
  }

  /** The first service in a list whose flattened component is the selected key. */
  function MatchingService(services: seq<ServiceInfo>, key: Option<string>): (r: Option<nat>)
    ensures r.Some? ==> r.value < |services| && key == Some(Flatten(ServiceComponent(services[r.value])))
    ensures r.Some? ==> forall j :: 0 <= j < r.value ==> key != Some(Flatten(ServiceComponent(services[j])))
    ensures r.None? ==> forall j :: 0 <= j < |services| ==> key != Some(Flatten(ServiceComponent(services[j])))
  {
    FirstIndex(services, Matches(key))
  }

  /** The intent a matched service yields: none when its settings activity is empty. */
  function SettingsIntent(s: ServiceInfo): (r: Option<Intent>)
    ensures r.None? <==> IsEmpty(s.settingsActivity)
    ensures r.Some? ==> (r.value.action == Some(ACTION_MAIN) &&
                         r.value.component == Some(ComponentName(s.packageName, s.settingsActivity.value)))
  {
    if IsEmpty(s.settingsActivity) then None
    else Some(ActionIntent(ACTION_MAIN).(component := Some(ComponentName(s.packageName, s.settingsActivity.value))))
  }

  /**
   * `AutofillSettingIntentProvider.getIntent`: the first matching service of the current list decides
   * (even when it yields nothing); only without one is the legacy list searched; no match yields null.
   */
  function GetIntent(key: Option<string>, services: seq<ServiceInfo>, oldServices: seq<ServiceInfo>): (r: Option<Intent>)
    ensures key.None? ==> r.None?
    ensures MatchingService(services, key).Some? ==> r == SettingsIntent(services[MatchingService(services, key).value])
    ensures MatchingService(services, key).None? && MatchingService(oldServices, key).None? ==> r.None?
    ensures r.Some? ==> exists s :: (s in services + oldServices && key == Some(Flatten(ServiceComponent(s))) &&
                                     r == SettingsIntent(s))
  {
    var i := MatchingService(services, key);
    if i.Some? then SettingsIntent(services[i.value])
    else
      var j := MatchingService(oldServices, key);
      if j.Some? then
        assert oldServices[j.value] in services + oldServices;
        SettingsIntent(oldServices[j.value])
      else None
  }

  /**
   * The two-phase search is a single first-match search over the current list followed by the legacy
   * list: the legacy list matters only when the current list has no match.
   */
  lemma GetIntentIsFirstMatch(key: Option<string>, services: seq<ServiceInfo>, oldServices: seq<ServiceInfo>)
    ensures var all := services + oldServices;
      var k := MatchingService(all, key);
      GetIntent(key, services, oldServices) == (if k.Some? then SettingsIntent(all[k.value]) else None)
  {
    var all := services + oldServices;
    if FirstIndex(services, Matches(key)).Some? {
      FirstIndexPrefix(services, oldServices, Matches(key));
      var i := FirstIndex(services, Matches(key)).value;
      assert all[i] == services[i];
    } else {
      FirstIndexAppend(services, oldServices, Matches(key));
      var j := FirstIndex(oldServices, Matches(key));
      if j.Some? {
        assert all[|services| + j.value] == oldServices[j.value];
      }
    }
  }

  /**
   * Package names hold no slash, so the selected key names one component: whatever service decides
   * the lookup, the intent it yields opens an activity in the selected component's package.
   */
  lemma GetIntentStaysInSelectedPackage(c: ComponentName, services: seq<ServiceInfo>, oldServices: seq<ServiceInfo>)
    requires WellFormedPackage(c)
    requires forall s :: s in services + oldServices ==> WellFormedPackage(ServiceComponent(s))
    ensures var r := GetIntent(Some(Flatten(c)), services, oldServices);
      r.Some? ==> r.value.component.Some? && r.value.component.value.packageName == c.packageName
  {
    var r := GetIntent(Some(Flatten(c)), services, oldServices);
    if r.Some? {
      var s :| s in services + oldServices && Some(Flatten(c)) == Some(Flatten(ServiceComponent(s))) &&
               r == SettingsIntent(s);
      FlattenInjective(c, ServiceComponent(s));
    }
  }

  /** The confirmation dialog's text, formatted with the candidate's label. */
  datatype ConfirmationMessage = AutofillConfirmation(appName: string)

  /** `getConfirmationMessage`: none for a null candidate, otherwise the message naming its label. */
  function GetConfirmationMessage(appInfo: Option<DefaultAppInfo>, labelOf: DefaultAppInfo -> string)
    : (r: Option<ConfirmationMessage>)
    ensures r.None? <==> appInfo.None?
    ensures r.Some? ==> r.value.appName == labelOf(appInfo.value)
  {
    if appInfo.None? then None else Some(AutofillConfirmation(labelOf(appInfo.value)))
  }

  /** The picker, holding the secure setting that stores the selected service's flattened component. */
  class DefaultAutofillPicker {
    var autofillService: Option<string>

    constructor (autofillService: Option<string>)
      ensures this.autofillService == autofillService
    {
      this.autofillService := autofillService;
    }

    /** `shouldShowItemNone`: the picker always offers "None". */
    function ShouldShowItemNone(): (r: bool)
      ensures r
    {
      true
    }

    /** `getDefaultAppKey`: the stored setting. */
    function GetDefaultAppKey(): (r: Option<string>)
      reads this
      ensures r == autofillService
    {
      autofillService
    }

    /** `setDefaultAppKey`: store the key (null clears it) and report success; reading it back gives the key. */
    method SetDefaultAppKey(key: Option<string>) returns (success: bool)
      modifies this
      ensures success && autofillService == key && GetDefaultAppKey() == key
    {
      autofillService := key;
      success := true;
    }
  }
}
