/**
 * The dashboard tile registry: the key of a tile, binding a tile to a preference, the display
 * order computed from the tile's priority, and resolving a tap on a tile into a launch, a launch
 * as one user, or a profile-selection dialog, with a metrics record per launch.
 */
module Dashboard {
  import opened Common

  const DASHBOARD_TILE_PREF_KEY_PREFIX := "dashboard_tile_pref_"
  /** `Preference.DEFAULT_ORDER`, which is `Integer.MAX_VALUE`. */
  const DEFAULT_ORDER := 2147483647
  /** `Settings.ACTION_SETTINGS`: the Settings home screen. */
  const ACTION_SETTINGS := "android.settings.SETTINGS"
  /** `SettingsDrawerActivity.EXTRA_SHOW_MENU`. */
  const EXTRA_SHOW_MENU := "show_drawer_menu"

  /** What a click on a bound preference does: launch the tile's (copied) intent or ask for a profile. */
  datatype ClickListener = LaunchOnClick(tile: Tile, intent: Intent)

  /** The preference fields `bindPreferenceToTile` writes. */
  datatype Preference = Preference(
    title: Option<string>,
    key: Option<string>,
    summary: Option<string>,
    icon: Option<TileIcon>,
    fragment: Option<string>,
    listener: Option<ClickListener>,
    order: int)

  /** `new Preference(context)`: nothing set, order `DEFAULT_ORDER`. */
  function NewPreference(): (p: Preference)
    ensures p.order == DEFAULT_ORDER && p.listener.None? && p.fragment.None?
  {
    Preference(None, None, None, None, None, None, DEFAULT_ORDER)
  }

  // ---------------------------------------------------------------- keys

  /** The key can be derived without dereferencing a null component. */
  predicate KeyDerivable(tile: Tile) {
    tile.intent.Some? && IsEmpty(tile.key) ==> tile.intent.value.component.Some?
  }

  /** `getDashboardKeyForTile`. */
  function DashboardKeyForTile(tile: Option<Tile>): (r: Option<string>)
    requires tile.Some? ==> KeyDerivable(tile.value)
    ensures r.None? <==> tile.None? || tile.value.intent.None?
  {
    if tile.None? || tile.value.intent.None? then None
    else if !IsEmpty(tile.value.key) then tile.value.key
    else Some(DASHBOARD_TILE_PREF_KEY_PREFIX + tile.value.intent.value.component.value.className)
  }

  /** A tile without an intent has no key, even when it declares one. */
  lemma KeyNeedsIntent(tile: Tile)
    requires tile.intent.None?
    ensures DashboardKeyForTile(Some(tile)) == None
  {
  }

  /** With an intent, a declared non-empty key is returned unchanged. */
  lemma DeclaredKeyWins(tile: Tile)
    requires tile.intent.Some? && !IsEmpty(tile.key)
    ensures DashboardKeyForTile(Some(tile)) == tile.key
  {
  }

  /** The part of a derived key after the namespace prefix. */
  function DerivedKeyClassName(k: string): (r: string)
    requires |DASHBOARD_TILE_PREF_KEY_PREFIX| <= |k|
    ensures |r| == |k| - |DASHBOARD_TILE_PREF_KEY_PREFIX|
  {
    k[|DASHBOARD_TILE_PREF_KEY_PREFIX|..]
  }

  /**
   * A derived key starts with the prefix and gives back the component's class name; so two keyless
   * tiles get the same key exactly when their components name the same class.
   */
  lemma DerivedKeyNamesClass(t1: Tile, t2: Tile)
    requires KeyDerivable(t1) && KeyDerivable(t2)
    requires t1.intent.Some? && IsEmpty(t1.key) && t2.intent.Some? && IsEmpty(t2.key)
    ensures DashboardKeyForTile(Some(t1)).Some?
    ensures var k := DashboardKeyForTile(Some(t1)).value;
      k[..|DASHBOARD_TILE_PREF_KEY_PREFIX|] == DASHBOARD_TILE_PREF_KEY_PREFIX &&
      DerivedKeyClassName(k) == t1.intent.value.component.value.className
    ensures DashboardKeyForTile(Some(t1)) == DashboardKeyForTile(Some(t2)) <==>
      t1.intent.value.component.value.className == t2.intent.value.component.value.className
  {
    var c1 := t1.intent.value.component.value.className;
    var c2 := t2.intent.value.component.value.className;
    var k1 := DASHBOARD_TILE_PREF_KEY_PREFIX + c1;
    var k2 := DASHBOARD_TILE_PREF_KEY_PREFIX + c2;
    assert k1[|DASHBOARD_TILE_PREF_KEY_PREFIX|..] == c1;
    assert k2[|DASHBOARD_TILE_PREF_KEY_PREFIX|..] == c2;
  }

  // ---------------------------------------------------------------- order

  /** `getPriorityGroup`: Java's `order / 100`, which truncates toward zero. */
  function PriorityGroup(order: int): (g: int)
    ensures -100 < order - 100 * g < 100
    ensures 0 <= order ==> 0 <= 100 * g <= order
    ensures order <= 0 ==> order <= 100 * g <= 0
  {
    if order >= 0 then order / 100 else -((-order) / 100)
  }

  /** The three facts above pin the group down: they are exactly truncating division. */
  lemma PriorityGroupUnique(order: int, g: int)
    requires -100 < order - 100 * g < 100
    requires 0 <= order ==> 0 <= 100 * g <= order
    requires order <= 0 ==> order <= 100 * g <= 0
    ensures g == PriorityGroup(order)
  {
  }

  /** For a negative order that is not a multiple of 100, the group is one above Dafny's floor division. */
  lemma PriorityGroupTruncatesNegative()
    ensures PriorityGroup(-150) == -1 && -150 / 100 == -2
  {
  }

  /** The same-package check dereferences the component of a non-null intent when the priority is not 0. */
  predicate OrderDefined(tile: Tile) {
    tile.priority != 0 && tile.intent.Some? ==> tile.intent.value.component.Some?
  }

  /** The tile's component belongs to the activity's own package, so no base offset applies. */
  predicate SkipsBaseOrderOffset(tile: Tile, activityPackage: string)
    requires OrderDefined(tile)
    requires tile.priority != 0
  {
    tile.intent.Some? && activityPackage == tile.intent.value.component.value.packageName
  }

  /** The order a bound preference ends with, given the order it had before. */
  function TileOrder(tile: Tile, baseOrder: int, activityPackage: string, current: int): (r: int)
    requires OrderDefined(tile)
    ensures tile.priority == 0 ==> r == current
    ensures tile.priority != 0 ==>
      (r == -tile.priority || (r == -tile.priority + baseOrder && baseOrder != DEFAULT_ORDER))
  {
    if tile.priority == 0 then current
    else if SkipsBaseOrderOffset(tile, activityPackage) || baseOrder == DEFAULT_ORDER then -tile.priority
    else -tile.priority + baseOrder
  }

  /** The offset a non-zero priority tile receives on top of its negated priority. */
  function OrderOffset(tile: Tile, baseOrder: int, activityPackage: string): int
    requires OrderDefined(tile) && tile.priority != 0
  {
    if SkipsBaseOrderOffset(tile, activityPackage) || baseOrder == DEFAULT_ORDER then 0 else baseOrder
  }

  /**
   * Priority inversion: between two prioritised tiles that receive the same offset, the one with the
   * larger priority gets the smaller order; no clamping is applied.
   */
  lemma PriorityInversion(t1: Tile, t2: Tile, baseOrder: int, pkg: string, c1: int, c2: int)
    requires OrderDefined(t1) && OrderDefined(t2)
    requires t1.priority != 0 && t2.priority != 0
    requires OrderOffset(t1, baseOrder, pkg) == OrderOffset(t2, baseOrder, pkg)
    ensures t1.priority > t2.priority <==> TileOrder(t1, baseOrder, pkg, c1) < TileOrder(t2, baseOrder, pkg, c2)
    ensures TileOrder(t1, baseOrder, pkg, c1) == -t1.priority + OrderOffset(t1, baseOrder, pkg)
  {
  }

  /** A tile of the activity's own package ignores the base order. */
  lemma SamePackageIgnoresBaseOrder(tile: Tile, baseOrder: int, current: int)
    requires OrderDefined(tile) && tile.priority != 0 && tile.intent.Some?
    ensures TileOrder(tile, baseOrder, tile.intent.value.component.value.packageName, current) == -tile.priority
  {
  }

  /** A tile of another package with a concrete base order is shifted by it. */
  lemma OtherPackageShiftedByBaseOrder(tile: Tile, baseOrder: int, pkg: string, current: int)
    requires OrderDefined(tile) && tile.priority != 0 && baseOrder != DEFAULT_ORDER
    requires tile.intent.None? || tile.intent.value.component.value.packageName != pkg
    ensures TileOrder(tile, baseOrder, pkg, current) == -tile.priority + baseOrder
  {
  }

  // ---------------------------------------------------------------- binding

  /** The fragment class named by the tile's metadata. */
  function FragmentClass(tile: Tile): Option<string> {
    MetaString(tile, FragmentClassKey)
  }

  /** The copy of the tile's intent a click listener launches: the action is overridden only by a non-null metadata action. */
  function ListenerIntent(tile: Tile): (r: Intent)
    requires tile.intent.Some?
    ensures r.(action := tile.intent.value.action) == tile.intent.value
    ensures MetaString(tile, IntentActionKey).None? ==> r == tile.intent.value
    ensures MetaString(tile, IntentActionKey).Some? ==> r.action == MetaString(tile, IntentActionKey)
  {
    var action := MetaString(tile, IntentActionKey);
    if action.Some? then tile.intent.value.(action := action) else tile.intent.value
  }

  /** What `bindPreferenceToTile` needs to run without a null dereference. */
  predicate Bindable(tile: Tile, key: Option<string>) {
    (IsEmpty(key) ==> KeyDerivable(tile)) && OrderDefined(tile)
  }

  /** `bindPreferenceToTile`: the preference after the binder has written it. */
  function BindPreferenceToTile(pref: Preference, tile: Tile, key: Option<string>, baseOrder: int,
                                activityPackage: string): (r: Preference)
    requires Bindable(tile, key)
    // title and summary are copied unchanged; a non-empty caller key overrides the derived one
    ensures r.title == tile.title && r.summary == tile.summary
    ensures !IsEmpty(key) ==> r.key == key
    ensures IsEmpty(key) ==> r.key == DashboardKeyForTile(Some(tile))
    ensures r.icon == if tile.icon.Some? then tile.icon else pref.icon
    // a fragment wins and installs no listener
    ensures !IsEmpty(FragmentClass(tile)) ==> r.fragment == FragmentClass(tile) && r.listener == pref.listener
    // otherwise an intent installs a listener on its copy
    ensures IsEmpty(FragmentClass(tile)) && tile.intent.Some? ==>
      r.fragment == pref.fragment && r.listener == Some(LaunchOnClick(tile, ListenerIntent(tile)))
    // with neither, no destination is bound
    ensures IsEmpty(FragmentClass(tile)) && tile.intent.None? ==>
      r.fragment == pref.fragment && r.listener == pref.listener
    ensures r.order == TileOrder(tile, baseOrder, activityPackage, pref.order)
  {
    var keyed := pref.(title := tile.title,
                       key := if !IsEmpty(key) then key else DashboardKeyForTile(Some(tile)),
                       summary := tile.summary);
    var withIcon := if tile.icon.Some? then keyed.(icon := tile.icon) else keyed;
    var bound :=
      if !IsEmpty(FragmentClass(tile)) then withIcon.(fragment := FragmentClass(tile))
      else if tile.intent.Some? then withIcon.(listener := Some(LaunchOnClick(tile, ListenerIntent(tile))))
      else withIcon;
    bound.(order := TileOrder(tile, baseOrder, activityPackage, pref.order))
  }

  /** Binding writes only values taken from the tile and the arguments, so binding twice changes nothing more. */
  lemma BindIdempotent(pref: Preference, tile: Tile, key: Option<string>, baseOrder: int, pkg: string)
    requires Bindable(tile, key)
    ensures var once := BindPreferenceToTile(pref, tile, key, baseOrder, pkg);
      BindPreferenceToTile(once, tile, key, baseOrder, pkg) == once
  {
  }

  /** A tile with neither a fragment nor an intent never gets a click listener on a fresh preference. */
  lemma NoDestinationNoListener(tile: Tile, key: Option<string>, baseOrder: int, pkg: string)
    requires Bindable(tile, key)
    requires IsEmpty(FragmentClass(tile)) && tile.intent.None?
    ensures BindPreferenceToTile(NewPreference(), tile, key, baseOrder, pkg).listener.None?
    ensures BindPreferenceToTile(NewPreference(), tile, key, baseOrder, pkg).fragment.None?
  {
  }

  /** The tiles of a category can all be bound with a null key. */
  predicate AllBindable(tiles: seq<Tile>) {
    forall i :: 0 <= i < |tiles| ==> Bindable(tiles[i], None)
  }

  /**
   * `getPreferencesForCategory`: null for a missing category or a null or empty tile list, otherwise
   * one fresh preference per tile, in tile order, bound with a null key and `DEFAULT_ORDER`.
   */
  method GetPreferencesForCategory(category: Option<DashboardCategory>, activityPackage: string)
    returns (prefs: Option<seq<Preference>>)
    requires category.Some? && category.value.tiles.Some? ==> AllBindable(category.value.tiles.value)
    ensures prefs.None? <==> category.None? || category.value.tiles.None? || |category.value.tiles.value| == 0
    ensures prefs.Some? ==> |prefs.value| == |category.value.tiles.value|
    ensures prefs.Some? ==> forall i :: 0 <= i < |prefs.value| ==>
      prefs.value[i] == BindPreferenceToTile(NewPreference(), category.value.tiles.value[i], None,
                                             DEFAULT_ORDER, activityPackage)
    ensures prefs.Some? ==> forall i :: 0 <= i < |prefs.value| ==>
      var t := category.value.tiles.value[i];
      prefs.value[i].key == DashboardKeyForTile(Some(t)) &&
      prefs.value[i].order == (if t.priority == 0 then DEFAULT_ORDER else -t.priority)
  {
    if category.None? {
      return None;
    }
    var tiles := category.value.tiles;
    if tiles.None? || |tiles.value| == 0 {
      return None;
    }
    var ts := tiles.value;
    var out: seq<Preference> := [];
    var i := 0;
    while i < |ts|
      invariant 0 <= i <= |ts|
      invariant |out| == i
      invariant forall j :: 0 <= j < i ==>
        out[j] == BindPreferenceToTile(NewPreference(), ts[j], None, DEFAULT_ORDER, activityPackage)
    {
      var pref := BindPreferenceToTile(NewPreference(), ts[i], None, DEFAULT_ORDER, activityPackage);
      out := out + [pref];
      i := i + 1;
    }
    prefs := Some(out);
  }

  // ---------------------------------------------------------------- launching

  /** Observable effects of a tap: activity starts, the profile dialog, and metrics records. */
  datatype Effect =
    | StartActivityForResult(intent: Intent)
    | StartActivityForResultAsUser(intent: Intent, user: UserHandle)
    | ShowProfileSelectDialog(tile: Tile)
    | ContextStartActivity(intent: Intent)
    | TileClickMetric(component: string)

  /** `logStartActivity`: one record holding the flattened component, and none without a component. */
  function LogEffects(intent: Option<Intent>): (r: seq<Effect>)
    ensures |r| <= 1
    ensures |r| == 1 <==> intent.Some? && intent.value.component.Some?
    ensures |r| == 1 ==> r[0] == TileClickMetric(Flatten(intent.value.component.value))
  {
    if intent.None? || intent.value.component.None? then []
    else [TileClickMetric(Flatten(intent.value.component.value))]
  }

  predicate IsStart(e: Effect) {
    e.StartActivityForResult? || e.StartActivityForResultAsUser?
  }

  /**
   * `launchIntentOrSelectProfile`: a null handle list starts directly, a single handle starts as that
   * user, and every other size (the empty list included) shows the profile dialog instead.
   */
  function LaunchEffects(tile: Tile, intent: Intent): (r: seq<Effect>)
    ensures 1 <= |r| <= 2
    ensures r[|r| - 1].ShowProfileSelectDialog? <==> tile.userHandle.Some? && |tile.userHandle.value| != 1
    ensures tile.userHandle.None? ==> r[|r| - 1] == StartActivityForResult(intent)
    ensures tile.userHandle.Some? && |tile.userHandle.value| == 1 ==>
      r[|r| - 1] == StartActivityForResultAsUser(intent, tile.userHandle.value[0])
    ensures r[|r| - 1].ShowProfileSelectDialog? ==> r == [ShowProfileSelectDialog(tile)]
    ensures IsStart(r[|r| - 1]) ==> r[..|r| - 1] == LogEffects(Some(intent))
  {
    if tile.userHandle.None? then
      LogEffects(Some(intent)) + [StartActivityForResult(intent)]
    else if |tile.userHandle.value| == 1 then
      LogEffects(Some(intent)) + [StartActivityForResultAsUser(intent, tile.userHandle.value[0])]
    else
      [ShowProfileSelectDialog(tile)]
  }

  /** The number of metrics records in a trace: none exactly when no entry is a metrics record. */
  function CountMetrics(effects: seq<Effect>): (n: nat)
    ensures n <= |effects|
    ensures n == 0 <==> forall i :: 0 <= i < |effects| ==> !effects[i].TileClickMetric?
    decreases |effects|
  {
    if effects == [] then 0
    else CountMetrics(effects[..|effects| - 1]) + (if effects[|effects| - 1].TileClickMetric? then 1 else 0)
  }

  /** Exactly one metrics record accompanies a start of an intent with a component; a dialog logs nothing. */
  lemma {:induction false} LaunchLogsOnce(tile: Tile, intent: Intent)
    ensures var r := LaunchEffects(tile, intent);
      CountMetrics(r) == (if IsStart(r[|r| - 1]) && intent.component.Some? then 1 else 0)
  {
    var r := LaunchEffects(tile, intent);
    if |r| == 2 {
      assert r[..1] == [r[0]] && [r[0]][..0] == [];
    } else {
      assert r[..0] == [];
    }
  }

  /** An empty handle list shows the dialog rather than launching directly. */
  lemma EmptyHandleListShowsDialog(tile: Tile, intent: Intent)
    requires tile.userHandle == Some([])
    ensures LaunchEffects(tile, intent) == [ShowProfileSelectDialog(tile)]
  {
  }

  /** The Settings home intent started for a null tile. */
  function SettingsHomeIntent(): (r: Intent)
    ensures r.action == Some(ACTION_SETTINGS) && r.flags == {FlagActivityClearTask}
  {
    ActionIntent(ACTION_SETTINGS).(flags := {FlagActivityClearTask})
  }

  /** The copy of a tile's intent that `openTileIntent` dispatches. */
  function ShowMenuIntent(intent: Intent): (r: Intent)
    ensures r.extras == intent.extras[EXTRA_SHOW_MENU := BoolExtra(true)]
    ensures r.flags == intent.flags + {FlagActivityClearTask}
    ensures r.action == intent.action && r.component == intent.component && r.package == intent.package
  {
    intent.(extras := intent.extras[EXTRA_SHOW_MENU := BoolExtra(true)],
            flags := intent.flags + {FlagActivityClearTask})
  }

  /** `openTileIntent`: the home screen for a null tile, nothing for a null intent, else launch dispatch. */
  function OpenTileEffects(tile: Option<Tile>): (r: seq<Effect>)
    ensures tile.None? ==> r == [ContextStartActivity(SettingsHomeIntent())]
    ensures tile.Some? && tile.value.intent.None? ==> r == []
    ensures tile.Some? && tile.value.intent.Some? ==>
      r == LaunchEffects(tile.value, ShowMenuIntent(tile.value.intent.value))
  {
    if tile.None? then [ContextStartActivity(SettingsHomeIntent())]
    else if tile.value.intent.None? then []
    else LaunchEffects(tile.value, ShowMenuIntent(tile.value.intent.value))
  }

  /** Every intent `openTileIntent` starts carries the show-menu extra and the clear-task flag. */
  lemma OpenedIntentsShowMenu(tile: Tile)
    requires tile.intent.Some?
    ensures var r := OpenTileEffects(Some(tile));
      forall k :: 0 <= k < |r| && IsStart(r[k]) ==>
        r[k].intent.extras[EXTRA_SHOW_MENU] == BoolExtra(true) &&
        FlagActivityClearTask in r[k].intent.flags &&
        r[k].intent.component == tile.intent.value.component
  {
  }

  /**
   * The provider, reduced to the trace of effects it has produced. The trace stands for the activity
   * starts, the profile dialog and the metrics provider's records.
   */
  class DashboardFeatureProvider {
    var trace: seq<Effect>

    constructor ()
      ensures trace == []
    {
      trace := [];
    }

    /** `isEnabled`: the dashboard is always on. */
    function IsEnabled(): (r: bool)
      ensures r
    {
      true
    }

    /** `logStartActivity`. */
    method LogStartActivity(intent: Option<Intent>)
      modifies this
      ensures trace == old(trace) + LogEffects(intent)
    {
      if intent.None? {
        return;
      }
      var cn := intent.value.component;
      if cn.None? {
        return;
      }
      trace := trace + [TileClickMetric(Flatten(cn.value))];
    }

    /** `launchIntentOrSelectProfile`, with the tile's handle list already updated by the profile dialog helper. */
    method LaunchIntentOrSelectProfile(tile: Tile, intent: Intent)
      modifies this
      ensures trace == old(trace) + LaunchEffects(tile, intent)
    {
      if tile.userHandle.None? {
        LogStartActivity(Some(intent));
        trace := trace + [StartActivityForResult(intent)];
      } else if |tile.userHandle.value| == 1 {
        LogStartActivity(Some(intent));
        trace := trace + [StartActivityForResultAsUser(intent, tile.userHandle.value[0])];
      } else {
        trace := trace + [ShowProfileSelectDialog(tile)];
      }
    }

    /** `openTileIntent`. */
    method OpenTileIntent(tile: Option<Tile>)
      modifies this
      ensures trace == old(trace) + OpenTileEffects(tile)
    {
      if tile.None? {
        trace := trace + [ContextStartActivity(SettingsHomeIntent())];
        return;
      }
      if tile.value.intent.None? {
        return;
      }
      var intent := ShowMenuIntent(tile.value.intent.value);
      LaunchIntentOrSelectProfile(tile.value, intent);
    }

    /** The click listener installed by the binder: launch dispatch on the captured copy, then `true`. */
    method OnPreferenceClick(listener: ClickListener) returns (handled: bool)
      modifies this
      ensures handled
      ensures trace == old(trace) + LaunchEffects(listener.tile, listener.intent)
    {
      LaunchIntentOrSelectProfile(listener.tile, listener.intent);
      handled := true;
    }
  }
}
