/**
 * Tile-driven refresh of the security screen: every tile that names a preference on the screen may
 * replace that preference's icon and summary with values fetched from the tile's content providers.
 */
module Security {
  import opened Common

  /** `Pair<String, Integer>` returned by the icon lookup: a package and a resource id in it. */
  datatype IconResource = IconResource(packageName: string, resId: int)

  /** The state of one preference on the screen, with the number of `setSummary` calls it received. */
  datatype SecurityPref = SecurityPref(icon: Option<IconResource>, summary: Option<string>, summarySets: nat)

  /**
   * The content-provider and package-manager lookups, passed in: the icon lookup for a package and a
   * URI, whether the icon's resources resolve (false stands for the two swallowed exceptions), and
   * the summary lookup for a URI.
   */
  datatype Providers = Providers(
    iconFromUri: (Option<string>, string) -> Option<IconResource>,
    resourcesResolve: IconResource -> bool,
    textFromUri: string -> Option<string>)

  /** The package whose icon the lookup may return: the intent's package, else its component's package. */
  function IconPackageName(intent: Option<Intent>): (r: Option<string>)
    ensures intent.Some? && !IsEmpty(intent.value.package) ==> r == intent.value.package
    ensures intent.Some? && IsEmpty(intent.value.package) && intent.value.component.Some? ==>
      r == Some(intent.value.component.value.packageName)
    ensures r.None? <==> intent.None? || (IsEmpty(intent.value.package) && intent.value.component.None?)
  {
    if intent.None? then None
    else if !IsEmpty(intent.value.package) then intent.value.package
    else if intent.value.component.Some? then Some(intent.value.component.value.packageName)
    else None
  }

  /** A tile is used only with a non-empty key, metadata, and a preference of that key on the screen. */
  predicate Applies(prefs: map<string, SecurityPref>, tile: Tile) {
    !IsEmpty(tile.key) && tile.metaData.Some? && tile.key.value in prefs
  }

  /** The icon after a tile with an icon URI: changed only if the lookup returns and the resources resolve. */
  function NewIcon(current: Option<IconResource>, tile: Tile, p: Providers): (r: Option<IconResource>)
    ensures IsEmpty(MetaString(tile, IconUriKey)) ==> r == current
    ensures !IsEmpty(MetaString(tile, IconUriKey)) ==>
      var found := p.iconFromUri(IconPackageName(tile.intent), MetaString(tile, IconUriKey).value);
      (found.Some? && p.resourcesResolve(found.value) ==> r == found) &&
      (!(found.Some? && p.resourcesResolve(found.value)) ==> r == current)
    ensures r != current ==> !IsEmpty(MetaString(tile, IconUriKey))
    ensures r != current ==>
      var found := p.iconFromUri(IconPackageName(tile.intent), MetaString(tile, IconUriKey).value);
      found.Some? && p.resourcesResolve(found.value) && r == found
  {
    var uri := MetaString(tile, IconUriKey);
    if IsEmpty(uri) then current
    else
      var found := p.iconFromUri(IconPackageName(tile.intent), uri.value);
      if found.Some? && p.resourcesResolve(found.value) then found else current
  }

  /** The summary after a tile with a summary URI: set to the fetched value, counting a call only on change. */
  function NewSummary(pref: SecurityPref, tile: Tile, p: Providers): (r: SecurityPref)
    ensures r.icon == pref.icon
    ensures IsEmpty(MetaString(tile, SummaryUriKey)) ==> r == pref
    ensures !IsEmpty(MetaString(tile, SummaryUriKey)) ==>
      var fetched := p.textFromUri(MetaString(tile, SummaryUriKey).value);
      r.summary == fetched &&
      r.summarySets == pref.summarySets + (if fetched == pref.summary then 0 else 1)
  {
    var uri := MetaString(tile, SummaryUriKey);
    if IsEmpty(uri) then pref
    else
      var summary := p.textFromUri(uri.value);
      if summary.None? then
        (if pref.summary.Some? then pref.(summary := summary, summarySets := pref.summarySets + 1) else pref)
      else if summary != pref.summary then pref.(summary := summary, summarySets := pref.summarySets + 1)
      else pref
  }

  /** The screen after one pass of the loop body for one tile. */
  function UpdateTile(prefs: map<string, SecurityPref>, tile: Tile, p: Providers): (r: map<string, SecurityPref>)
    ensures r.Keys == prefs.Keys
    ensures !Applies(prefs, tile) ==> r == prefs
    ensures forall k :: k in prefs && (!Applies(prefs, tile) || k != tile.key.value) ==> r[k] == prefs[k]
    ensures Applies(prefs, tile) ==>
      var before := prefs[tile.key.value];
      r[tile.key.value] == NewSummary(before.(icon := NewIcon(before.icon, tile, p)), tile, p)
  {
    if !Applies(prefs, tile) then prefs
    else
      var k := tile.key.value;
      var withIcon := prefs[k].(icon := NewIcon(prefs[k].icon, tile, p));
      prefs[k := NewSummary(withIcon, tile, p)]
  }

  /** The screen after the loop has processed `tiles`, in index order: the loop never adds or removes a preference. */
  function UpdateTiles(prefs: map<string, SecurityPref>, tiles: seq<Tile>, p: Providers): (r: map<string, SecurityPref>)
    ensures r.Keys == prefs.Keys
    decreases |tiles|
  {
    if tiles == [] then prefs
    else UpdateTile(UpdateTiles(prefs, tiles[..|tiles| - 1], p), tiles[|tiles| - 1], p)
  }

  /** A tile names a preference key the loop may touch. */
  predicate Names(tile: Tile, k: string) {
    tile.key == Some(k)
  }

  /** A preference no tile names keeps its icon, summary and call count. */
  lemma {:induction false} UnnamedPreferenceUnchanged(prefs: map<string, SecurityPref>, tiles: seq<Tile>,
                                                      p: Providers, k: string)
    requires k in prefs
    requires forall i :: 0 <= i < |tiles| ==> !Names(tiles[i], k)
    ensures k in UpdateTiles(prefs, tiles, p) && UpdateTiles(prefs, tiles, p)[k] == prefs[k]
    decreases |tiles|
  {
    if tiles != [] {
      UnnamedPreferenceUnchanged(prefs, tiles[..|tiles| - 1], p, k);
    }
  }

  /** A tile that fetches a summary for `k`. */
  predicate FetchesSummary(tile: Tile, k: string) {
    Names(tile, k) && k != "" && tile.metaData.Some? && !IsEmpty(MetaString(tile, SummaryUriKey))
  }

  /**
   * Processing is in index order: after the loop, a preference's summary is the value fetched for the
   * last tile that fetches a summary for it.
   */
  lemma {:induction false} LastSummaryWins(prefs: map<string, SecurityPref>, tiles: seq<Tile>, p: Providers,
                                           k: string, j: nat)
    requires k in prefs
    requires j < |tiles| && FetchesSummary(tiles[j], k)
    requires forall i :: j < i < |tiles| ==> !FetchesSummary(tiles[i], k)
    ensures k in UpdateTiles(prefs, tiles, p)
    ensures UpdateTiles(prefs, tiles, p)[k].summary == p.textFromUri(MetaString(tiles[j], SummaryUriKey).value)
    decreases |tiles|
  {
    var front := tiles[..|tiles| - 1];
    if j < |tiles| - 1 {
      LastSummaryWins(prefs, front, p, k, j);
      var last := tiles[|tiles| - 1];
      assert !FetchesSummary(last, k);
    }
  }

  class TrustAgentManager {
    constructor ()
    {
    }
  }

  /** The screen whose preferences `findPreference` looks up by key. */
  class PreferenceScreen {
    var prefs: map<string, SecurityPref>

    constructor (prefs: map<string, SecurityPref>)
      ensures this.prefs == prefs
    {
      this.prefs := prefs;
    }
  }

  class SecurityFeatureProvider {
    var trustAgentManager: TrustAgentManager?

    constructor ()
      ensures trustAgentManager == null
    {
      trustAgentManager := null;
    }

    /**
     * `updatePreferences`: nothing for a null screen or an empty category; otherwise every tile in
     * index order, skipping tiles without a key, without metadata, or without a matching preference.
     */
    method UpdatePreferences(screen: PreferenceScreen?, category: Option<DashboardCategory>, p: Providers)
      requires category.Some? ==> category.value.tiles.Some?
      modifies screen
      ensures screen != null && category.Some? ==>
        screen.prefs == UpdateTiles(old(screen.prefs), category.value.tiles.value, p)
      ensures screen != null && category.None? ==> screen.prefs == old(screen.prefs)
    {
      if screen == null {
        return;
      }
      var tilesCount := if category.Some? then |category.value.tiles.value| else 0;
      if tilesCount == 0 {
        return;
      }
      var tiles := category.value.tiles.value;
      var i := 0;
      while i < tilesCount
        invariant 0 <= i <= tilesCount
        invariant screen.prefs == UpdateTiles(old(screen.prefs), tiles[..i], p)
      {
        assert tiles[..i + 1][..i] == tiles[..i];
        var tile := tiles[i];
        if IsEmpty(tile.key) || tile.metaData.None? {
          i := i + 1;
          continue;
        }
        if tile.key.value !in screen.prefs {
          i := i + 1;
          continue;
        }
        var matching := screen.prefs[tile.key.value];
        var iconUri := MetaString(tile, IconUriKey);
        var summaryUri := MetaString(tile, SummaryUriKey);
        if !IsEmpty(iconUri) {
          var packageName: Option<string> := None;
          if tile.intent.Some? {
            var intent := tile.intent.value;
            if !IsEmpty(intent.package) {
              packageName := intent.package;
            } else if intent.component.Some? {
              packageName := Some(intent.component.value.packageName);
            }
          }
          assert packageName == IconPackageName(tile.intent);
          var icon := p.iconFromUri(packageName, iconUri.value);
          if icon.Some? && p.resourcesResolve(icon.value) {
            matching := matching.(icon := icon);
          }
        }
        ghost var withIcon := matching;
        assert withIcon == screen.prefs[tile.key.value].(icon := NewIcon(screen.prefs[tile.key.value].icon, tile, p));
        if !IsEmpty(summaryUri) {
          var summary := p.textFromUri(summaryUri.value);
          if summary.None? {
            if matching.summary.Some? {
              matching := matching.(summary := summary, summarySets := matching.summarySets + 1);
            }
          } else if summary != matching.summary {
            matching := matching.(summary := summary, summarySets := matching.summarySets + 1);
          }
        }
        assert matching == NewSummary(withIcon, tile, p);
        assert UpdateTile(screen.prefs, tile, p) == screen.prefs[tile.key.value := matching];
        screen.prefs := screen.prefs[tile.key.value := matching];
        i := i + 1;
      }
      assert tiles[..i] == tiles;
    }

    /** `getTrustAgentManager`: created on the first call, the same instance on every later call. */
    method GetTrustAgentManager() returns (m: TrustAgentManager)
      modifies this
      ensures old(trustAgentManager) != null ==> m == old(trustAgentManager)
      ensures old(trustAgentManager) == null ==> fresh(m)
      ensures trustAgentManager == m
    {
      if trustAgentManager == null {
        trustAgentManager := new TrustAgentManager();
      }
      m := trustAgentManager;
    }
  }

  /** Two calls hand out one instance. */
  method TrustAgentManagerIsShared(provider: SecurityFeatureProvider)
    returns (first: TrustAgentManager, second: TrustAgentManager)
    modifies provider
    ensures first == second == provider.trustAgentManager
  {
    first := provider.GetTrustAgentManager();
    second := provider.GetTrustAgentManager();
  }
}
