/**
 * Per-app notification settings: the app's notification-settings activity chosen from the
 * resolved activities (first one per package wins), the channel and group orderings, the
 * preferences built for each channel, and the visibility of the channel list and badge toggle.
 */
module Notification {
  import opened Common

  /** `Notification.INTENT_CATEGORY_NOTIFICATION_PREFERENCES`. */
  const CATEGORY_NOTIFICATION_PREFERENCES := "android.intent.category.NOTIFICATION_PREFERENCES"

  /** `NotificationBackend.AppRow`, reduced to the fields this screen reads or writes. */
  datatype AppRow = AppRow(pkg: string, banned: bool, systemApp: bool, showBadge: bool,
                           settingsIntent: Option<Intent>)

  /** The `activityInfo` of a resolved activity: its class, its package, and its application's package. */
  datatype ActivityInfo = ActivityInfo(name: string, packageName: string, appPackageName: string)

  // ---------------------------------------------------------------- config activities

  /** The app-notification-preferences intent pointed at one activity. */
  function ConfigIntent(info: ActivityInfo): (r: Intent)
    ensures r.action == Some(ACTION_MAIN) && r.categories == {CATEGORY_NOTIFICATION_PREFERENCES}
    ensures r.component == Some(ComponentName(info.packageName, info.name))
  {
    ActionIntent(ACTION_MAIN).(categories := {CATEGORY_NOTIFICATION_PREFERENCES},
                               component := Some(ComponentName(info.packageName, info.name)))
  }

  /** The first resolved activity whose application is `pkg`. */
  function FirstConfigActivity(infos: seq<ActivityInfo>, pkg: string): (r: Option<nat>)
    ensures r.Some? ==> r.value < |infos| && infos[r.value].appPackageName == pkg
    ensures r.Some? ==> forall j :: 0 <= j < r.value ==> infos[j].appPackageName != pkg
    ensures r.None? ==> forall j :: 0 <= j < |infos| ==> infos[j].appPackageName != pkg
  {
    FirstIndex(infos, (info: ActivityInfo) => info.appPackageName == pkg)
  }

  /**
   * A row after the loop: only its settings intent can change; a row that already had an intent, or
   * has no matching activity, is unchanged; otherwise it gets the first activity of its package.
   */
  function WithConfigActivity(row: AppRow, pkg: string, infos: seq<ActivityInfo>): (r: AppRow)
    ensures r.(settingsIntent := row.settingsIntent) == row
    ensures row.settingsIntent.Some? ==> r == row
    ensures row.settingsIntent.None? ==>
      (r.settingsIntent.Some? <==> exists j :: 0 <= j < |infos| && infos[j].appPackageName == pkg)
    ensures row.settingsIntent.None? && r.settingsIntent.Some? ==>
      exists j :: (0 <= j < |infos| && infos[j].appPackageName == pkg &&
                   r.settingsIntent == Some(ConfigIntent(infos[j])) &&
                   forall i :: 0 <= i < j ==> infos[i].appPackageName != pkg)
  {
    if row.settingsIntent.Some? then row
    else
      var first := FirstConfigActivity(infos, pkg);
      if first.None? then row else row.(settingsIntent := Some(ConfigIntent(infos[first.value])))
  }

  /**
   * `applyConfigActivities`: entries whose package has no row are ignored, and the first activity
   * of each package is the one assigned; the rows are modelled as values, so the method returns them.
   */
  method ApplyConfigActivities(rows: map<string, AppRow>, infos: seq<ActivityInfo>)
    returns (out: map<string, AppRow>)
    ensures out.Keys == rows.Keys
    ensures forall pkg :: pkg in rows ==> out[pkg] == WithConfigActivity(rows[pkg], pkg, infos)
  {
    out := rows;
    var i := 0;
    while i < |infos|
      invariant 0 <= i <= |infos|
      invariant out.Keys == rows.Keys
      invariant forall pkg :: pkg in rows ==> out[pkg] == WithConfigActivity(rows[pkg], pkg, infos[..i])
    {
      assert infos[..i + 1][..i] == infos[..i];
      var info := infos[i];
      var pkg := info.appPackageName;
      if pkg in out {
        var row := out[pkg];
        if row.settingsIntent.None? {
          out := out[pkg := row.(settingsIntent := Some(ConfigIntent(info)))];
        }
      }
      i := i + 1;
    }
    assert infos[..i] == infos;
  }

  /**
   * When several activities of one package resolve, the row gets the intent of one that precedes
   * every later match: a later activity of the same package is never the one assigned.
   */
  lemma FirstConfigActivityWins(row: AppRow, pkg: string, infos: seq<ActivityInfo>, later: nat)
    requires row.settingsIntent.None?
    requires later < |infos| && infos[later].appPackageName == pkg
    requires exists j :: 0 <= j < later && infos[j].appPackageName == pkg
    ensures exists j :: (0 <= j < later && infos[j].appPackageName == pkg &&
                         WithConfigActivity(row, pkg, infos).settingsIntent == Some(ConfigIntent(infos[j])))
  {
    var first := FirstConfigActivity(infos, pkg).value;
    assert 0 <= first < later;
  }

  // ---------------------------------------------------------------- comparators

  /** The sign of a comparator result. */
  function Sign(x: int): (s: int)
    ensures s == -1 || s == 0 || s == 1
    ensures (s < 0 <==> x < 0) && (s > 0 <==> x > 0)
  {
    if x < 0 then -1 else if x > 0 then 1 else 0
  }

  /** `String.compareTo`: the difference of the first differing characters, else of the lengths. */
  function JavaCompareTo(a: string, b: string): (r: int)
    ensures (forall k :: 0 <= k < |a| && k < |b| ==> a[k] == b[k]) ==> r == |a| - |b|
    ensures forall k :: 0 <= k < |a| && k < |b| && a[k] != b[k] && a[..k] == b[..k] ==>
      r == a[k] as int - b[k] as int
    decreases |a|
  {
    if a == [] || b == [] then |a| - |b|
    else if a[0] != b[0] then a[0] as int - b[0] as int
    else
      assert forall k :: 0 < k < |a| && k < |b| && a[k] != b[k] && a[..k] == b[..k] ==>
        a[1..][k - 1] != b[1..][k - 1] && a[1..][..k - 1] == b[1..][..k - 1];
      JavaCompareTo(a[1..], b[1..])
  }

  /** `compareTo` is antisymmetric and is zero exactly on equal strings. */
  lemma {:induction false} JavaCompareToProperties(a: string, b: string)
    ensures JavaCompareTo(a, b) == -JavaCompareTo(b, a)
    ensures JavaCompareTo(a, b) == 0 <==> a == b
    decreases |a|
  {
    if a != [] && b != [] && a[0] == b[0] {
      JavaCompareToProperties(a[1..], b[1..]);
      assert a == [a[0]] + a[1..] && b == [b[0]] + b[1..];
    }
  }

  /** `Boolean.compare`: false before true. */
  function BooleanCompare(x: bool, y: bool): (r: int)
    ensures r == 0 <==> x == y
    ensures r < 0 <==> !x && y
  {
    if x == y then 0 else if x then 1 else -1
  }

  datatype Channel = Channel(id: Option<string>, name: Option<string>, deleted: bool)
  datatype ChannelGroup = ChannelGroup(id: Option<string>, name: Option<string>, channels: seq<Channel>)

  /** The channel comparator reaches the collator only with two names, and `compareTo` only with two ids. */
  predicate ChannelsComparable(l: Channel, r: Channel) {
    l.deleted != r.deleted ||
    ((l.name != r.name ==> l.name.Some? && r.name.Some?) &&
     (l.name == r.name ==> l.id.Some? && r.id.Some?))
  }

  /** `mChannelComparator`: non-deleted first, then by name under the collator, then by id. */
  function CompareChannels(collate: (string, string) -> int, l: Channel, r: Channel): (c: int)
    requires ChannelsComparable(l, r)
    ensures l.deleted != r.deleted ==> (c < 0 <==> r.deleted)
    ensures l.deleted == r.deleted && l.name != r.name ==> c == collate(l.name.value, r.name.value)
    ensures l.deleted == r.deleted && l.name == r.name ==>
      c == JavaCompareTo(l.id.value, r.id.value) && (c == 0 <==> l.id == r.id)
  {
    if l.deleted != r.deleted then BooleanCompare(l.deleted, r.deleted)
    else if l.name != r.name then collate(l.name.value, r.name.value)
    else
      JavaCompareToProperties(l.id.value, r.id.value);
      JavaCompareTo(l.id.value, r.id.value)
  }

  /** A collator that is antisymmetric on two names makes the channel order antisymmetric. */
  lemma ChannelOrderAntisymmetric(collate: (string, string) -> int, l: Channel, r: Channel)
    requires ChannelsComparable(l, r)
    requires l.name.Some? && r.name.Some? ==>
      Sign(collate(l.name.value, r.name.value)) == -Sign(collate(r.name.value, l.name.value))
    ensures ChannelsComparable(r, l)
    ensures Sign(CompareChannels(collate, l, r)) == -Sign(CompareChannels(collate, r, l))
  {
    if l.deleted == r.deleted && l.name == r.name {
      JavaCompareToProperties(l.id.value, r.id.value);
    }
  }

  /** The group comparator reaches the collator only with two names, and `compareTo` only with a left id. */
  predicate GroupsComparable(l: ChannelGroup, r: ChannelGroup) {
    (l.id.None? != r.id.None?) ||
    ((l.name != r.name ==> l.name.Some? && r.name.Some?) &&
     (l.name == r.name ==> l.id.Some? && r.id.Some?))
  }

  /**
   * `mChannelGroupComparator`: a group with a null id is greater than one with an id (so it sorts
   * last, whatever the comment in the source says), then by name under the collator, then by id.
   */
  function CompareGroups(collate: (string, string) -> int, l: ChannelGroup, r: ChannelGroup): (c: int)
    requires GroupsComparable(l, r)
    ensures l.id.None? && r.id.Some? ==> c == 1
    ensures l.id.Some? && r.id.None? ==> c == -1
    ensures l.id.None? == r.id.None? && l.name != r.name ==> c == collate(l.name.value, r.name.value)
    ensures l.id.None? == r.id.None? && l.name == r.name ==>
      c == JavaCompareTo(l.id.value, r.id.value) && (c == 0 <==> l.id == r.id)
  {
    if l.id.None? && r.id.Some? then 1
    else if r.id.None? && l.id.Some? then -1
    else if l.name != r.name then collate(l.name.value, r.name.value)
    else
      JavaCompareToProperties(l.id.value, r.id.value);
      JavaCompareTo(l.id.value, r.id.value)
  }

  /** The placeholder group (null id) orders after every group with an id, from either side. */
  lemma NullIdGroupSortsLast(collate: (string, string) -> int, placeholder: ChannelGroup, g: ChannelGroup)
    requires placeholder.id.None? && g.id.Some?
    ensures GroupsComparable(placeholder, g) && GroupsComparable(g, placeholder)
    ensures CompareGroups(collate, placeholder, g) > 0 && CompareGroups(collate, g, placeholder) < 0
  {
  }

  /** A collator that is antisymmetric on two names makes the group order antisymmetric. */
  lemma GroupOrderAntisymmetric(collate: (string, string) -> int, l: ChannelGroup, r: ChannelGroup)
    requires GroupsComparable(l, r)
    requires l.name.Some? && r.name.Some? ==>
      Sign(collate(l.name.value, r.name.value)) == -Sign(collate(r.name.value, l.name.value))
    ensures GroupsComparable(r, l)
    ensures Sign(CompareGroups(collate, l, r)) == -Sign(CompareGroups(collate, r, l))
  {
    if l.id.None? == r.id.None? && l.name == r.name {
      JavaCompareToProperties(l.id.value, r.id.value);
    }
  }

  // ---------------------------------------------------------------- channel preferences

  /** The title a channel preference shows. */
  datatype PrefTitle = ChannelName(name: Option<string>) | DeletedChannelName(name: Option<string>) | NoChannelsTitle

  /** The arguments of the channel-settings screen a live channel opens. */
  datatype ChannelArgs = ChannelArgs(uid: int, hideInfoButton: bool, packageName: string, channelId: Option<string>)

  datatype ChannelPref = ChannelPref(key: Option<string>, title: PrefTitle, enabled: bool, args: Option<ChannelArgs>)

  /** A category for one named group and the channel preferences added to it. */
  datatype GroupCategory = GroupCategory(key: string, title: string, prefs: seq<ChannelPref>)

  /** What the screen ends with: the group categories in order, and the default "channels" category. */
  datatype ChannelLayout = ChannelLayout(groupCategories: seq<GroupCategory>, channels: seq<ChannelPref>)

  /** The single disabled entry shown when the app has no channel groups. */
  function NoChannelsPref(): (r: ChannelPref)
    ensures !r.enabled && r.args.None? && r.title == NoChannelsTitle
  {
    ChannelPref(None, NoChannelsTitle, false, None)
  }

  /** One channel's preference: a deleted channel is disabled and opens nothing. */
  function ChannelPreference(c: Channel, uid: int, pkg: string): (r: ChannelPref)
    ensures r.key == c.id
    ensures r.enabled <==> !c.deleted
    ensures c.deleted ==> r.args.None? && r.title == DeletedChannelName(c.name)
    ensures !c.deleted ==> r.args == Some(ChannelArgs(uid, true, pkg, c.id)) && r.title == ChannelName(c.name)
  {
    if c.deleted then ChannelPref(c.id, DeletedChannelName(c.name), false, None)
    else ChannelPref(c.id, ChannelName(c.name), true, Some(ChannelArgs(uid, true, pkg, c.id)))
  }

  /** The preferences of a list of channels, in list order. */
  function ChannelPrefs(cs: seq<Channel>, uid: int, pkg: string): (r: seq<ChannelPref>)
    ensures |r| == |cs|
    ensures forall i :: 0 <= i < |cs| ==> r[i] == ChannelPreference(cs[i], uid, pkg)
    decreases |cs|
  {
    if cs == [] then []
    else ChannelPrefs(cs[..|cs| - 1], uid, pkg) + [ChannelPreference(cs[|cs| - 1], uid, pkg)]
  }

  /** A group gets its own category only when both its id and its name are non-null. */
  predicate HasCategory(g: ChannelGroup) {
    g.id.Some? && g.name.Some?
  }

  /**
   * The layout after processing `groups` (each with its channels already sorted): every channel gets
   * exactly one preference, in a group category or in the default category, and exactly the groups
   * with an id and a name get a category.
   */
  function Layout(groups: seq<ChannelGroup>, uid: int, pkg: string): (r: ChannelLayout)
    ensures CategoryPrefCount(r.groupCategories) + |r.channels| == ChannelCount(groups)
    ensures |r.groupCategories| == NamedGroupCount(groups)
    decreases |groups|
  {
    if groups == [] then ChannelLayout([], [])
    else
      var before := Layout(groups[..|groups| - 1], uid, pkg);
      var g := groups[|groups| - 1];
      var prefs := ChannelPrefs(g.channels, uid, pkg);
      if HasCategory(g) then
        var cats := before.groupCategories + [GroupCategory(g.id.value, g.name.value, prefs)];
        assert cats[..|cats| - 1] == before.groupCategories;
        before.(groupCategories := cats)
      else before.(channels := before.channels + prefs)
  }

  function CategoryPrefCount(cats: seq<GroupCategory>): nat
    decreases |cats|
  {
    if cats == [] then 0 else CategoryPrefCount(cats[..|cats| - 1]) + |cats[|cats| - 1].prefs|
  }

  function ChannelCount(groups: seq<ChannelGroup>): nat
    decreases |groups|
  {
    if groups == [] then 0 else ChannelCount(groups[..|groups| - 1]) + |groups[|groups| - 1].channels|
  }

  function NamedGroupCount(groups: seq<ChannelGroup>): nat
    decreases |groups|
  {
    if groups == [] then 0
    else NamedGroupCount(groups[..|groups| - 1]) + (if HasCategory(groups[|groups| - 1]) then 1 else 0)
  }

  /** A category is the one `onCreate` makes for some group of `groups` with an id and a name. */
  predicate CategoryOfSomeGroup(c: GroupCategory, groups: seq<ChannelGroup>, uid: int, pkg: string) {
    exists gi :: 0 <= gi < |groups| && HasCategory(groups[gi]) &&
      c == GroupCategory(groups[gi].id.value, groups[gi].name.value, ChannelPrefs(groups[gi].channels, uid, pkg))
  }

  /** A preference is the one `onCreate` makes for some channel of a group of `groups` without a category. */
  predicate PrefOfUngroupedChannel(pref: ChannelPref, groups: seq<ChannelGroup>, uid: int, pkg: string) {
    exists gi, j :: 0 <= gi < |groups| && !HasCategory(groups[gi]) && 0 <= j < |groups[gi].channels| &&
      pref == ChannelPreference(groups[gi].channels[j], uid, pkg)
  }

  /** Every category is that of a group with an id and a name, holding that group's channel preferences. */
  lemma {:induction false} LayoutCategoriesComeFromNamedGroups(groups: seq<ChannelGroup>, uid: int, pkg: string)
    ensures forall c :: c in Layout(groups, uid, pkg).groupCategories ==> CategoryOfSomeGroup(c, groups, uid, pkg)
    decreases |groups|
  {
    if groups != [] {
      var front := groups[..|groups| - 1];
      LayoutCategoriesComeFromNamedGroups(front, uid, pkg);
      var last := |groups| - 1;
      forall c | c in Layout(groups, uid, pkg).groupCategories
        ensures CategoryOfSomeGroup(c, groups, uid, pkg)
      {
        if c in Layout(front, uid, pkg).groupCategories {
          var gi :| 0 <= gi < |front| && HasCategory(front[gi]) &&
            c == GroupCategory(front[gi].id.value, front[gi].name.value, ChannelPrefs(front[gi].channels, uid, pkg));
          assert groups[gi] == front[gi];
        } else {
          assert groups[last] == groups[|groups| - 1];
        }
      }
    }
  }

  /** Every entry of the default category is the preference of a channel of a group without a category. */
  lemma {:induction false} LayoutDefaultEntriesComeFromUngroupedChannels(groups: seq<ChannelGroup>, uid: int, pkg: string)
    ensures forall pref :: pref in Layout(groups, uid, pkg).channels ==> PrefOfUngroupedChannel(pref, groups, uid, pkg)
    decreases |groups|
  {
    if groups != [] {
      var front := groups[..|groups| - 1];
      LayoutDefaultEntriesComeFromUngroupedChannels(front, uid, pkg);
      var last := |groups| - 1;
      var g := groups[last];
      forall pref | pref in Layout(groups, uid, pkg).channels
        ensures PrefOfUngroupedChannel(pref, groups, uid, pkg)
      {
        if pref in Layout(front, uid, pkg).channels {
          var gi, j :| 0 <= gi < |front| && !HasCategory(front[gi]) && 0 <= j < |front[gi].channels| &&
            pref == ChannelPreference(front[gi].channels[j], uid, pkg);
          assert groups[gi] == front[gi];
        } else {
          var prefs := ChannelPrefs(g.channels, uid, pkg);
          assert pref in prefs;
          var j :| 0 <= j < |prefs| && prefs[j] == pref;
        }
      }
    }
  }

  /** The onCreate guard: a missing uid, package or package info makes the screen finish. */
  predicate ShouldFinish(uid: int, pkg: Option<string>, hasPackageInfo: bool) {
    uid < 0 || IsEmpty(pkg) || !hasPackageInfo
  }

  /** A write to the notification backend made by the block toggle. */
  datatype BackendWrite = SetNotificationsEnabled(pkg: string, uid: int, enabled: bool)

  class AppNotificationSettings {
    var appRow: AppRow
    var layout: ChannelLayout
    var channelsVisible: bool
    var badgeVisible: bool
    var blockVisible: bool
    var blockChecked: bool
    var badgeChecked: bool
    var finished: bool
    var backendWrites: seq<BackendWrite>

    constructor (appRow: AppRow)
      ensures this.appRow == appRow && layout == ChannelLayout([], [])
      ensures channelsVisible && badgeVisible && blockVisible && !finished && backendWrites == []
    {
      this.appRow := appRow;
      layout := ChannelLayout([], []);
      channelsVisible, badgeVisible, blockVisible := true, true, true;
      blockChecked, badgeChecked := false, false;
      finished := false;
      backendWrites := [];
    }

    /** `updateDependents`: the channel list and the badge toggle are visible exactly when not banned. */
    method UpdateDependents(banned: bool)
      modifies this
      ensures channelsVisible == !banned && badgeVisible == !banned
      ensures appRow == old(appRow) && layout == old(layout) && blockVisible == old(blockVisible)
      ensures blockChecked == old(blockChecked) && badgeChecked == old(badgeChecked)
      ensures finished == old(finished) && backendWrites == old(backendWrites)
    {
      channelsVisible := !banned;
      badgeVisible := !banned;
    }

    /** The block toggle's listener: write the inverse to the backend, update the dependents, accept. */
    method OnBlockChange(uid: int, packageName: string, blocked: bool) returns (accepted: bool)
      modifies this
      ensures accepted
      ensures backendWrites == old(backendWrites) + [SetNotificationsEnabled(packageName, uid, !blocked)]
      ensures channelsVisible == !blocked && badgeVisible == !blocked
      ensures appRow == old(appRow) && layout == old(layout)
      ensures blockVisible == old(blockVisible) && blockChecked == old(blockChecked)
      ensures badgeChecked == old(badgeChecked) && finished == old(finished)
    {
      backendWrites := backendWrites + [SetNotificationsEnabled(packageName, uid, !blocked)];
      UpdateDependents(blocked);
      accepted := true;
    }

    /**
     * The modelled part of `onCreate`: the guard, the block and badge toggles, the settings intent from
     * the config activities, the channel preferences for the (already sorted) groups, and the dependents.
     */
    method OnCreate(uid: int, pkg: Option<string>, hasPackageInfo: bool, infos: seq<ActivityInfo>,
                    groups: seq<ChannelGroup>)
      modifies this
      ensures finished == (old(finished) || ShouldFinish(uid, pkg, hasPackageInfo))
      ensures backendWrites == old(backendWrites)
      ensures ShouldFinish(uid, pkg, hasPackageInfo) ==>
        (appRow == old(appRow) && layout == old(layout) &&
         channelsVisible == old(channelsVisible) && badgeVisible == old(badgeVisible) &&
         blockVisible == old(blockVisible) && blockChecked == old(blockChecked) &&
         badgeChecked == old(badgeChecked))
      ensures !ShouldFinish(uid, pkg, hasPackageInfo) ==>
        appRow == WithConfigActivity(old(appRow), old(appRow).pkg, infos) &&
        layout == (if groups == [] then ChannelLayout([], [NoChannelsPref()]) else Layout(groups, uid, pkg.value)) &&
        channelsVisible == !appRow.banned && badgeVisible == !appRow.banned &&
        (old(appRow).systemApp ==> !blockVisible && blockChecked == old(blockChecked)) &&
        (!old(appRow).systemApp ==> blockChecked == appRow.banned && blockVisible == old(blockVisible)) &&
        badgeChecked == appRow.showBadge
    {
      if ShouldFinish(uid, pkg, hasPackageInfo) {
        finished := true;
        return;
      }
      if appRow.systemApp {
        blockVisible := false;
      } else {
        blockChecked := appRow.banned;
      }
      badgeChecked := appRow.showBadge;
      var rows := map[appRow.pkg := appRow];
      rows := ApplyConfigActivities(rows, infos);
      appRow := rows[appRow.pkg];
      layout := BuildChannelPreferences(groups, uid, pkg.value);
      UpdateDependents(appRow.banned);
    }
  }

  /**
   * One pass of `onCreate`'s group loop: a group with an id and a name gets a new category holding its
   * channel preferences, the channels of any other group go to the default category.
   */
  method AddGroupPreferences(cats: seq<GroupCategory>, chans: seq<ChannelPref>, group: ChannelGroup, uid: int, pkg: string)
    returns (cats': seq<GroupCategory>, chans': seq<ChannelPref>)
    ensures HasCategory(group) ==>
      (cats' == cats + [GroupCategory(group.id.value, group.name.value, ChannelPrefs(group.channels, uid, pkg))] &&
       chans' == chans)
    ensures !HasCategory(group) ==> cats' == cats && chans' == chans + ChannelPrefs(group.channels, uid, pkg)
  {
    cats', chans' := cats, chans;
    var named := group.id.Some? && group.name.Some?;
    if named {
      cats' := cats' + [GroupCategory(group.id.value, group.name.value, [])];
    }
    var channels := group.channels;
    for ci := 0 to |channels|
      invariant named ==> (chans' == chans &&
        cats' == cats + [GroupCategory(group.id.value, group.name.value, ChannelPrefs(channels[..ci], uid, pkg))])
      invariant !named ==> cats' == cats && chans' == chans + ChannelPrefs(channels[..ci], uid, pkg)
    {
      assert channels[..ci + 1][..ci] == channels[..ci];
      var channelPref := ChannelPreference(channels[ci], uid, pkg);
      if named {
        var last := cats'[|cats'| - 1];
        cats' := cats'[|cats'| - 1 := last.(prefs := last.prefs + [channelPref])];
      } else {
        chans' := chans' + [channelPref];
      }
    }
    assert channels[..|channels|] == channels;
  }

  /** The channel-list construction of `onCreate`, over groups whose channel lists are already sorted. */
  method BuildChannelPreferences(groups: seq<ChannelGroup>, uid: int, pkg: string) returns (layout: ChannelLayout)
    ensures groups == [] ==> layout == ChannelLayout([], [NoChannelsPref()])
    ensures groups != [] ==> layout == Layout(groups, uid, pkg)
  {
    if |groups| == 0 {
      return ChannelLayout([], [NoChannelsPref()]);
    }
    var cats: seq<GroupCategory> := [];
    var chans: seq<ChannelPref> := [];
    for gi := 0 to |groups|
      invariant ChannelLayout(cats, chans) == Layout(groups[..gi], uid, pkg)
    {
      assert groups[..gi + 1][..gi] == groups[..gi];
      cats, chans := AddGroupPreferences(cats, chans, groups[gi], uid, pkg);
    }
    assert groups[..|groups|] == groups;
    layout := ChannelLayout(cats, chans);
  }
}
