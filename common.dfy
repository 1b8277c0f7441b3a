/** Values shared by the settings screens: optional values, component names, intents, tiles. */
module Common {

  /** A Java reference that may be null. */
  datatype Option<T> = None | Some(value: T)

  /** `TextUtils.isEmpty`: null or the empty string. */
  predicate IsEmpty(s: Option<string>) {
    s.None? || s.value == ""
  }

  /** `android.content.ComponentName`: an application package and a class inside it. */
  datatype ComponentName = ComponentName(packageName: string, className: string)

  /** `ComponentName.flattenToString`: the package, a slash, then the class name. */
  function Flatten(c: ComponentName): (r: string)
    ensures |r| == |c.packageName| + 1 + |c.className|
    ensures r[..|c.packageName|] == c.packageName && r[|c.packageName|] == '/'
    ensures r[|c.packageName| + 1..] == c.className
  {
    c.packageName + "/" + c.className
  }

  /** Package names never hold a slash, so the first slash of a flattened name ends the package. */
  predicate WellFormedPackage(c: ComponentName) {
    forall i :: 0 <= i < |c.packageName| ==> c.packageName[i] != '/'
  }

  /** Two components with well-formed packages flatten to the same string only if they are equal. */
  lemma FlattenInjective(a: ComponentName, b: ComponentName)
    requires WellFormedPackage(a) && WellFormedPackage(b)
    requires Flatten(a) == Flatten(b)
    ensures a == b
  {
    var fa, fb := Flatten(a), Flatten(b);
    var i, j := |a.packageName|, |b.packageName|;
    assert a.packageName == fa[..i] == fb[..j] == b.packageName;
    assert a.className == fa[i + 1..] == fb[j + 1..] == b.className;
  }

  /** Intent flags the modelled code adds or sets. */
  datatype IntentFlag = FlagActivityClearTask | FlagActivityNewDocument

  /** A value stored in an intent's extras bundle. */
  datatype Extra = BoolExtra(b: bool) | IntExtra(i: int) | StringExtra(s: string)

  /** `android.content.Intent`, reduced to the parts the modelled code reads or writes. */
  datatype Intent = Intent(
    action: Option<string>,
    categories: set<string>,
    component: Option<ComponentName>,
    package: Option<string>,
    mimeType: Option<string>,
    flags: set<IntentFlag>,
    extras: map<string, Extra>)

  const ACTION_MAIN := "android.intent.action.MAIN"

  /** `new Intent(action)`. */
  function ActionIntent(action: string): (r: Intent)
    ensures r.action == Some(action) && r.component.None? && r.extras == map[]
  {
    Intent(Some(action), {}, None, None, None, {}, map[])
  }

  /** `Intent.getIntExtra(name, default)`: the default when the extra is absent or not an int. */
  function GetIntExtra(intent: Intent, name: string, default: int): (r: int)
    ensures name in intent.extras && intent.extras[name].IntExtra? ==> r == intent.extras[name].i
    ensures !(name in intent.extras && intent.extras[name].IntExtra?) ==> r == default
  {
    if name in intent.extras && intent.extras[name].IntExtra? then intent.extras[name].i else default
  }

  /** `Intent.putExtra(name, value)` for an int value. */
  function PutIntExtra(intent: Intent, name: string, value: int): (r: Intent)
    ensures GetIntExtra(r, name, -1) == value
    ensures r.(extras := intent.extras) == intent
    ensures forall k :: k != name && k in intent.extras ==> k in r.extras && r.extras[k] == intent.extras[k]
  {
    intent.(extras := intent.extras[name := IntExtra(value)])
  }

  /** An Android user (a profile on the device). */
  datatype UserHandle = UserHandle(id: int)

  /** The metadata keys a tile's bundle is read at. */
  datatype MetaKey = FragmentClassKey | IntentActionKey | IconUriKey | SummaryUriKey

  /** The icon a tile declares (loaded by the UI toolkit, which is not modelled). */
  datatype TileIcon = TileIcon(resource: int)

  /** `com.android.settingslib.drawer.Tile`: one entry declared by some component. */
  datatype Tile = Tile(
    key: Option<string>,
    title: Option<string>,
    summary: Option<string>,
    icon: Option<TileIcon>,
    intent: Option<Intent>,
    metaData: Option<map<MetaKey, string>>,
    priority: int,
    userHandle: Option<seq<UserHandle>>)

  /** `Bundle.getString(key)` on a tile's metadata, null when the bundle or the key is missing. */
  function MetaString(tile: Tile, k: MetaKey): (r: Option<string>)
    ensures r.Some? ==> tile.metaData.Some? && k in tile.metaData.value
    ensures tile.metaData.Some? && k in tile.metaData.value ==> r == Some(tile.metaData.value[k])
  {
    if tile.metaData.Some? && k in tile.metaData.value then Some(tile.metaData.value[k]) else None
  }

  /** `DashboardCategory`: a titled, ordered list of tiles; the list field may be null. */
  datatype DashboardCategory = DashboardCategory(title: Option<string>, tiles: Option<seq<Tile>>)

  /** The index of the first element satisfying `p`, as a for-each loop with an early exit finds it. */
  function FirstIndex<T>(s: seq<T>, p: T -> bool): (r: Option<nat>)
    ensures r.Some? ==> r.value < |s| && p(s[r.value])
    ensures r.Some? ==> forall j :: 0 <= j < r.value ==> !p(s[j])
    ensures r.None? ==> forall j :: 0 <= j < |s| ==> !p(s[j])
    decreases |s|
  {
    if s == [] then None
    else
      var f := FirstIndex(s[..|s| - 1], p);
      if f.Some? then f
      else if p(s[|s| - 1]) then Some(|s| - 1)
      else None
  }

  /** Growing the searched list never moves an existing first match. */
  lemma FirstIndexPrefix<T>(s: seq<T>, t: seq<T>, p: T -> bool)
    requires FirstIndex(s, p).Some?
    ensures FirstIndex(s + t, p) == FirstIndex(s, p)
  {
    var i := FirstIndex(s, p).value;
    assert (s + t)[i] == s[i];
    assert forall j :: 0 <= j < i ==> (s + t)[j] == s[j];
  }

  /** With no match in the first list, the first match in the concatenation is the second list's, shifted. */
  lemma {:induction false} FirstIndexAppend<T>(s: seq<T>, t: seq<T>, p: T -> bool)
    requires FirstIndex(s, p).None?
    ensures FirstIndex(s + t, p) == (if FirstIndex(t, p).Some? then Some(|s| + FirstIndex(t, p).value) else None)
    decreases |t|
  {
    if t == [] {
      assert s + t == s;
    } else {
      var front := t[..|t| - 1];
      FirstIndexAppend(s, front, p);
      assert (s + t)[..|s + t| - 1] == s + front;
      assert (s + t)[|s + t| - 1] == t[|t| - 1];
    }
  }
}
