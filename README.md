# Android Settings: dashboard tiles and neighbouring screens, modelled in Dafny

This project models the core of the Settings app's dashboard tile registry:
- how a tile's preference key is derived;
- how a tile is bound to a preference (title, summary, key, fragment or click destination, order);
- how the display order follows from the tile's priority;
- how a tap on a tile becomes one of three outcomes: a start, a start as one user, or the profile-selection dialog. A start of an intent with a component through this dispatch carries exactly one metrics record.

Next to it, it models six smaller screens and helpers:
- **Security**: the tile-driven refresh of the security screen's icons and summaries, and the lazily created trust-agent manager.
- **Notification**: the per-app notification screen. This covers the config-activity lookup, the channel and group comparators, the channel preference list, and the visibility of dependent rows.
- **Storage**: the storage line items. This covers the click dispatch by key, the launch as a user, the sizes shown after loading, and the media-size sum.
- **Autofill**: the default autofill picker. This covers its candidates and its settings-activity lookup.
- **Search**: the search result, with its builder and rank comparison, and the search screen's query state.

Each Java class becomes one Dafny module, one file each:
- `common.dfy` holds the shared values: optional values for Java references, component names, intents and tiles.
- The other modules are `dashboard.dfy`, `security.dfy`, `notification.dfy`, `storage.dfy`, `autofill.dfy` and `search.dfy`.

Pure code (key derivation, comparators, the order rule, intent lookups) is modelled as functions with lemmas. Code that updates objects is modelled as classes whose methods state the whole new state. Where such a method loops, its `ensures` ties the result to a reference function, and lemmas prove properties of that function. The modelled classes are the dashboard provider's trace, the security screen, the notification screen, the storage controller, the autofill picker, the result builder and the search screen.

How the Java code is represented:
- Activity starts, dialogs and metrics records are entries appended to a trace.
- A null dereference the code would make is a precondition.
- A foreign call is a function-typed parameter. This covers content providers, the package manager, `Collator`, the fragment-intent builder and the browse intent of the emulated volume.

Two behaviours of the code are easy to misread:
- **Empty handle list.** A tile whose user-handle list is empty is not launched. Every list whose size is not 1 goes to the profile dialog (`DashboardFeatureProviderImpl.java:212-220`; `Dashboard.EmptyHandleListShowsDialog`).
- **Null-id group order.** The group comparator's comment says the placeholder group with a null id comes first, but the code returns 1 for it. It therefore sorts last. The model follows the code (`Notification.NullIdGroupSortsLast`).

## Model

| member | source | states |
|---|---|---|
| Common.Flatten | src/com/android/settings/dashboard/DashboardFeatureProviderImpl.java:231-233 | the flattened component is the package, one slash, then the class name, each recoverable by slicing |
| Common.FlattenInjective | src/com/android/settings/applications/defaultapps/DefaultAutofillPicker.java:111-113 | when packages hold no slash, two components with the same flattened string are the same component |
| Common.GetIntExtra | src/com/android/settings/deviceinfo/storage/StorageItemPreferenceController.java:260 | a present int extra reads back its value; an absent extra, or one that is not an int, reads as the given default |
| Common.PutIntExtra | src/com/android/settings/deviceinfo/storage/StorageItemPreferenceController.java:137 | the stored int reads back, every other extra and every other intent field is kept |
| Common.MetaString | src/com/android/settings/dashboard/DashboardFeatureProviderImpl.java:144-150 | the bundle's value for the key when the bundle exists and holds it, and null otherwise |
| Common.FirstIndex | src/com/android/settings/applications/defaultapps/DefaultAutofillPicker.java:109-123 | the result is the first index satisfying the test (no earlier one does), or none when no element does |
| Common.FirstIndexPrefix | src/com/android/settings/applications/defaultapps/DefaultAutofillPicker.java:109-123 | appending elements never moves an existing first match |
| Common.FirstIndexAppend | src/com/android/settings/applications/defaultapps/DefaultAutofillPicker.java:109-143 | with no match in the first list, the first match of the concatenation is the second list's first match shifted by the first list's length |
| Dashboard.NewPreference | src/com/android/settings/dashboard/DashboardFeatureProviderImpl.java:99 | a new preference has order DEFAULT_ORDER, no listener and no fragment |
| Dashboard.DashboardKeyForTile | src/com/android/settings/dashboard/DashboardFeatureProviderImpl.java:118-129 | the key is null exactly when the tile or its intent is null |
| Dashboard.KeyNeedsIntent | src/com/android/settings/dashboard/DashboardFeatureProviderImpl.java:118-121 | a tile without an intent has a null key even when it declares one |
| Dashboard.DeclaredKeyWins | src/com/android/settings/dashboard/DashboardFeatureProviderImpl.java:122-124 | with an intent, a non-empty declared key is returned verbatim |
| Dashboard.DerivedKeyNamesClass | src/com/android/settings/dashboard/DashboardFeatureProviderImpl.java:125-128 | a derived key starts with "dashboard_tile_pref_" and gives back the class name; two keyless tiles share a key iff their classes are equal |
| Dashboard.PriorityGroup | src/com/android/settings/dashboard/DashboardFeatureProviderImpl.java:113-115 | the group is the order divided by 100 truncated toward zero (remainder below 100 in magnitude, same sign as the order) |
| Dashboard.PriorityGroupUnique | src/com/android/settings/dashboard/DashboardFeatureProviderImpl.java:113-115 | those truncation facts determine the group uniquely |
| Dashboard.PriorityGroupTruncatesNegative | src/com/android/settings/dashboard/DashboardFeatureProviderImpl.java:114 | order -150 is in group -1, where floor division would give -2 |
| Dashboard.TileOrder | src/com/android/settings/dashboard/DashboardFeatureProviderImpl.java:163-178 | priority 0 keeps the order; otherwise the order is minus the priority, or that plus a base order other than DEFAULT_ORDER |
| Dashboard.PriorityInversion | src/com/android/settings/dashboard/DashboardFeatureProviderImpl.java:164-177 | under the same offset a larger priority gives a strictly smaller order, with no clamping |
| Dashboard.SamePackageIgnoresBaseOrder | src/com/android/settings/dashboard/DashboardFeatureProviderImpl.java:168-174 | a tile of the activity's own package gets minus its priority whatever the base order |
| Dashboard.OtherPackageShiftedByBaseOrder | src/com/android/settings/dashboard/DashboardFeatureProviderImpl.java:173-177 | a tile of another package (or without intent) is shifted by a concrete base order |
| Dashboard.ListenerIntent | src/com/android/settings/dashboard/DashboardFeatureProviderImpl.java:153-157 | the listener's intent is a copy of the tile's that differs at most in its action, overridden only by a non-null metadata action |
| Dashboard.BindPreferenceToTile | src/com/android/settings/dashboard/DashboardFeatureProviderImpl.java:132-179 | title and summary copied; a non-empty caller key overrides the derived key; a fragment wins over a listener; an intent alone installs a listener on its copy; neither binds nothing; order by the priority rule |
| Dashboard.BindIdempotent | src/com/android/settings/dashboard/DashboardFeatureProviderImpl.java:132-179 | binding a bound preference again with the same tile and arguments changes nothing |
| Dashboard.NoDestinationNoListener | src/com/android/settings/dashboard/DashboardFeatureProviderImpl.java:151-162 | a tile with neither fragment nor intent leaves a new preference without listener or fragment |
| Dashboard.GetPreferencesForCategory | src/com/android/settings/dashboard/DashboardFeatureProviderImpl.java:82-105 | null iff the category is missing or its tiles are null or empty; else one preference per tile in order, bound with a null key and DEFAULT_ORDER, so keyed by the tile's key and ordered DEFAULT_ORDER or minus the priority |
| Dashboard.LogEffects | src/com/android/settings/dashboard/DashboardFeatureProviderImpl.java:223-234 | one metrics record holding the flattened component iff the intent and its component are non-null |
| Dashboard.LaunchEffects | src/com/android/settings/dashboard/DashboardFeatureProviderImpl.java:210-221 | a null handle list starts directly, a single handle starts as that user, any other size (empty included) only shows the dialog; every start is preceded by the log |
| Dashboard.LaunchLogsOnce | src/com/android/settings/dashboard/DashboardFeatureProviderImpl.java:210-234 | a dispatch holds exactly one metrics record when it starts an intent with a component, and none otherwise |
| Dashboard.EmptyHandleListShowsDialog | src/com/android/settings/dashboard/DashboardFeatureProviderImpl.java:212-220 | an empty handle list shows the profile dialog and starts nothing |
| Dashboard.SettingsHomeIntent | src/com/android/settings/dashboard/DashboardFeatureProviderImpl.java:194-198 | the fallback intent opens the Settings home with CLEAR_TASK |
| Dashboard.ShowMenuIntent | src/com/android/settings/dashboard/DashboardFeatureProviderImpl.java:204-206 | the copy carries the show-menu extra set true and CLEAR_TASK added, with action, component and package kept |
| Dashboard.OpenTileEffects | src/com/android/settings/dashboard/DashboardFeatureProviderImpl.java:193-208 | a null tile starts the Settings home; a null intent does nothing; otherwise the show-menu copy goes through launch dispatch |
| Dashboard.OpenedIntentsShowMenu | src/com/android/settings/dashboard/DashboardFeatureProviderImpl.java:204-207 | every intent opening a tile starts carries the show-menu extra and CLEAR_TASK and targets the tile's component |
| Dashboard.DashboardFeatureProvider.IsEnabled | src/com/android/settings/dashboard/DashboardFeatureProviderImpl.java:72-74 | the dashboard is always enabled |
| Dashboard.DashboardFeatureProvider.LogStartActivity | src/com/android/settings/dashboard/DashboardFeatureProviderImpl.java:223-234 | the trace grows by exactly the log records of the intent |
| Dashboard.DashboardFeatureProvider.LaunchIntentOrSelectProfile | src/com/android/settings/dashboard/DashboardFeatureProviderImpl.java:210-221 | the trace grows by exactly the launch dispatch's effects |
| Dashboard.DashboardFeatureProvider.OpenTileIntent | src/com/android/settings/dashboard/DashboardFeatureProviderImpl.java:193-208 | the trace grows by exactly the open-tile effects |
| Dashboard.DashboardFeatureProvider.OnPreferenceClick | src/com/android/settings/dashboard/DashboardFeatureProviderImpl.java:158-161 | a click dispatches the captured tile and copied intent and reports the click handled |
| Security.IconPackageName | src/com/android/settings/security/SecurityFeatureProviderImpl.java:72-80 | the intent's package if non-empty, else the component's package, null exactly when neither exists |
| Security.NewIcon | src/com/android/settings/security/SecurityFeatureProviderImpl.java:81-92 | with no icon URI the icon is kept; with one, it becomes the looked-up icon exactly when the lookup returns one whose resources resolve, and is kept otherwise |
| Security.NewSummary | src/com/android/settings/security/SecurityFeatureProviderImpl.java:94-105 | with a summary URI the summary ends equal to the fetched value and setSummary is counted only when the value differs; without one nothing changes |
| Security.UpdateTile | src/com/android/settings/security/SecurityFeatureProviderImpl.java:57-105 | the screen's keys are kept; a tile with empty key, null metadata or no matching preference changes nothing; only the named preference changes, by icon then summary |
| Security.UpdateTiles | src/com/android/settings/security/SecurityFeatureProviderImpl.java:56-106 | the screen after the loop has applied the tiles in index order; the loop never adds or removes a preference |
| Security.UnnamedPreferenceUnchanged | src/com/android/settings/security/SecurityFeatureProviderImpl.java:56-66 | a preference no tile names ends as it began |
| Security.LastSummaryWins | src/com/android/settings/security/SecurityFeatureProviderImpl.java:56-105 | tiles are processed in index order: the summary ends as the value fetched by the last tile that fetches one for that key |
| Security.SecurityFeatureProvider.UpdatePreferences | src/com/android/settings/security/SecurityFeatureProviderImpl.java:46-107 | nothing for a null screen or no category; otherwise the screen ends as the tiles applied in index order |
| Security.SecurityFeatureProvider.GetTrustAgentManager | src/com/android/settings/security/SecurityFeatureProviderImpl.java:110-115 | a new manager is created only when none exists; an existing one is returned and kept |
| Security.TrustAgentManagerIsShared | src/com/android/settings/security/SecurityFeatureProviderImpl.java:110-115 | two calls return the same instance, the one the provider keeps |
| Notification.ConfigIntent | src/com/android/settings/notification/AppNotificationSettings.java:265-266 | the assigned intent is the MAIN, notification-preferences-category intent naming exactly the activity's package and class |
| Notification.FirstConfigActivity | src/com/android/settings/notification/AppNotificationSettings.java:249-264 | the index of the first activity of the package, none earlier; none when no activity belongs to it |
| Notification.WithConfigActivity | src/com/android/settings/notification/AppNotificationSettings.java:249-267 | only the settings intent can change; a row that has one keeps it; otherwise it gets an intent iff some activity belongs to its package, and then that of the first such activity |
| Notification.ApplyConfigActivities | src/com/android/settings/notification/AppNotificationSettings.java:245-268 | the rows keep their packages; each row with an intent is unchanged, each other row gets the first activity of its package, or stays unchanged without one |
| Notification.FirstConfigActivityWins | src/com/android/settings/notification/AppNotificationSettings.java:259-266 | with several activities of one package, the assigned intent is that of one preceding any later match |
| Notification.JavaCompareTo | src/com/android/settings/notification/AppNotificationSettings.java:282 | String.compareTo: the difference of the characters at the first index where the strings differ, or the length difference when one is a prefix of the other |
| Notification.JavaCompareToProperties | src/com/android/settings/notification/AppNotificationSettings.java:282 | String.compareTo is exactly antisymmetric and zero iff the strings are equal |
| Notification.BooleanCompare | src/com/android/settings/notification/AppNotificationSettings.java:277 | zero on equal flags, negative iff false is compared with true |
| Notification.CompareChannels | src/com/android/settings/notification/AppNotificationSettings.java:275-283 | non-deleted before deleted; equal deletion falls to the collator on different names; equal names fall to String.compareTo on the ids, zero iff the ids are equal |
| Notification.ChannelOrderAntisymmetric | src/com/android/settings/notification/AppNotificationSettings.java:275-283 | an antisymmetric collator makes the channel order antisymmetric in sign |
| Notification.CompareGroups | src/com/android/settings/notification/AppNotificationSettings.java:291-304 | a null-id group is greater than one with an id; otherwise by name under the collator, then String.compareTo on the ids, zero iff they are equal |
| Notification.NullIdGroupSortsLast | src/com/android/settings/notification/AppNotificationSettings.java:292-297 | the placeholder group compares greater than every group with an id, from either side |
| Notification.GroupOrderAntisymmetric | src/com/android/settings/notification/AppNotificationSettings.java:291-304 | an antisymmetric collator makes the group order antisymmetric in sign |
| Notification.NoChannelsPref | src/com/android/settings/notification/AppNotificationSettings.java:114-118 | the no-channels entry is disabled and opens nothing |
| Notification.ChannelPreference | src/com/android/settings/notification/AppNotificationSettings.java:133-154 | keyed by the channel id; enabled iff not deleted; a deleted channel shows the deleted title and opens nothing; a live one opens the channel screen for this uid and package |
| Notification.ChannelPrefs | src/com/android/settings/notification/AppNotificationSettings.java:131-160 | one preference per channel, in channel order |
| Notification.Layout | src/com/android/settings/notification/AppNotificationSettings.java:120-161 | every channel gets exactly one preference across the group categories and the default category, and exactly the groups with id and name get a category |
| Notification.LayoutCategoriesComeFromNamedGroups | src/com/android/settings/notification/AppNotificationSettings.java:120-161 | every category is that of a group with an id and a name, holding that group's channel preferences |
| Notification.LayoutDefaultEntriesComeFromUngroupedChannels | src/com/android/settings/notification/AppNotificationSettings.java:120-161 | every default-category entry is the preference of a channel of a group without a category |
| Notification.AddGroupPreferences | src/com/android/settings/notification/AppNotificationSettings.java:121-160 | one group's pass: a group with id and name gets a new category with its channel preferences in order; any other group's preferences are appended to the default category |
| Notification.BuildChannelPreferences | src/com/android/settings/notification/AppNotificationSettings.java:114-162 | an empty group list gives exactly the one disabled entry; otherwise the layout of the groups in order |
| Notification.AppNotificationSettings.UpdateDependents | src/com/android/settings/notification/AppNotificationSettings.java:225-228 | the channel list and the badge toggle are visible exactly when not banned, nothing else changes |
| Notification.AppNotificationSettings.OnBlockChange | src/com/android/settings/notification/AppNotificationSettings.java:213-220 | the backend is told the inverse of the block, the dependents follow the block, every other field is kept, and the change is accepted |
| Notification.AppNotificationSettings.OnCreate | src/com/android/settings/notification/AppNotificationSettings.java:85-164 | the screen finishes iff uid, package or package info is missing, and then nothing else changes; otherwise the block toggle (hidden for system apps, else checked iff banned) and badge toggle are set up, the settings intent comes from the config activities, the channel layout is built, visibility follows the banned flag; the backend is never written |
| Storage.PhotosIntent | src/com/android/settings/deviceinfo/storage/StorageItemPreferenceController.java:214-220 | a VIEW intent for "image/*" as a new document |
| Storage.VolumeArgs | src/com/android/settings/deviceinfo/storage/StorageItemPreferenceController.java:224-227 | the app list's class name and the volume's UUID and description |
| Storage.AudioRequest | src/com/android/settings/deviceinfo/storage/StorageItemPreferenceController.java:222-232 | the app-list fragment for the volume restricted to music, with the music title and the controller's metrics category |
| Storage.AppsRequest | src/com/android/settings/deviceinfo/storage/StorageItemPreferenceController.java:234-243 | the app-list fragment for the volume, with the apps title and the controller's metrics category |
| Storage.GamesRequest | src/com/android/settings/deviceinfo/storage/StorageItemPreferenceController.java:245-252 | the games list, with no volume, with the games title and the controller's metrics category |
| Storage.ClickIntent | src/com/android/settings/deviceinfo/storage/StorageItemPreferenceController.java:111-134 | an intent exists exactly for photos, audio, games, files, and other apps with a volume; each key's intent is the one its builder makes |
| Storage.LaunchFor | src/com/android/settings/deviceinfo/storage/StorageItemPreferenceController.java:258-270 | user id -1 (or no extra) starts plainly, any other id starts as that user |
| Storage.StampedLaunchTargetsUser | src/com/android/settings/deviceinfo/storage/StorageItemPreferenceController.java:136-141 | after stamping a user id, the launch is plain iff the id is -1 and otherwise targets that user |
| Storage.GetUsedKeys | src/com/android/settings/deviceinfo/storage/StorageItemPreferenceController.java:203-212 | the six keys in the order photos, audio, games, other apps, system, files |
| Storage.UsedKeysLaunch | src/com/android/settings/deviceinfo/storage/StorageItemPreferenceController.java:203-212 | the used keys are distinct and, with a volume, all but the system key launch something |
| Storage.UnattributedBytes | src/com/android/settings/deviceinfo/storage/StorageItemPreferenceController.java:187-188 | the unattributed bytes plus audio, video and image bytes make up the total |
| Storage.SumPresentAppend | src/com/android/settings/deviceinfo/storage/StorageItemPreferenceController.java:277-281 | the sum over concatenated key lists is the sum of the sums |
| Storage.SumPresentBounds | src/com/android/settings/deviceinfo/storage/StorageItemPreferenceController.java:276-285 | keys all absent sum to 0, and non-negative sizes sum to a non-negative total |
| Storage.TotalValues | src/com/android/settings/deviceinfo/storage/StorageItemPreferenceController.java:272-286 | 0 without a map for the user, otherwise the sum of the values of the requested keys present in it |
| Storage.StorageItemPreferenceController.constructor | src/com/android/settings/deviceinfo/storage/StorageItemPreferenceController.java:84-92 | the controller keeps the volume, the current user id and its collaborators, with nothing shown, sized or launched yet |
| Storage.StorageItemPreferenceController.SetVolume | src/com/android/settings/deviceinfo/storage/StorageItemPreferenceController.java:154-156 | only the volume changes |
| Storage.StorageItemPreferenceController.SetUserId | src/com/android/settings/deviceinfo/storage/StorageItemPreferenceController.java:161-163 | only the user id changes |
| Storage.StorageItemPreferenceController.SetSystemSize | src/com/android/settings/deviceinfo/storage/StorageItemPreferenceController.java:196-198 | only the system size changes |
| Storage.StorageItemPreferenceController.DisplayPreference | src/com/android/settings/deviceinfo/storage/StorageItemPreferenceController.java:166-173 | the line items found are exactly the screen's preferences among the six keys |
| Storage.StorageItemPreferenceController.HandlePreferenceTreeClick | src/com/android/settings/deviceinfo/storage/StorageItemPreferenceController.java:100-144 | null preference or key: false, no launch; a key with an intent: it is stamped with the current user id, launched as that user (plainly for -1), and handled; other keys go to the superclass without a launch; the files key logs one metrics action |
| Storage.StorageItemPreferenceController.LaunchIntent | src/com/android/settings/deviceinfo/storage/StorageItemPreferenceController.java:258-270 | exactly one launch is recorded, the one the user-id extra selects |
| Storage.StorageItemPreferenceController.OnLoadFinished | src/com/android/settings/deviceinfo/storage/StorageItemPreferenceController.java:175-190 | photos = image + video, audio = music apps + audio, games, other apps, files = total - audio - video - image, system = stored system size only when shown; photos + files + audio = total; other sizes kept |
| Autofill.GetCandidates | src/com/android/settings/applications/defaultapps/DefaultAutofillPicker.java:54-69 | the current-interface services then the legacy ones, each in query order, duplicates kept, all for the picker's user |
| Autofill.MatchingService | src/com/android/settings/applications/defaultapps/DefaultAutofillPicker.java:109-113 | the first service whose flattened component equals the selected key, none earlier; none when no service matches |
| Autofill.SettingsIntent | src/com/android/settings/applications/defaultapps/DefaultAutofillPicker.java:114-121 | null iff the settings activity is empty; otherwise a MAIN intent for (service package, settings activity) |
| Autofill.GetIntent | src/com/android/settings/applications/defaultapps/DefaultAutofillPicker.java:105-144 | a current-list match decides, even yielding null; otherwise the legacy list's; no match or a null key yields null; a result always comes from a service matching the key |
| Autofill.GetIntentIsFirstMatch | src/com/android/settings/applications/defaultapps/DefaultAutofillPicker.java:105-144 | the two-phase search equals one first-match search over the current list followed by the legacy list |
| Autofill.GetIntentStaysInSelectedPackage | src/com/android/settings/applications/defaultapps/DefaultAutofillPicker.java:111-121 | for a key flattened from a component, any intent found opens an activity in that component's package |
| Autofill.GetConfirmationMessage | src/com/android/settings/applications/defaultapps/DefaultAutofillPicker.java:77-83 | null iff the candidate is null, otherwise the message names the candidate's label |
| Autofill.DefaultAutofillPicker.ShouldShowItemNone | src/com/android/settings/applications/defaultapps/DefaultAutofillPicker.java:48-51 | the picker always offers "None" |
| Autofill.DefaultAutofillPicker.GetDefaultAppKey | src/com/android/settings/applications/defaultapps/DefaultAutofillPicker.java:72-74 | the key read is the stored setting |
| Autofill.DefaultAutofillPicker.SetDefaultAppKey | src/com/android/settings/applications/defaultapps/DefaultAutofillPicker.java:86-89 | the setting becomes the key, reads back as it, and the call reports success |
| Search.Int32Sub | src/com/android/settings/search2/SearchResult.java:93 | Java int subtraction: a 32-bit value congruent to the difference, equal to it when it fits |
| Search.CompareTo | src/com/android/settings/search2/SearchResult.java:88-94 | -1 for a null other; the rank difference for non-negative 32-bit ranks |
| Search.CompareToOrdersByRank | src/com/android/settings/search2/SearchResult.java:88-94 | with ranks 0..9 or 42: within [-42, 42], antisymmetric, zero iff equal ranks, negative iff lower rank, transitive |
| Search.CompareToNeedsValidRanks | src/com/android/settings/search2/SearchResult.java:93 | with the minimum int rank the wrapped comparison is negative both ways, so the rank invariant is what keeps it antisymmetric |
| Search.Builder.constructor | src/com/android/settings/search2/SearchResult.java:97-102 | every field null and the rank 42 |
| Search.Builder.AddTitle | src/com/android/settings/search2/SearchResult.java:104-107 | returns the same builder; the title is overwritten and nothing else changes |
| Search.Builder.AddSummary | src/com/android/settings/search2/SearchResult.java:109-112 | returns the same builder; the summary is overwritten and nothing else changes |
| Search.Builder.AddBreadcrumbs | src/com/android/settings/search2/SearchResult.java:114-117 | returns the same builder; the breadcrumbs are overwritten and nothing else changes |
| Search.Builder.AddRank | src/com/android/settings/search2/SearchResult.java:119-124 | ranks 0..9 are stored, any other leaves the previous rank; the rank stays in 0..9 or 42 |
| Search.Builder.AddIcon | src/com/android/settings/search2/SearchResult.java:126-129 | returns the same builder; the icon is overwritten and nothing else changes |
| Search.Builder.AddPayload | src/com/android/settings/search2/SearchResult.java:131-134 | returns the same builder; the payload is overwritten and nothing else changes |
| Search.Builder.Build | src/com/android/settings/search2/SearchResult.java:136-144 | a null title fails first, then a null payload; otherwise every field is copied, the view type is the payload's type, and the rank is valid |
| Search.BuildIgnoresRejectedRanks | src/com/android/settings/search2/SearchResult.java:119-124 | an out-of-range rank between two builds leaves the built result unchanged |
| Search.QueryChangeEffects | src/com/android/settings/search2/SearchFragment.java:140-148 | the results are cleared; an empty or null query destroys only the database loader, any other restarts both loaders |
| Search.StopEffects | src/com/android/settings/search2/SearchFragment.java:114-121 | nothing unless finishing; then exactly the click-count histogram, followed by the leave-without-query action iff no query was ever entered |
| Search.SearchFragment.constructor | src/com/android/settings/search2/SearchFragment.java:61-63 | no query, never-entered flag true, no clicks |
| Search.SearchFragment.OnCreate | src/com/android/settings/search2/SearchFragment.java:87-94 | a saved state restores query, flag and click count and initialises both loaders; none changes nothing |
| Search.SearchFragment.OnSaveInstanceState | src/com/android/settings/search2/SearchFragment.java:125-130 | the saved state holds the query, the flag and the click count |
| Search.SearchFragment.OnQueryTextChange | src/com/android/settings/search2/SearchFragment.java:133-149 | always true; the same query (null-safe) changes nothing; a different one resets the click count, clears the never-entered flag, stores the query and clears and reloads |
| Search.SearchFragment.RestartLoaders | src/com/android/settings/search2/SearchFragment.java:183-187 | restarts the database loader, then the installed-apps loader |
| Search.SearchFragment.OnQueryTextSubmit | src/com/android/settings/search2/SearchFragment.java:152-154 | a submit is always accepted |
| Search.SearchFragment.OnCreateLoader | src/com/android/settings/search2/SearchFragment.java:157-168 | id 0 gives the database loader, id 1 the installed-apps loader, both for the current query; any other id gives null |
| Search.SearchFragment.OnSearchResultClicked | src/com/android/settings/search2/SearchFragment.java:179-181 | the click count grows by exactly one, nothing else changes |
| Search.SearchFragment.OnStop | src/com/android/settings/search2/SearchFragment.java:112-122 | the effects grow by exactly the stop's metrics, the state is kept |
| Search.SaveThenRestore | src/com/android/settings/search2/SearchFragment.java:87-130 | saving a screen and creating another from the saved state round-trips query, flag and click count |
| Search.LeavingWithoutTyping | src/com/android/settings/search2/SearchFragment.java:115-121 | a fresh screen finishing logs the leave action; one that received a query first does not |

## Left out

- UI toolkit work is not modelled: drawables and icon loading, `Preference` widgets, the action bar, `SearchView`, the results `RecyclerView` and its adapter (`mergeResults`, `clearResults` is a trace entry), and the app header added at the end of the notification screen's `onCreate`.
- Fragment and loader lifecycles are reduced to the modelled callbacks. `onResume`'s finish, `onAttach`, `onCreateView`, `onLoaderReset` and `SearchFragment.onLoadFinished` are not modelled.
- `ProfileSelectDialog.updateUserHandlesIfNeeded` and `CategoryManager` are foreign. The model takes the tile's handle list as already updated and the category as an input. So `getTilesForCategory`, `getAllCategories`, `getProgressiveDisclosureMixin` and `getExtraIntentAction`, which only delegate or return constants, are not modelled.
- Content-provider and package-manager lookups are inputs:
  - the icon and summary lookups and the resource check of the security screen;
  - the resolved config activities;
  - the autofill service lists and each service's declared settings activity;
  - the channel groups, which the model receives already sorted;
  - the emulated volume's browse intent;
  - the fragment-intent builder.
- The security screen's `providerMap` cache of provider connections is not modelled; it does not change any result.
- `Collections.sort` is not modelled. The model takes the sorted lists, and the comparators are modelled and proved separately. `Collator` is a function parameter.
- `Settings.Secure` storage is a field of the autofill picker.
- `Objects.hash` for `stableId` is not modelled.
- `getMetricsCategory`, `isAvailable` and `getPreferenceKey` are not modelled: they return constants.
- The restricted-preference admin (`setDisabledByAdmin`) and the badge toggle's change listener (`setShowBadge`) are not modelled.
- A live channel's intent is represented by the arguments given to the fragment-intent builder.
- The storage controller swallows `ActivityNotFoundException`. The model records every launch attempt.
- A null `findEmulatedForPrivate` result is not modelled: the browse intent is taken as always built.
- Null dereferences the Java code would make are preconditions, not modelled crashes:
  - the component in the key and order rules;
  - null names and ids reaching the comparators;
  - a null volume in the audio intent;
  - missing line items in `onLoadFinished`.
- Dashboard.TileOrder: does not model 32-bit wrap-around of `-priority + baseOrder`, because orders in practice stay far from the int range; the model uses unbounded integers.
- Storage.StorageItemPreferenceController.OnLoadFinished: does not model 64-bit wrap-around of the size arithmetic, for the same reason.
- Storage.TotalValues: does not model 64-bit wrap-around of the running total.
- Search.SearchFragment.OnSearchResultClicked: does not model 32-bit wrap-around of the click count.
- Notification.JavaCompareTo: compares Dafny characters (Unicode scalar values), while Java compares UTF-16 code units, so ids holding characters above U+FFFF can tie-break in a different order than on a device.
