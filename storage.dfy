/**
 * The storage screen's line items: which intent a tap on each item launches (and as which user), the
 * sizes shown once the app-size loader finishes, and the per-user media-size sum.
 */
module Storage {
  import opened Common

  const PHOTO_KEY := "pref_photos_videos"
  const AUDIO_KEY := "pref_music_audio"
  const GAME_KEY := "pref_games"
  const OTHER_APPS_KEY := "pref_other_apps"
  const SYSTEM_KEY := "pref_system"
  const FILES_KEY := "pref_files"

  const IMAGE_MIME_TYPE := "image/*"
  const ACTION_VIEW := "android.intent.action.VIEW"
  const EXTRA_USER_ID := "android.intent.extra.USER_ID"

  const MANAGE_APPLICATIONS := "com.android.settings.applications.ManageApplications"
  const STORAGE_USE_ACTIVITY := "com.android.settings.Settings$StorageUseActivity"
  const GAMES_STORAGE_ACTIVITY := "com.android.settings.Settings$GamesStorageActivity"

  /** The storage volume the screen shows: its file-system UUID and its description. */
  datatype VolumeInfo = VolumeInfo(fsUuid: Option<string>, description: Option<string>)

  /** The argument keys of the app-list fragment, and the values stored at them. */
  datatype ArgKey = ClassNameArg | VolumeUuidArg | VolumeNameArg | StorageTypeArg
  datatype ArgValue = StringArg(s: Option<string>) | StorageTypeMusic

  /** The title string resources of the app-list fragment. */
  datatype TitleRes = StorageMusicAudioTitle | AppsStorageTitle | GameStorageSettingsTitle

  /** What `Utils.onBuildStartFragmentIntent` is asked for: fragment class, arguments, title, metrics category. */
  datatype FragmentRequest = FragmentRequest(fragment: string, args: map<ArgKey, ArgValue>, title: TitleRes,
                                             metricsCategory: int)

  /**
   * The foreign calls the controller makes, passed in: the fragment-intent builder, the browse intent of
   * the emulated volume paired with a volume, and the host fragment's metrics category.
   */
  datatype Collaborators = Collaborators(
    startFragmentIntent: FragmentRequest -> Intent,
    browseIntent: Option<VolumeInfo> -> Intent,
    metricsCategory: int)

  /** A launch made by `launchIntent` (a missing activity is swallowed, so every attempt is recorded). */
  datatype Launch = StartActivity(intent: Intent) | StartActivityAsUser(intent: Intent, user: UserHandle)

  // ---------------------------------------------------------------- click intents

  /** `getPhotosIntent`: view any image, as a new document. */
  function PhotosIntent(): (r: Intent)
    ensures r.action == Some(ACTION_VIEW) && r.mimeType == Some(IMAGE_MIME_TYPE)
    ensures r.flags == {FlagActivityNewDocument} && r.component.None? && r.extras == map[]
  {
    ActionIntent(ACTION_VIEW).(flags := {FlagActivityNewDocument}, mimeType := Some(IMAGE_MIME_TYPE))
  }

  /** The app list filtered to one volume, as `getAudioIntent` and `getAppsIntent` request it. */
  function VolumeArgs(volume: VolumeInfo): (r: map<ArgKey, ArgValue>)
    ensures r.Keys == {ClassNameArg, VolumeUuidArg, VolumeNameArg}
    ensures r[ClassNameArg] == StringArg(Some(STORAGE_USE_ACTIVITY))
    ensures r[VolumeUuidArg] == StringArg(volume.fsUuid) && r[VolumeNameArg] == StringArg(volume.description)
  {
    map[ClassNameArg := StringArg(Some(STORAGE_USE_ACTIVITY)),
        VolumeUuidArg := StringArg(volume.fsUuid),
        VolumeNameArg := StringArg(volume.description)]
  }

  /** `getAudioIntent`'s request: the volume's app list restricted to music. */
  function AudioRequest(volume: VolumeInfo, c: Collaborators): (r: FragmentRequest)
    ensures r.fragment == MANAGE_APPLICATIONS && r.title == StorageMusicAudioTitle
    ensures r.args == VolumeArgs(volume)[StorageTypeArg := StorageTypeMusic]
    ensures r.metricsCategory == c.metricsCategory
  {
    FragmentRequest(MANAGE_APPLICATIONS, VolumeArgs(volume)[StorageTypeArg := StorageTypeMusic],
                    StorageMusicAudioTitle, c.metricsCategory)
  }

  /** `getAppsIntent`'s request: the volume's app list. */
  function AppsRequest(volume: VolumeInfo, c: Collaborators): (r: FragmentRequest)
    ensures r.fragment == MANAGE_APPLICATIONS && r.title == AppsStorageTitle && r.args == VolumeArgs(volume)
    ensures r.metricsCategory == c.metricsCategory
  {
    FragmentRequest(MANAGE_APPLICATIONS, VolumeArgs(volume), AppsStorageTitle, c.metricsCategory)
  }

  /** `getGamesIntent`'s request: the games list, with no volume. */
  function GamesRequest(c: Collaborators): (r: FragmentRequest)
    ensures r.fragment == MANAGE_APPLICATIONS && r.title == GameStorageSettingsTitle
    ensures r.args == map[ClassNameArg := StringArg(Some(GAMES_STORAGE_ACTIVITY))]
    ensures r.metricsCategory == c.metricsCategory
  {
    FragmentRequest(MANAGE_APPLICATIONS, map[ClassNameArg := StringArg(Some(GAMES_STORAGE_ACTIVITY))],
                    GameStorageSettingsTitle, c.metricsCategory)
  }

  /** The keys a tap on which builds an intent, given the current volume. */
  predicate Launches(key: string, volume: Option<VolumeInfo>) {
    key == PHOTO_KEY || key == AUDIO_KEY || key == GAME_KEY || key == FILES_KEY ||
    (key == OTHER_APPS_KEY && volume.Some?)
  }

  /**
   * The key switch of `handlePreferenceTreeClick`: the intent for a tapped key, or none for the
   * other-apps key without a volume, the system key and unknown keys. The audio intent reads the
   * volume, so the audio key needs one.
   */
  function ClickIntent(key: string, volume: Option<VolumeInfo>, c: Collaborators): (r: Option<Intent>)
    requires key == AUDIO_KEY ==> volume.Some?
    ensures r.Some? <==> Launches(key, volume)
    ensures key == PHOTO_KEY ==> r == Some(PhotosIntent())
    ensures key == AUDIO_KEY ==> r == Some(c.startFragmentIntent(AudioRequest(volume.value, c)))
    ensures key == GAME_KEY ==> r == Some(c.startFragmentIntent(GamesRequest(c)))
    ensures key == OTHER_APPS_KEY && volume.Some? ==> r == Some(c.startFragmentIntent(AppsRequest(volume.value, c)))
    ensures key == FILES_KEY ==> r == Some(c.browseIntent(volume))
  {
    if key == PHOTO_KEY then Some(PhotosIntent())
    else if key == AUDIO_KEY then Some(c.startFragmentIntent(AudioRequest(volume.value, c)))
    else if key == GAME_KEY then Some(c.startFragmentIntent(GamesRequest(c)))
    else if key == OTHER_APPS_KEY then
      (if volume.None? then None else Some(c.startFragmentIntent(AppsRequest(volume.value, c))))
    else if key == FILES_KEY then Some(c.browseIntent(volume))
    else None
  }

  /** `launchIntent`: a user-id extra of -1 (or none) starts from the fragment, any other as that user. */
  function LaunchFor(intent: Intent): (r: Launch)
    ensures r.intent == intent
    ensures r.StartActivity? <==> GetIntExtra(intent, EXTRA_USER_ID, -1) == -1
    ensures r.StartActivityAsUser? ==> r.user == UserHandle(GetIntExtra(intent, EXTRA_USER_ID, -1))
  {
    var userId := GetIntExtra(intent, EXTRA_USER_ID, -1);
    if userId == -1 then StartActivity(intent) else StartActivityAsUser(intent, UserHandle(userId))
  }

  /** Stamping the user id and then launching starts as that user, except for the id -1. */
  lemma StampedLaunchTargetsUser(intent: Intent, userId: int)
    ensures var stamped := PutIntExtra(intent, EXTRA_USER_ID, userId);
      LaunchFor(stamped) == (if userId == -1 then StartActivity(stamped) else StartActivityAsUser(stamped, UserHandle(userId)))
  {
  }

  // ---------------------------------------------------------------- sizes

  /** `getUsedKeys`: the six line-item keys, in screen order. */
  method GetUsedKeys() returns (keys: seq<string>)
    ensures keys == [PHOTO_KEY, AUDIO_KEY, GAME_KEY, OTHER_APPS_KEY, SYSTEM_KEY, FILES_KEY]
  {
    keys := [];
    keys := keys + [PHOTO_KEY];
    keys := keys + [AUDIO_KEY];
    keys := keys + [GAME_KEY];
    keys := keys + [OTHER_APPS_KEY];
    keys := keys + [SYSTEM_KEY];
    keys := keys + [FILES_KEY];
  }

  /**
   * Every used key is distinct, and every one but the system key launches something once a volume is
   * set; the system key never does.
   */
  lemma UsedKeysLaunch(volume: VolumeInfo)
    ensures var keys := [PHOTO_KEY, AUDIO_KEY, GAME_KEY, OTHER_APPS_KEY, SYSTEM_KEY, FILES_KEY];
      (forall i, j :: 0 <= i < j < |keys| ==> keys[i] != keys[j]) &&
      (forall i :: 0 <= i < |keys| ==> (Launches(keys[i], Some(volume)) <==> keys[i] != SYSTEM_KEY))
  {
    var keys := [PHOTO_KEY, AUDIO_KEY, GAME_KEY, OTHER_APPS_KEY, SYSTEM_KEY, FILES_KEY];
    assert forall i :: 0 <= i < |keys| ==> keys[i][5] == ['p', 'm', 'g', 'o', 's', 'f'][i];
  }

  /** The storage measurement the loader delivers for the external (shared) storage. */
  datatype ExternalStats = ExternalStats(totalBytes: int, audioBytes: int, videoBytes: int, imageBytes: int)

  /** `StorageAsyncLoader.AppsStorageResult`. */
  datatype AppsStorageResult = AppsStorageResult(gamesSize: int, musicAppsSize: int, otherAppsSize: int,
                                                 externalStats: ExternalStats)

  /** The bytes of shared storage that are neither audio, video nor images. */
  function UnattributedBytes(s: ExternalStats): (r: int)
    ensures r + s.audioBytes + s.videoBytes + s.imageBytes == s.totalBytes
  {
    s.totalBytes - s.audioBytes - s.videoBytes - s.imageBytes
  }

  /** The sum over `keys` (with repetition, in order) of the values present in `m`; absent keys add 0. */
  function SumPresent(m: map<string, int>, keys: seq<string>): int
    decreases |keys|
  {
    if keys == [] then 0
    else SumPresent(m, keys[..|keys| - 1]) + (if keys[|keys| - 1] in m then m[keys[|keys| - 1]] else 0)
  }

  /** The sum splits over concatenated key lists. */
  lemma {:induction false} SumPresentAppend(m: map<string, int>, a: seq<string>, b: seq<string>)
    ensures SumPresent(m, a + b) == SumPresent(m, a) + SumPresent(m, b)
    decreases |b|
  {
    if b == [] {
      assert a + b == a;
    } else {
      var front := b[..|b| - 1];
      assert (a + b)[..|a + b| - 1] == a + front;
      SumPresentAppend(m, a, front);
    }
  }

  /** Keys absent from the map contribute nothing, and non-negative sizes sum to a non-negative total. */
  lemma {:induction false} SumPresentBounds(m: map<string, int>, keys: seq<string>)
    ensures (forall i :: 0 <= i < |keys| ==> keys[i] !in m) ==> SumPresent(m, keys) == 0
    ensures (forall k :: k in m ==> m[k] >= 0) ==> SumPresent(m, keys) >= 0
    decreases |keys|
  {
    if keys != [] {
      SumPresentBounds(m, keys[..|keys| - 1]);
    }
  }

  /** `totalValues`: the sum over the user's media-size map, or 0 when the user has no map. */
  method TotalValues(mediaSize: map<int, map<string, int>>, userId: int, keys: seq<string>) returns (total: int)
    ensures userId !in mediaSize ==> total == 0
    ensures userId in mediaSize ==> total == SumPresent(mediaSize[userId], keys)
  {
    total := 0;
    if userId in mediaSize {
      var m := mediaSize[userId];
      for i := 0 to |keys|
        invariant total == SumPresent(m, keys[..i])
      {
        assert keys[..i + 1][..i] == keys[..i];
        if keys[i] in m {
          total := total + m[keys[i]];
        }
      }
      assert keys[..|keys|] == keys;
    }
  }

  /** A tapped preference: its key may be null. */
  datatype TappedPreference = TappedPreference(key: Option<string>)

  /** The answer of `handlePreferenceTreeClick`, or a hand-off to the superclass's implementation. */
  datatype ClickResult = Handled(handled: bool) | DelegatedToSuper

  class StorageItemPreferenceController {
    const collaborators: Collaborators
    var volume: Option<VolumeInfo>
    var userId: int
    var systemSize: int
    /** The line-item keys whose preference `displayPreference` found on the screen. */
    var shown: set<string>
    /** The storage size last set on each line item. */
    var sizes: map<string, int>
    var launches: seq<Launch>
    /** The number of `STORAGE_FILES` metrics actions logged. */
    var filesMetrics: nat

    constructor (volume: Option<VolumeInfo>, myUserId: int, collaborators: Collaborators)
      ensures this.volume == volume && userId == myUserId && this.collaborators == collaborators
      ensures shown == {} && sizes == map[] && launches == [] && filesMetrics == 0 && systemSize == 0
    {
      this.collaborators := collaborators;
      this.volume := volume;
      userId := myUserId;
      systemSize := 0;
      shown := {};
      sizes := map[];
      launches := [];
      filesMetrics := 0;
    }

    method SetVolume(volume: Option<VolumeInfo>)
      modifies this
      ensures this.volume == volume
      ensures userId == old(userId) && systemSize == old(systemSize) && shown == old(shown)
      ensures sizes == old(sizes) && launches == old(launches) && filesMetrics == old(filesMetrics)
    {
      this.volume := volume;
    }

    method SetUserId(userId: int)
      modifies this
      ensures this.userId == userId
      ensures volume == old(volume) && systemSize == old(systemSize) && shown == old(shown)
      ensures sizes == old(sizes) && launches == old(launches) && filesMetrics == old(filesMetrics)
    {
      this.userId := userId;
    }

    method SetSystemSize(systemSize: int)
      modifies this
      ensures this.systemSize == systemSize
      ensures volume == old(volume) && userId == old(userId) && shown == old(shown)
      ensures sizes == old(sizes) && launches == old(launches) && filesMetrics == old(filesMetrics)
    {
      this.systemSize := systemSize;
    }

    /** `displayPreference`: look up each line item on the screen; missing ones stay null. */
    method DisplayPreference(screenKeys: set<string>)
      modifies this
      ensures shown == screenKeys * {PHOTO_KEY, AUDIO_KEY, GAME_KEY, OTHER_APPS_KEY, SYSTEM_KEY, FILES_KEY}
      ensures volume == old(volume) && userId == old(userId) && systemSize == old(systemSize)
      ensures sizes == old(sizes) && launches == old(launches) && filesMetrics == old(filesMetrics)
    {
      shown := screenKeys * {PHOTO_KEY, AUDIO_KEY, GAME_KEY, OTHER_APPS_KEY, SYSTEM_KEY, FILES_KEY};
    }

    /**
     * `handlePreferenceTreeClick`: a null preference or key is refused; a key that builds an intent
     * stamps the current user id on it, launches it and is handled; anything else goes to the
     * superclass. The files key also logs a metrics action.
     */
    method HandlePreferenceTreeClick(preference: Option<TappedPreference>) returns (result: ClickResult)
      requires preference.Some? && preference.value.key == Some(AUDIO_KEY) ==> volume.Some?
      modifies this
      ensures volume == old(volume) && userId == old(userId) && systemSize == old(systemSize)
      ensures shown == old(shown) && sizes == old(sizes)
      ensures preference.None? || preference.value.key.None? ==>
        result == Handled(false) && launches == old(launches) && filesMetrics == old(filesMetrics)
      ensures preference.Some? && preference.value.key.Some? ==>
        var key := preference.value.key.value;
        (Launches(key, volume) ==>
          var stamped := PutIntExtra(ClickIntent(key, volume, collaborators).value, EXTRA_USER_ID, userId);
          result == Handled(true) &&
          launches == old(launches) + [if userId == -1 then StartActivity(stamped)
                                       else StartActivityAsUser(stamped, UserHandle(userId))]) &&
        (!Launches(key, volume) ==> result == DelegatedToSuper && launches == old(launches)) &&
        filesMetrics == old(filesMetrics) + (if key == FILES_KEY then 1 else 0)
    {
      if preference.None? {
        return Handled(false);
      }
      if preference.value.key.None? {
        return Handled(false);
      }
      var key := preference.value.key.value;
      var intent := ClickIntent(key, volume, collaborators);
      if key == FILES_KEY {
        filesMetrics := filesMetrics + 1;
      }
      if intent.Some? {
        var stamped := PutIntExtra(intent.value, EXTRA_USER_ID, userId);
        StampedLaunchTargetsUser(intent.value, userId);
        LaunchIntent(stamped);
        return Handled(true);
      }
      return DelegatedToSuper;
    }

    /** `launchIntent`: record the launch the intent's user-id extra selects. */
    method LaunchIntent(intent: Intent)
      modifies this
      ensures launches == old(launches) + [LaunchFor(intent)]
      ensures volume == old(volume) && userId == old(userId) && systemSize == old(systemSize)
      ensures shown == old(shown) && sizes == old(sizes) && filesMetrics == old(filesMetrics)
    {
      var userId := GetIntExtra(intent, EXTRA_USER_ID, -1);
      if userId == -1 {
        launches := launches + [StartActivity(intent)];
      } else {
        launches := launches + [StartActivityAsUser(intent, UserHandle(userId))];
      }
    }

    /**
     * `onLoadFinished`: set the five always-present line items from the loader's result, and the system
     * item from the stored system size when it is on the screen. The photos and files items together
     * with the audio bytes account for all of the shared storage.
     */
    method OnLoadFinished(data: AppsStorageResult)
      requires {PHOTO_KEY, AUDIO_KEY, GAME_KEY, OTHER_APPS_KEY, FILES_KEY} <= shown
      modifies this
      ensures var s := data.externalStats;
        sizes.Keys == old(sizes).Keys + {PHOTO_KEY, AUDIO_KEY, GAME_KEY, OTHER_APPS_KEY, FILES_KEY} +
          (if SYSTEM_KEY in shown then {SYSTEM_KEY} else {}) &&
        sizes[PHOTO_KEY] == s.imageBytes + s.videoBytes &&
        sizes[AUDIO_KEY] == data.musicAppsSize + s.audioBytes &&
        sizes[GAME_KEY] == data.gamesSize &&
        sizes[OTHER_APPS_KEY] == data.otherAppsSize &&
        sizes[FILES_KEY] == UnattributedBytes(s) &&
        sizes[PHOTO_KEY] + sizes[FILES_KEY] + s.audioBytes == s.totalBytes
      ensures SYSTEM_KEY in shown ==> sizes[SYSTEM_KEY] == systemSize
      ensures SYSTEM_KEY !in shown && SYSTEM_KEY in old(sizes) ==> sizes[SYSTEM_KEY] == old(sizes)[SYSTEM_KEY]
      ensures forall k :: k in old(sizes) && k !in {PHOTO_KEY, AUDIO_KEY, GAME_KEY, OTHER_APPS_KEY, SYSTEM_KEY, FILES_KEY} ==>
        sizes[k] == old(sizes)[k]
      ensures volume == old(volume) && userId == old(userId) && systemSize == old(systemSize)
      ensures shown == old(shown) && launches == old(launches) && filesMetrics == old(filesMetrics)
    {
      var s := data.externalStats;
      sizes := sizes[PHOTO_KEY := s.imageBytes + s.videoBytes];
      sizes := sizes[AUDIO_KEY := data.musicAppsSize + s.audioBytes];
      sizes := sizes[GAME_KEY := data.gamesSize];
      sizes := sizes[OTHER_APPS_KEY := data.otherAppsSize];
      if SYSTEM_KEY in shown {
        sizes := sizes[SYSTEM_KEY := systemSize];
      }
      var unattributedBytes := s.totalBytes - s.audioBytes - s.videoBytes - s.imageBytes;
      sizes := sizes[FILES_KEY := unattributedBytes];
    }
  }
}
