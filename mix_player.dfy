/** The exported functions of lib/audio-manager-utils.ts, acting on the app
    store's now-playing fields and on the audio manager instance. Each method
    is proved to move the store and the manager exactly as the matching
    function of MixSpec does. */
module MixPlayer {

  import opened Options
  import opened Playback
  import opened LooperSpec
  import opened ManagerSpec
  import opened MixSpec
  import opened Looper
  import opened AudioManager

  /** The app store's fields the mix functions read and write. */
  class AppStore {
    var nowPlayingMix: Option<Mix>
    var isPlaying: bool
    var isOffline: bool

    function State(): (r: AppState)
      reads this
      ensures r.nowPlayingMix == nowPlayingMix && r.isPlaying == isPlaying && r.isOffline == isOffline
    {
      AppState(nowPlayingMix, isPlaying, isOffline)
    }

    constructor (isOffline: bool)
      ensures State() == AppState(None, false, isOffline)
    {
      nowPlayingMix := None;
      isPlaying := false;
      this.isOffline := isOffline;
    }
  }

  /** audioManager.isOffline = offline */
  method AssignOffline(manager: IOSAudioManager, offline: bool)
    requires manager.Valid()
    modifies manager
    ensures manager.State() == old(manager.State()).(isOffline := offline)
    ensures manager.audioObjects == old(manager.audioObjects)
    ensures manager.Valid()
  {
    ghost var objs := manager.audioObjects;
    ghost var before := IOSAudioManager.StatesOf(objs);
    manager.isOffline := offline;
    assert IOSAudioManager.StatesOf(objs) == before;
  }

  /** playMix installs handlePlaybackStatusChange when no handler is set. */
  method InstallStatusHandler(manager: IOSAudioManager)
    requires manager.Valid()
    modifies manager
    ensures manager.State() == InstallHandler(old(manager.State()))
    ensures manager.audioObjects == old(manager.audioObjects)
    ensures manager.Valid()
  {
    if manager.playbackStatusChangeCallback.None? {
      ghost var objs := manager.audioObjects;
      ghost var before := IOSAudioManager.StatesOf(objs);
      manager.playbackStatusChangeCallback := Some(HandlePlaybackStatusChange);
      assert IOSAudioManager.StatesOf(objs) == before;
    }
  }

  /** addFilesToManager: addFile for each file of the mix, in order; the
      first error ends the loop and is returned. */
  method AddFilesToManager(manager: IOSAudioManager, files: seq<AudioFile>, loader: Loader, storage: Storage)
    returns (outcome: Outcome)
    requires manager.Valid()
    modifies manager
    ensures (manager.State(), outcome) == AddFilesStep(old(manager.State()), files, loader, storage)
    ensures forall o :: o in manager.audioObjects.Values ==> o in old(manager.audioObjects.Values) || fresh(o)
    ensures manager.Valid()
  {
    var i := 0;
    while i < |files|
      invariant 0 <= i <= |files| && manager.Valid()
      invariant forall o :: o in manager.audioObjects.Values ==> o in old(manager.audioObjects.Values) || fresh(o)
      invariant AddFilesStep(manager.State(), files[i..], loader, storage) == AddFilesStep(old(manager.State()), files, loader, storage)
    {
      assert files[i..][0] == files[i] && files[i..][1..] == files[i + 1..];
      ghost var s := manager.State();
      outcome := manager.AddFile(files[i], loader, storage);
      if outcome.Failed? {
        return;
      }
      assert AddFilesStep(s, files[i..], loader, storage) == AddFilesStep(manager.State(), files[i + 1..], loader, storage);
      i := i + 1;
    }
    assert files[i..] == [];
    outcome := Ok;
  }

  /** setMixAsNowPlaying(mix). */
  method SetMixAsNowPlaying(store: AppStore, manager: IOSAudioManager, mix: Mix, env: Env) returns (outcome: Outcome)
    requires manager.Valid()
    modifies store, manager, manager.audioObjects.Values
    ensures store.State() == ShowMix(old(store.State()), mix)
    ensures (manager.State(), outcome) == LoadMixStep(old(manager.State()), mix, old(store.isOffline), env)
    ensures forall o :: o in manager.audioObjects.Values ==> o in old(manager.audioObjects.Values) || fresh(o)
    ensures manager.Valid()
  {
    var offline := store.isOffline;
    ghost var m := manager.State();
    if store.nowPlayingMix.None? || store.nowPlayingMix.value.id != mix.id {
      store.nowPlayingMix := Some(mix);
    }
    assert manager.State() == m;
    label Shown:
    outcome := LoadMix(manager, mix, offline, env);
    assert unchanged@Shown(store);
  }

  /** The manager's part of setMixAsNowPlaying. */
  method LoadMix(manager: IOSAudioManager, mix: Mix, offline: bool, env: Env) returns (outcome: Outcome)
    requires manager.Valid()
    modifies manager, manager.audioObjects.Values
    ensures (manager.State(), outcome) == LoadMixStep(old(manager.State()), mix, offline, env)
    ensures forall o :: o in manager.audioObjects.Values ==> o in old(manager.audioObjects.Values) || fresh(o)
    ensures manager.Valid()
  {
    if manager.mixId == Some(mix.id) {
      return Ok;
    }
    if !offline && env.prefetch.Failed? {
      return env.prefetch;
    }
    ghost var m := manager.State();
    PrepareManager(manager, mix, offline, env);
    ghost var p := manager.State();
    assert p == PrepareStep(m, mix, offline, env);
    outcome := AddFilesToManager(manager, mix.audioFiles, env.loader, env.storage);
    assert (manager.State(), outcome) == AddFilesStep(p, mix.audioFiles, env.loader, env.storage);
  }

  /** clearFiles, setMetadata(mix.id, mix.name), isOffline = offline. */
  method PrepareManager(manager: IOSAudioManager, mix: Mix, offline: bool, env: Env)
    requires manager.Valid()
    modifies manager, manager.audioObjects.Values
    ensures manager.State() == PrepareStep(old(manager.State()), mix, offline, env)
    ensures forall o :: o in manager.audioObjects.Values ==> fresh(o)
    ensures manager.Valid()
  {
    manager.ClearFiles(env.now);
    manager.SetMetadata(mix.id, mix.name, env.loader);
    AssignOffline(manager, offline);
  }

  /** stopPlayingMix: stop every file, then the store's stopPlayingMix. The
      two writes touch disjoint objects, so the store's is made first here;
      the end state is the same. */
  method StopPlayingMix(store: AppStore, manager: IOSAudioManager, now: int)
    requires manager.Valid()
    modifies store, manager.audioObjects.Values
    ensures store.State() == old(store.State()).(isPlaying := false)
    ensures manager.State() == StopAllFilesStep(old(manager.State()), now)
    ensures manager.Valid()
  {
    ghost var m := manager.State();
    store.isPlaying := false;
    assert manager.State() == m;
    label Marked:
    manager.StopAllFiles(now);
    assert unchanged@Marked(store);
  }

  /** clearNowPlayingMix. */
  method ClearNowPlayingMix(store: AppStore, manager: IOSAudioManager, env: Env)
    requires manager.Valid()
    modifies store, manager, manager.audioObjects.Values
    ensures store.State() == ClearNowPlayingMixStep(old(store.State()), old(manager.State()), env).0
    ensures manager.State() == ClearNowPlayingMixStep(old(store.State()), old(manager.State()), env).1
    ensures manager.Valid()
  {
    ghost var m := manager.State();
    store.isPlaying := false;
    store.nowPlayingMix := None;
    assert manager.State() == m;
    label Cleared:
    ResetManager(manager, env);
    assert unchanged@Cleared(store);
  }

  /** The manager's part of clearNowPlayingMix: clearFiles, then
      setMetadata("", ""). */
  method ResetManager(manager: IOSAudioManager, env: Env)
    requires manager.Valid()
    modifies manager, manager.audioObjects.Values
    ensures manager.State() == SetMetadataStep(ClearFilesStep(old(manager.State()), env.now), "", "", env.loader)
    ensures manager.Valid()
  {
    manager.ClearFiles(env.now);
    manager.SetMetadata("", "", env.loader);
  }

  /** playMix(mix, {forcePlay}). */
  method PlayMix(store: AppStore, manager: IOSAudioManager, mix: Mix, forcePlay: bool, env: Env) returns (outcome: Outcome)
    requires manager.Valid()
    modifies store, manager, manager.audioObjects.Values
    ensures store.State() == PlayMixStep(old(store.State()), old(manager.State()), mix, forcePlay, env).0
    ensures manager.State() == PlayMixStep(old(store.State()), old(manager.State()), mix, forcePlay, env).1
    ensures outcome == PlayMixStep(old(store.State()), old(manager.State()), mix, forcePlay, env).2
    ensures manager.Valid()
  {
    var playing := store.isPlaying;
    if manager.mixId == Some(mix.id) && playing && !forcePlay {
      return Ok;
    }
    if manager.mixId != Some(mix.id) && playing {
      StopPlayingMix(store, manager, env.now);
    }
    InstallStatusHandler(manager);
    outcome := PlayLoadedMix(store, manager, mix, env);
  }

  /** The rest of playMix: show and load the mix, then mark it playing and
      play every file. */
  method PlayLoadedMix(store: AppStore, manager: IOSAudioManager, mix: Mix, env: Env) returns (outcome: Outcome)
    requires manager.Valid()
    modifies store, manager, manager.audioObjects.Values
    ensures store.State() == PlayMixLoad(old(store.State()), old(manager.State()), mix, env).0
    ensures manager.State() == PlayMixLoad(old(store.State()), old(manager.State()), mix, env).1
    ensures outcome == PlayMixLoad(old(store.State()), old(manager.State()), mix, env).2
    ensures manager.Valid()
  {
    outcome := SetMixAsNowPlaying(store, manager, mix, env);
    if outcome.Failed? {
      return;
    }
    ghost var m := manager.State();
    store.isPlaying := true;
    assert manager.State() == m;
    label Shown:
    manager.PlayAllFiles(env.now, env.loader, env.storage);
    assert unchanged@Shown(store);
  }

  /** handlePlaybackStatusChange({status}). The play it starts is not
      awaited in the source; its error is dropped here too. */
  method HandlePlaybackStatusChangeOf(store: AppStore, manager: IOSAudioManager, status: PlayerStatus, env: Env)
    requires manager.Valid()
    modifies store, manager, manager.audioObjects.Values
    ensures store.State() == HandlePlaybackStatusChangeStep(old(store.State()), old(manager.State()), status, env).0
    ensures manager.State() == HandlePlaybackStatusChangeStep(old(store.State()), old(manager.State()), status, env).1
    ensures manager.Valid()
  {
    if status != StatusPlaying {
      StopPlayingMix(store, manager, env.now);
      return;
    }
    if manager.mixId.None? || manager.mixId.value == "" || manager.mixId.value !in env.mixes {
      return;
    }
    var _ := PlayMix(store, manager, env.mixes[manager.mixId.value], false, env);
  }

  /** togglePlayingMix(mix). */
  method TogglePlayingMix(store: AppStore, manager: IOSAudioManager, mix: Mix, env: Env) returns (outcome: Outcome)
    requires manager.Valid()
    modifies store, manager, manager.audioObjects.Values
    ensures store.State() == TogglePlayingMixStep(old(store.State()), old(manager.State()), mix, env).0
    ensures manager.State() == TogglePlayingMixStep(old(store.State()), old(manager.State()), mix, env).1
    ensures outcome == TogglePlayingMixStep(old(store.State()), old(manager.State()), mix, env).2
    ensures manager.Valid()
  {
    if store.nowPlayingMix.None? || store.nowPlayingMix.value.id != mix.id || !store.isPlaying {
      outcome := PlayMix(store, manager, mix, false, env);
    } else {
      StopPlayingMix(store, manager, env.now);
      outcome := Ok;
    }
  }
}
