/** The mix orchestration of lib/audio-manager-utils.ts as values: the app's
    now-playing cell, the manager's state, and one function per exported
    operation. The methods in mix_player.dfy are proved against these
    functions.

    The awaited calls run one after another. handlePlaybackStatusChange
    starts playMix without waiting for it; here that play runs to its end
    before the handler returns, and an error it throws is lost. */
module MixSpec {

  import opened Options
  import opened Playback
  import opened LooperSpec
  import opened ManagerSpec

  /** A mix: its id, its name and its files, in order. */
  datatype Mix = Mix(id: string, name: string, audioFiles: seq<AudioFile>)

  /** The fields of the app store the orchestration reads and writes. */
  datatype AppState = AppState(nowPlayingMix: Option<Mix>, isPlaying: bool, isOffline: bool)

  /** The status the lock-screen player reports. */
  datatype PlayerStatus = StatusPlaying | StatusPaused | StatusStopped

  /** What the orchestration gets from outside: the clock, the looper
      loader, the file storage, how the download of a mix's files before
      loading it ends, and the mixes stored in the database by id. */
  datatype Env = Env(now: int, loader: Loader, storage: Storage, prefetch: Outcome, mixes: map<string, Mix>) {
    /** The database finds each mix under its own id. */
    predicate Valid() {
      forall k :: k in mixes ==> mixes[k].id == k
    }
  }

  // ---------------------------------------------------------------------------
  // Guards

  /** nowPlayingMix?.id !== mix.id */
  predicate OtherMixShown(app: AppState, mix: Mix) {
    app.nowPlayingMix.None? || app.nowPlayingMix.value.id != mix.id
  }

  /** audioManager.mixId === mix.id */
  predicate HoldsMix(m: ManagerState, mix: Mix) {
    m.mixId == Some(mix.id)
  }

  /** The guard that makes playMix return at once. */
  predicate AlreadyPlaying(m: ManagerState, app: AppState, mix: Mix, forcePlay: bool) {
    HoldsMix(m, mix) && app.isPlaying && !forcePlay
  }

  /** The guard under which playMix first stops the mix that is playing. */
  predicate MustStopOther(m: ManagerState, app: AppState, mix: Mix) {
    !HoldsMix(m, mix) && app.isPlaying
  }

  /** The guard under which togglePlayingMix plays rather than stops. */
  predicate TogglePlays(app: AppState, mix: Mix) {
    OtherMixShown(app, mix) || !app.isPlaying
  }

  /** `if (!audioManager?.mixId) return;`: no mix id, or the empty one. */
  predicate NoMixId(m: ManagerState) {
    m.mixId.None? || m.mixId.value == ""
  }

  // ---------------------------------------------------------------------------
  // Operations

  /** addFilesToManager: addFile for each file of the mix in order; the first
      error ends the loop and is passed on. */
  function AddFilesStep(m: ManagerState, files: seq<AudioFile>, loader: Loader, storage: Storage): (r: (ManagerState, Outcome))
    requires m.Valid()
    ensures r.0.Valid()
    decreases |files|
  {
    if files == [] then (m, Ok)
    else
      var added := AddFileStep(m, files[0], loader, storage);
      if added.1.Failed? then added else AddFilesStep(added.0, files[1..], loader, storage)
  }

  /** setMixAsNowPlaying(mix): the store shows the mix, and the manager
      loads it. */
  function SetMixAsNowPlayingStep(app: AppState, m: ManagerState, mix: Mix, env: Env): (r: (AppState, ManagerState, Outcome))
    requires m.Valid()
    ensures r.1.Valid()
  {
    var loaded := LoadMixStep(m, mix, app.isOffline, env);
    (ShowMix(app, mix), loaded.0, loaded.1)
  }

  /** The store's part of setMixAsNowPlaying: the now-playing mix is written
      only when it is another one. */
  function ShowMix(app: AppState, mix: Mix): (r: AppState)
  {
    if OtherMixShown(app, mix) then app.(nowPlayingMix := Some(mix)) else app
  }

  /** The manager's part of setMixAsNowPlaying. When the manager holds
      another mix, the files are downloaded first (online only; a failed
      download ends the call with its error), then the manager is cleared,
      given the mix's id and name and the offline flag read at entry, and the
      files are added. */
  function LoadMixStep(m: ManagerState, mix: Mix, offline: bool, env: Env): (r: (ManagerState, Outcome))
    requires m.Valid()
    ensures r.0.Valid()
  {
    if HoldsMix(m, mix) then (m, Ok)
    else if !offline && env.prefetch.Failed? then (m, env.prefetch)
    else AddFilesStep(PrepareStep(m, mix, offline, env), mix.audioFiles, env.loader, env.storage)
  }

  /** clearFiles, setMetadata(mix.id, mix.name), isOffline = offline. */
  function PrepareStep(m: ManagerState, mix: Mix, offline: bool, env: Env): (r: ManagerState)
    requires m.Valid()
    ensures r.Valid()
  {
    SetMetadataStep(ClearFilesStep(m, env.now), mix.id, mix.name, env.loader).(isOffline := offline)
  }

  /** stopPlayingMix: stop every file, then the store's stopPlayingMix, which
      clears isPlaying. */
  function StopPlayingMixStep(app: AppState, m: ManagerState, now: int): (r: (AppState, ManagerState))
    requires m.Valid()
    ensures r.1.Valid()
  {
    (app.(isPlaying := false), StopAllFilesStep(m, now))
  }

  /** clearNowPlayingMix: isPlaying and the now-playing mix are cleared
      first; then the manager is cleared and given the empty id and title. */
  function ClearNowPlayingMixStep(app: AppState, m: ManagerState, env: Env): (r: (AppState, ManagerState))
    requires m.Valid()
    ensures r.1.Valid()
  {
    (app.(isPlaying := false, nowPlayingMix := None),
     SetMetadataStep(ClearFilesStep(m, env.now), "", "", env.loader))
  }

  /** The status handler is installed when none is set. */
  function InstallHandler(m: ManagerState): (r: ManagerState)
    requires m.Valid()
    ensures r.Valid()
    ensures r.(playbackStatusChangeCallback := m.playbackStatusChangeCallback) == m
    ensures r.playbackStatusChangeCallback.Some?
  {
    if m.playbackStatusChangeCallback.None? then m.(playbackStatusChangeCallback := Some(HandlePlaybackStatusChange))
    else m
  }

  /** playMix(mix, {forcePlay}). isPlaying is read once, at entry. */
  function PlayMixStep(app: AppState, m: ManagerState, mix: Mix, forcePlay: bool, env: Env): (r: (AppState, ManagerState, Outcome))
    requires m.Valid()
    ensures r.1.Valid()
  {
    if AlreadyPlaying(m, app, mix, forcePlay) then (app, m, Ok)
    else
      var stopped := if MustStopOther(m, app, mix) then StopPlayingMixStep(app, m, env.now) else (app, m);
      PlayMixLoad(stopped.0, InstallHandler(stopped.1), mix, env)
  }

  /** The rest of playMix: show and load the mix, then mark it playing and
      play every file. An error from loading ends the call. */
  function PlayMixLoad(app: AppState, m: ManagerState, mix: Mix, env: Env): (r: (AppState, ManagerState, Outcome))
    requires m.Valid()
    ensures r.1.Valid()
  {
    var shown := SetMixAsNowPlayingStep(app, m, mix, env);
    if shown.2.Failed? then shown
    else (shown.0.(isPlaying := true), PlayAllFilesStep(shown.1, env.now, env.loader, env.storage), Ok)
  }

  /** handlePlaybackStatusChange({status}): pause and stop stop the mix; play
      plays the mix the manager holds, looked up in the database, unless
      there is no id or no such mix. */
  function HandlePlaybackStatusChangeStep(app: AppState, m: ManagerState, status: PlayerStatus, env: Env): (r: (AppState, ManagerState))
    requires m.Valid()
    ensures r.1.Valid()
  {
    if status != StatusPlaying then StopPlayingMixStep(app, m, env.now)
    else if NoMixId(m) || m.mixId.value !in env.mixes then (app, m)
    else
      var played := PlayMixStep(app, m, env.mixes[m.mixId.value], false, env);
      (played.0, played.1)
  }

  /** togglePlayingMix(mix) */
  function TogglePlayingMixStep(app: AppState, m: ManagerState, mix: Mix, env: Env): (r: (AppState, ManagerState, Outcome))
    requires m.Valid()
    ensures r.1.Valid()
  {
    if TogglePlays(app, mix) then PlayMixStep(app, m, mix, false, env)
    else
      var stopped := StopPlayingMixStep(app, m, env.now);
      (stopped.0, stopped.1, Ok)
  }

  // ---------------------------------------------------------------------------
  // Adding a mix's files

  /** A prefix of a file list keeps its ids. */
  lemma IdsOfPrefix(a: seq<AudioFile>, b: seq<AudioFile>)
    requires |a| <= |b| && b[..|a|] == a
    ensures forall k :: k in Ids(a) ==> k in Ids(b)
  {
    forall k | k in Ids(a) ensures k in Ids(b) {
      var i :| 0 <= i < |a| && Ids(a)[i] == k;
      assert b[i] == a[i];
      assert Ids(b)[i] == k;
    }
  }

  /** The fields addFile never writes: mix id, title, offline flag and
      status handler. */
  predicate SameSettings(a: ManagerState, b: ManagerState) {
    a.mixId == b.mixId && a.audioTitle == b.audioTitle && a.isOffline == b.isOffline &&
    a.playbackStatusChangeCallback == b.playbackStatusChangeCallback
  }

  /** One addFile: the file list stays or grows by the file, the settings
      stay, and an online add of a file other than the keep-alive one leaves
      its id listed. */
  lemma AddFileListsFile(m: ManagerState, file: AudioFile, loader: Loader, storage: Storage)
    requires m.Valid()
    ensures var r := AddFileStep(m, file, loader, storage).0;
      (r.files == m.files || r.files == m.files + [file]) && SameSettings(r, m)
    ensures !m.isOffline && file.id != SilentWavFileId ==> file.id in Ids(AddFileStep(m, file, loader, storage).0.files)
  {
    var r := AddFileStep(m, file, loader, storage).0;
    if file.id == SilentWavFileId || file.id in Ids(m.files) ||
       (m.isOffline && !storage.IsInCache(if file.fileUrl.Some? then file.fileUrl.value else "")) {
      AddFileSkips(m, file, loader, storage);
    } else {
      AddFileAppends(m, file, loader, storage);
      assert Ids(r.files)[|m.files|] == file.id;
    }
  }

  /** addFilesToManager keeps the settings. */
  lemma {:induction false} AddFilesKeepsSettings(m: ManagerState, files: seq<AudioFile>, loader: Loader, storage: Storage)
    requires m.Valid()
    ensures SameSettings(AddFilesStep(m, files, loader, storage).0, m)
    decreases |files|
  {
    if files != [] {
      var added := AddFileStep(m, files[0], loader, storage);
      AddFileListsFile(m, files[0], loader, storage);
      if added.1.Ok? {
        AddFilesKeepsSettings(added.0, files[1..], loader, storage);
      }
    }
  }

  /** The only error addFilesToManager passes on is the failed fetch of one
      of the files. */
  lemma {:induction false} AddFilesFailure(m: ManagerState, files: seq<AudioFile>, loader: Loader, storage: Storage)
    requires m.Valid()
    ensures AddFilesStep(m, files, loader, storage).1.Failed? ==>
      exists f :: f in files && AddFilesStep(m, files, loader, storage).1 == FileFetchOutcome(storage, f)
    decreases |files|
  {
    if files != [] {
      var file := files[0];
      var added := AddFileStep(m, file, loader, storage);
      if file.id == SilentWavFileId || file.id in Ids(m.files) ||
         (m.isOffline && !storage.IsInCache(if file.fileUrl.Some? then file.fileUrl.value else "")) {
        AddFileSkips(m, file, loader, storage);
      } else {
        AddFileAppends(m, file, loader, storage);
      }
      if added.1.Ok? {
        AddFilesFailure(added.0, files[1..], loader, storage);
        var r := AddFilesStep(added.0, files[1..], loader, storage);
        if r.1.Failed? {
          var f :| f in files[1..] && r.1 == FileFetchOutcome(storage, f);
          assert f in files;
        }
      } else {
        assert file in files;
      }
    }
  }

  /** The files addFilesToManager lists, given those already listed: in
      order, each file whose id is neither the keep-alive one nor listed
      before it, and which is in the cache when offline. */
  function Kept(listed: seq<AudioFile>, files: seq<AudioFile>, offline: bool, storage: Storage): seq<AudioFile>
    decreases |files|
  {
    if files == [] then []
    else
      var f := files[0];
      if f.id == SilentWavFileId || f.id in Ids(listed) ||
         (offline && !storage.IsInCache(if f.fileUrl.Some? then f.fileUrl.value else "")) then
        Kept(listed, files[1..], offline, storage)
      else [f] + Kept(listed + [f], files[1..], offline, storage)
  }

  lemma ConcatAssoc(a: seq<AudioFile>, b: seq<AudioFile>, c: seq<AudioFile>)
    ensures a + b + c == a + (b + c)
  {}

  /** When addFilesToManager succeeds, the file list ends as the files it
      had, followed by the kept files of the mix. */
  lemma {:induction false} AddFilesListsKept(m: ManagerState, files: seq<AudioFile>, loader: Loader, storage: Storage)
    requires m.Valid()
    ensures var r := AddFilesStep(m, files, loader, storage);
      r.1.Ok? ==> r.0.files == m.files + Kept(m.files, files, m.isOffline, storage)
    decreases |files|
  {
    if files != [] {
      var file := files[0];
      var added := AddFileStep(m, file, loader, storage);
      AddFileListsFile(m, file, loader, storage);
      if file.id == SilentWavFileId || file.id in Ids(m.files) ||
         (m.isOffline && !storage.IsInCache(if file.fileUrl.Some? then file.fileUrl.value else "")) {
        AddFileSkips(m, file, loader, storage);
        AddFilesListsKept(added.0, files[1..], loader, storage);
      } else {
        AddFileAppends(m, file, loader, storage);
        if added.1.Ok? {
          AddFilesListsKept(added.0, files[1..], loader, storage);
          ConcatAssoc(m.files, [file], Kept(m.files + [file], files[1..], m.isOffline, storage));
        }
      }
    }
  }

  /** b starts with a and goes on only with elements of files. */
  predicate ExtendsWith(a: seq<AudioFile>, b: seq<AudioFile>, files: seq<AudioFile>) {
    |a| <= |b| && b[..|a|] == a && forall f :: f in b[|a|..] ==> f in files
  }

  lemma ExtendsWithStep(a: seq<AudioFile>, b: seq<AudioFile>, c: seq<AudioFile>, files: seq<AudioFile>)
    requires files != []
    requires b == a || b == a + [files[0]]
    requires ExtendsWith(b, c, files[1..])
    ensures ExtendsWith(a, c, files)
  {
    assert c[..|a|] == c[..|b|][..|a|];
    forall f | f in c[|a|..] ensures f in files {
      var i :| |a| <= i < |c| && c[i] == f;
      if i < |b| {
        assert b[i] == f;
      } else {
        assert c[|b|..][i - |b|] == f;
        assert f in files[1..];
      }
    }
  }

  /** addFilesToManager keeps the files already listed, in front, and lists
      only files of the mix after them. */
  lemma {:induction false} AddFilesExtends(m: ManagerState, files: seq<AudioFile>, loader: Loader, storage: Storage)
    requires m.Valid()
    ensures ExtendsWith(m.files, AddFilesStep(m, files, loader, storage).0.files, files)
    decreases |files|
  {
    if files == [] {
      assert m.files[|m.files|..] == [];
    } else {
      var added := AddFileStep(m, files[0], loader, storage);
      AddFileListsFile(m, files[0], loader, storage);
      if added.1.Ok? {
        AddFilesExtends(added.0, files[1..], loader, storage);
        ExtendsWithStep(m.files, added.0.files, AddFilesStep(added.0, files[1..], loader, storage).0.files, files);
      } else {
        assert added.0.files[|m.files|..] == [] || added.0.files[|m.files|..] == [files[0]];
      }
    }
  }

  /** When addFilesToManager succeeds online, every file of the mix but the
      keep-alive one is listed. */
  lemma {:induction false} AddFilesListsAll(m: ManagerState, files: seq<AudioFile>, loader: Loader, storage: Storage)
    requires m.Valid() && !m.isOffline
    ensures var r := AddFilesStep(m, files, loader, storage);
      r.1.Ok? ==> forall f :: f in files && f.id != SilentWavFileId ==> f.id in Ids(r.0.files)
    decreases |files|
  {
    if files != [] {
      var added := AddFileStep(m, files[0], loader, storage);
      AddFileListsFile(m, files[0], loader, storage);
      if added.1.Ok? {
        var m1 := added.0;
        var r := AddFilesStep(m1, files[1..], loader, storage);
        AddFilesListsAll(m1, files[1..], loader, storage);
        if r.1.Ok? {
          AddFilesExtends(m1, files[1..], loader, storage);
          IdsOfPrefix(m1.files, r.0.files);
          forall f | f in files && f.id != SilentWavFileId ensures f.id in Ids(r.0.files) {
            if f != files[0] {
              assert f in files[1..];
            }
          }
        }
      }
    }
  }

  // ---------------------------------------------------------------------------
  // Properties of the operations

  /** setMixAsNowPlaying writes the now-playing cell exactly when it shows
      another mix, and touches no other field of the store. */
  lemma SetMixWritesCellOnlyWhenOther(app: AppState, m: ManagerState, mix: Mix, env: Env)
    requires m.Valid()
    ensures var r := SetMixAsNowPlayingStep(app, m, mix, env);
      r.0.nowPlayingMix == (if OtherMixShown(app, mix) then Some(mix) else app.nowPlayingMix) &&
      r.0.nowPlayingMix.Some? && r.0.nowPlayingMix.value.id == mix.id &&
      r.0.isPlaying == app.isPlaying && r.0.isOffline == app.isOffline
  {}

  /** When the manager already holds the mix, setMixAsNowPlaying succeeds
      and leaves it alone. When it holds another mix and the download (if
      online) succeeds, the manager ends
      with the mix's id and name and the store's offline flag, its files
      are files of the mix, and on success online every file of the mix but
      the keep-alive one is listed. A failed download leaves the manager
      alone. */
  lemma SetMixLoadsOtherMix(app: AppState, m: ManagerState, mix: Mix, env: Env)
    requires m.Valid()
    ensures HoldsMix(m, mix) ==> SetMixAsNowPlayingStep(app, m, mix, env).1 == m && SetMixAsNowPlayingStep(app, m, mix, env).2 == Ok
    ensures var r := SetMixAsNowPlayingStep(app, m, mix, env);
      (!HoldsMix(m, mix) && !app.isOffline && env.prefetch.Failed? ==> r.1 == m && r.2 == env.prefetch)
    ensures var r := SetMixAsNowPlayingStep(app, m, mix, env);
      !HoldsMix(m, mix) && (app.isOffline || env.prefetch.Ok?) ==>
        r.1.mixId == Some(mix.id) && r.1.audioTitle == Some(mix.name) && r.1.isOffline == app.isOffline &&
        (forall f :: f in r.1.files ==> f in mix.audioFiles) &&
        (r.2.Ok? ==> r.1.files == Kept([], mix.audioFiles, app.isOffline, env.storage)) &&
        (r.2.Ok? && !app.isOffline ==>
          forall f :: f in mix.audioFiles && f.id != SilentWavFileId ==> f.id in Ids(r.1.files))
  {
    if !HoldsMix(m, mix) && (app.isOffline || env.prefetch.Ok?) {
      var m1 := ClearFilesStep(m, env.now);
      ClearFilesResets(m, env.now, env.now);
      var m2 := SetMetadataStep(m1, mix.id, mix.name, env.loader);
      SetMetadataStores(m1, mix.id, mix.name, env.loader);
      var m3 := m2.(isOffline := app.isOffline);
      AddFilesKeepsSettings(m3, mix.audioFiles, env.loader, env.storage);
      AddFilesExtends(m3, mix.audioFiles, env.loader, env.storage);
      AddFilesListsKept(m3, mix.audioFiles, env.loader, env.storage);
      if !app.isOffline {
        AddFilesListsAll(m3, mix.audioFiles, env.loader, env.storage);
      }
      assert m3.files == [];
    }
  }

  /** playMix does nothing when the manager holds the mix, it is playing
      and the play is not forced. Otherwise, when it succeeds, the mix is
      shown, marked playing and held by the manager; when it fails, the
      error is the download's or one file's fetch, and nothing is marked
      playing. */
  lemma PlayMixEffect(app: AppState, m: ManagerState, mix: Mix, forcePlay: bool, env: Env)
    requires m.Valid()
    ensures AlreadyPlaying(m, app, mix, forcePlay) ==> PlayMixStep(app, m, mix, forcePlay, env) == (app, m, Ok)
    ensures var r := PlayMixStep(app, m, mix, forcePlay, env);
      !AlreadyPlaying(m, app, mix, forcePlay) && r.2.Ok? ==>
        r.0.isPlaying && r.0.nowPlayingMix.Some? && r.0.nowPlayingMix.value.id == mix.id &&
        r.1.mixId == Some(mix.id)
    ensures var r := PlayMixStep(app, m, mix, forcePlay, env);
      r.2.Failed? ==>
        !r.0.isPlaying &&
        (r.2 == env.prefetch || exists f :: f in mix.audioFiles && r.2 == FileFetchOutcome(env.storage, f)) &&
        r.0.nowPlayingMix.Some? && r.0.nowPlayingMix.value.id == mix.id
  {
    if !AlreadyPlaying(m, app, mix, forcePlay) {
      var stopped := if MustStopOther(m, app, mix) then StopPlayingMixStep(app, m, env.now) else (app, m);
      var m1 := InstallHandler(stopped.1);
      assert m1.mixId == m.mixId;
      SetMixWritesCellOnlyWhenOther(stopped.0, m1, mix, env);
      SetMixOutcome(stopped.0, m1, mix, env);
      var shown := SetMixAsNowPlayingStep(stopped.0, m1, mix, env);
      if shown.2.Ok? {
        PlayAllFilesKeepsSettings(shown.1, env.now, env.loader, env.storage);
      }
    }
  }

  /** The manager's side of a playMix that does not return at once: every
      file is stopped first only when the store marks playing and the
      manager holds another mix; then the status handler is installed and
      the mix loaded, and when the load succeeds playAllFiles runs on the
      loaded manager. */
  lemma PlayMixManager(app: AppState, m: ManagerState, mix: Mix, forcePlay: bool, env: Env)
    requires m.Valid() && !AlreadyPlaying(m, app, mix, forcePlay)
    ensures var r := PlayMixStep(app, m, mix, forcePlay, env);
      var h := InstallHandler(if MustStopOther(m, app, mix) then StopAllFilesStep(m, env.now) else m);
      var loaded := LoadMixStep(h, mix, app.isOffline, env);
      r.1 == (if loaded.1.Ok? then PlayAllFilesStep(loaded.0, env.now, env.loader, env.storage) else loaded.0) &&
      r.2 == loaded.1
  {}

  /** A successful playMix leaves the manager listing the kept files of the
      mix, or the files it had when it held the mix already. */
  lemma PlayMixListsKept(app: AppState, m: ManagerState, mix: Mix, forcePlay: bool, env: Env)
    requires m.Valid() && !AlreadyPlaying(m, app, mix, forcePlay)
    ensures var r := PlayMixStep(app, m, mix, forcePlay, env);
      r.2.Ok? ==> r.1.files == if HoldsMix(m, mix) then m.files else Kept([], mix.audioFiles, app.isOffline, env.storage)
  {
    var h := InstallHandler(if MustStopOther(m, app, mix) then StopAllFilesStep(m, env.now) else m);
    var loaded := LoadMixStep(h, mix, app.isOffline, env);
    PlayMixManager(app, m, mix, forcePlay, env);
    if loaded.1.Ok? {
      PlayAllFilesKeepsFiles(loaded.0, env.now, env.loader, env.storage);
      if !HoldsMix(m, mix) {
        var stoppedApp := if MustStopOther(m, app, mix) then app.(isPlaying := false) else app;
        SetMixLoadsOtherMix(stoppedApp, h, mix, env);
      }
    }
  }

  /** playAllFiles keeps the file list. */
  lemma PlayAllFilesKeepsFiles(m: ManagerState, now: int, loader: Loader, storage: Storage)
    requires m.Valid()
    ensures PlayAllFilesStep(m, now, loader, storage).files == m.files
  {
    PlayAllFilesEffect(m, now, loader, storage);
  }

  /** A successful setMixAsNowPlaying leaves the manager holding the mix; a
      failed one fails with the download's error or addFile's, and only
      when the manager held another mix. */
  lemma SetMixOutcome(app: AppState, m: ManagerState, mix: Mix, env: Env)
    requires m.Valid()
    ensures var r := SetMixAsNowPlayingStep(app, m, mix, env);
      (r.2.Ok? ==> r.1.mixId == Some(mix.id)) &&
      (r.2.Failed? ==>
        !HoldsMix(m, mix) && (r.2 == env.prefetch || exists f :: f in mix.audioFiles && r.2 == FileFetchOutcome(env.storage, f)))
  {
    if !HoldsMix(m, mix) && (app.isOffline || env.prefetch.Ok?) {
      SetMixLoadsOtherMix(app, m, mix, env);
      ClearFilesResets(m, env.now, env.now);
      var d := SetMetadataStep(ClearFilesStep(m, env.now), mix.id, mix.name, env.loader);
      AddFilesFailure(d.(isOffline := app.isOffline), mix.audioFiles, env.loader, env.storage);
    }
  }

  /** setMixAsNowPlaying keeps the manager's status handler. */
  lemma SetMixKeepsHandler(app: AppState, m: ManagerState, mix: Mix, env: Env)
    requires m.Valid()
    ensures SetMixAsNowPlayingStep(app, m, mix, env).1.playbackStatusChangeCallback == m.playbackStatusChangeCallback
  {
    if !HoldsMix(m, mix) && (app.isOffline || env.prefetch.Ok?) {
      ClearFilesResets(m, env.now, env.now);
      var d := SetMetadataStep(ClearFilesStep(m, env.now), mix.id, mix.name, env.loader);
      AddFilesKeepsSettings(d.(isOffline := app.isOffline), mix.audioFiles, env.loader, env.storage);
    }
  }

  /** Unless it returns at once, playMix leaves a status handler installed,
      whether it succeeds or not. */
  lemma PlayMixInstallsHandler(app: AppState, m: ManagerState, mix: Mix, forcePlay: bool, env: Env)
    requires m.Valid() && !AlreadyPlaying(m, app, mix, forcePlay)
    ensures PlayMixStep(app, m, mix, forcePlay, env).1.playbackStatusChangeCallback.Some?
  {
    var stopped := if MustStopOther(m, app, mix) then StopPlayingMixStep(app, m, env.now) else (app, m);
    var m1 := InstallHandler(stopped.1);
    var shown := SetMixAsNowPlayingStep(stopped.0, m1, mix, env);
    SetMixKeepsHandler(stopped.0, m1, mix, env);
    PlayAllFilesKeepsSettings(shown.1, env.now, env.loader, env.storage);
  }

  /** playAllFiles keeps the settings. */
  lemma PlayAllFilesKeepsSettings(m: ManagerState, now: int, loader: Loader, storage: Storage)
    requires m.Valid()
    ensures SameSettings(PlayAllFilesStep(m, now, loader, storage), m)
  {
    var m1 := AddNotificationStep(m, loader);
    var m2 := PlayFileStep(m1, SilentWavAudioFile, now, loader, storage);
    PlayEachKeepsSettings(m2, m2.files, now, loader, storage);
  }

  lemma {:induction false} PlayEachKeepsSettings(m: ManagerState, files: seq<AudioFile>, now: int, loader: Loader, storage: Storage)
    requires m.Valid()
    ensures SameSettings(PlayEach(m, files, now, loader, storage), m)
    decreases |files|
  {
    if files != [] {
      var m1 := PlayFileStep(m, files[0], now, loader, storage);
      if files[0].id != SilentWavFileId {
        AddFileListsFile(m, files[0], loader, storage);
      }
      PlayEachKeepsSettings(m1, files[1..], now, loader, storage);
    }
  }

  /** togglePlayingMix stops the mix when it is shown and playing, and plays
      it otherwise; a toggle that stops leaves nothing playing, and one that
      plays and succeeds leaves the mix playing. */
  lemma ToggleFlipsPlaying(app: AppState, m: ManagerState, mix: Mix, env: Env)
    requires m.Valid()
    ensures TogglePlays(app, mix) ==> TogglePlayingMixStep(app, m, mix, env) == PlayMixStep(app, m, mix, false, env)
    ensures !TogglePlays(app, mix) ==> !TogglePlayingMixStep(app, m, mix, env).0.isPlaying
    ensures var r := TogglePlayingMixStep(app, m, mix, env);
      TogglePlays(app, mix) && r.2.Ok? ==> r.0.isPlaying
  {
    if TogglePlays(app, mix) {
      PlayMixEffect(app, m, mix, false, env);
    }
  }

  /** A toggle on the mix that is shown and playing never plays, and one on
      any other mix never stops without playing. */
  lemma ToggleOnPlayingMixStops(app: AppState, m: ManagerState, mix: Mix, env: Env)
    requires m.Valid() && app.isPlaying && app.nowPlayingMix == Some(mix)
    ensures TogglePlayingMixStep(app, m, mix, env) ==
      (app.(isPlaying := false), StopAllFilesStep(m, env.now), Ok)
  {}

  /** clearNowPlayingMix leaves nothing shown or playing, an empty file list,
      the empty mix id and title, and at most the keep-alive looper, which is
      added again exactly when the old title was set. */
  lemma ClearNowPlayingResets(app: AppState, m: ManagerState, env: Env)
    requires m.Valid()
    ensures var r := ClearNowPlayingMixStep(app, m, env);
      !r.0.isPlaying && r.0.nowPlayingMix.None? && r.0.isOffline == app.isOffline &&
      r.1.files == [] && r.1.mixId == Some("") && r.1.audioTitle == Some("") &&
      (forall k :: k in r.1.loopers ==> k == SilentWavFileId) &&
      (r.1.isNotificationFileAdded <==> TitleSet(m.audioTitle))
  {
    ClearFilesResets(m, env.now, env.now);
    var c := ClearFilesStep(m, env.now);
    KeepAliveAddedOnce(c, env.loader);
  }

  /** A paused or stopped player leaves nothing marked playing and no
      listed file's looper playing, and keeps the file list; a playing one
      with no mix id, or an id the database lacks, changes nothing. */
  lemma HandleStatusStops(app: AppState, m: ManagerState, status: PlayerStatus, env: Env)
    requires m.Valid()
    ensures var r := HandlePlaybackStatusChangeStep(app, m, status, env);
      status != StatusPlaying ==>
        !r.0.isPlaying && r.0.nowPlayingMix == app.nowPlayingMix && r.1.files == m.files &&
        forall k :: k in r.1.loopers && k in Ids(m.files) ==> !r.1.loopers[k].isCurrentlyPlaying
    ensures status == StatusPlaying && (NoMixId(m) || m.mixId.value !in env.mixes) ==>
      HandlePlaybackStatusChangeStep(app, m, status, env) == (app, m)
  {
    StopAllFilesEffect(m, env.now);
  }

  /** A play report while the held mix is already playing changes nothing. */
  lemma HandlePlayingWhilePlaying(app: AppState, m: ManagerState, env: Env)
    requires m.Valid() && env.Valid() && app.isPlaying
    ensures HandlePlaybackStatusChangeStep(app, m, StatusPlaying, env) == (app, m)
  {}

  /** A play report while nothing is marked playing plays the mix the
      manager holds: the store shows it and marks it playing, a status
      handler is installed, and every looper of the manager is played. */
  lemma HandlePlayingPlaysHeldMix(app: AppState, m: ManagerState, env: Env)
    requires m.Valid() && env.Valid() && !app.isPlaying && !NoMixId(m) && m.mixId.value in env.mixes
    ensures var mix := env.mixes[m.mixId.value];
      var h := InstallHandler(m);
      var h1 := AddNotificationStep(h, env.loader);
      var r := HandlePlaybackStatusChangeStep(app, m, StatusPlaying, env);
      r.0 == ShowMix(app, mix).(isPlaying := true) &&
      r.1 == h1.(loopers := map k | k in h1.loopers :: PlayStep(h1.loopers[k], env.now, env.loader))
  {
    PlayAllFilesEffect(InstallHandler(m), env.now, env.loader, env.storage);
  }
}
