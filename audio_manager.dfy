/** The iOSAudioManager class of lib/iOSAudioManager.ts: the ordered file
    list, one FadingLooper per file id, and the silent keep-alive looper under
    the reserved id. Every method is proved to move the manager's state (its
    own fields and the state of each registered looper) exactly as the
    matching function of ManagerSpec does. */
module AudioManager {

  import opened Options
  import opened Playback
  import opened LooperSpec
  import opened ManagerSpec
  import opened Looper

  /** new FadingLooper(source, volume) followed by init(). */
  method NewInitialisedLooper(source: Source, volume: real, loader: Loader) returns (lp: FadingLooper)
    ensures fresh(lp) && lp.State() == NewLooper(source, volume, loader)
  {
    lp := new FadingLooper(source, volume);
    lp.Init(loader);
  }

  /** The looper addFile creates: new FadingLooper(source, volume), init(),
      then setVolume(volume). */
  method NewLooperAtVolume(source: Source, volume: real, loader: Loader) returns (lp: FadingLooper)
    ensures fresh(lp) && lp.State() == SetVolumeStep(NewLooper(source, volume, loader), volume)
  {
    lp := NewInitialisedLooper(source, volume, loader);
    lp.SetVolume(volume);
  }

  lemma StatesOfWithout(objs: map<string, FadingLooper>, id: string)
    ensures IOSAudioManager.StatesOf(objs - {id}) == IOSAudioManager.StatesOf(objs) - {id}
  {
  }

  class IOSAudioManager {
    var files: seq<AudioFile>
    var audioTitle: Option<string>
    var mixId: Option<string>
    var isNotificationFileAdded: bool
    var isOffline: bool
    var playbackStatusChangeCallback: Option<StatusHandler>
    var audioObjects: map<string, FadingLooper>

    /** The state of the looper registered under each id. */
    function Loopers(): map<string, LooperState>
      reads this, audioObjects.Values
    {
      StatesOf(audioObjects)
    }

    static function StatesOf(objs: map<string, FadingLooper>): (r: map<string, LooperState>)
      reads objs.Values
      ensures r.Keys == objs.Keys
    {
      map k | k in objs :: objs[k].State()
    }

    function State(): ManagerState
      reads this, audioObjects.Values
    {
      ManagerState(files, Loopers(), audioTitle, mixId, isNotificationFileAdded, isOffline,
                   playbackStatusChangeCallback)
    }

    /** No two ids share a looper: each is created by its own addFile. */
    predicate Distinct()
      reads this
    {
      forall a, b :: a in audioObjects && b in audioObjects && a != b ==> audioObjects[a] != audioObjects[b]
    }

    predicate Valid()
      reads this, audioObjects.Values
    {
      Distinct() && State().Valid()
    }

    constructor (audioTitle: Option<string>, mixId: Option<string>, callback: Option<StatusHandler>)
      ensures State() == InitialManager(audioTitle, mixId, callback)
      ensures Valid()
    {
      this.audioTitle := Some(if audioTitle.Some? then audioTitle.value else DefaultAudioTitle);
      files := [];
      audioObjects := map[];
      playbackStatusChangeCallback := callback;
      this.mixId := mixId;
      isOffline := false;
      isNotificationFileAdded := false;
    }

    lemma LooperValid(id: string)
      requires Valid() && id in audioObjects
      ensures audioObjects[id].Valid()
    {
      assert Loopers()[id] == audioObjects[id].State();
    }

    /** After a call that may change only the looper under id, the looper
        table's states differ from the old ones at id at most. */
    twostate lemma OthersUnchanged(id: string)
      requires old(Distinct()) && id in old(audioObjects) && audioObjects == old(audioObjects)
      requires forall o :: o in audioObjects.Values && o != audioObjects[id] ==> unchanged(o)
      ensures Loopers() == old(Loopers())[id := audioObjects[id].State()]
    {
      forall k | k in audioObjects && k != id
        ensures audioObjects[k].State() == old(audioObjects[k].State())
      {
        assert audioObjects[k] in audioObjects.Values && audioObjects[k] != audioObjects[id];
      }
    }

    /** ... and the manager stays valid when that looper does. */
    twostate lemma StaysValid(id: string)
      requires old(Valid()) && id in old(audioObjects) && unchanged(this)
      requires Loopers() == old(Loopers())[id := audioObjects[id].State()]
      requires audioObjects[id].Valid()
      ensures State() == old(State()).(loopers := Loopers())
      ensures Valid()
    {
      assert Loopers()[id].Valid();
    }

    /** play() on the looper registered under id; no other looper changes. */
    method PlayLooper(id: string, now: int, loader: Loader)
      requires Valid() && id in audioObjects
      modifies audioObjects[id]
      ensures State() == old(State()).(loopers := old(Loopers())[id := PlayStep(old(Loopers())[id], now, loader)])
      ensures Valid()
    {
      var lp := audioObjects[id];
      LooperValid(id);
      lp.Play(now, loader);
      OthersUnchanged(id);
      StaysValid(id);
    }

    /** pause() (no fade-out) on the looper registered under id. */
    method PauseLooper(id: string, now: int)
      requires Valid() && id in audioObjects
      modifies audioObjects[id]
      ensures State() == old(State()).(loopers := old(Loopers())[id := PauseStep(old(Loopers())[id], now, false)])
      ensures Valid()
    {
      var lp := audioObjects[id];
      LooperValid(id);
      lp.Pause(now, false);
      OthersUnchanged(id);
      StaysValid(id);
    }

    /** setVolume(v) on the looper registered under id. */
    method SetLooperVolume(id: string, v: real)
      requires Valid() && id in audioObjects
      modifies audioObjects[id]
      ensures State() == old(State()).(loopers := old(Loopers())[id := SetVolumeStep(old(Loopers())[id], v)])
      ensures Valid()
    {
      var lp := audioObjects[id];
      LooperValid(id);
      lp.SetVolume(v);
      OthersUnchanged(id);
      StaysValid(id);
    }

    /** audioObjects[id] = lp, for a looper no id holds yet. */
    method Register(id: string, lp: FadingLooper)
      requires Distinct() && lp !in audioObjects.Values
      modifies this
      ensures audioObjects == old(audioObjects)[id := lp]
      ensures audioObjects.Values <= old(audioObjects.Values) + {lp}
      ensures Distinct()
      ensures Loopers() == old(Loopers())[id := lp.State()]
      ensures State() == old(State()).(loopers := Loopers())
    {
      audioObjects := audioObjects[id := lp];
      assert Loopers() == old(Loopers())[id := lp.State()];
    }

    /** addNotificationAudioFile. Setting the audio session mode comes first
        in the source and is not modelled. */
    method AddNotificationAudioFile(loader: Loader)
      requires Valid()
      modifies this
      ensures State() == AddNotificationStep(old(State()), loader)
      ensures forall o :: o in audioObjects.Values ==> o in old(audioObjects.Values) || fresh(o)
      ensures Valid()
    {
      if isNotificationFileAdded {
        return;
      }
      if !TitleSet(audioTitle) {
        // "No audio title provided" is thrown and logged.
        return;
      }
      ghost var m := State();
      ghost var added := m.(loopers := m.loopers[SilentWavFileId := NewLooper(SilentWavSource, 0.0, loader)],
                            isNotificationFileAdded := true);
      assert AddNotificationStep(m, loader) == added;
      var lp := NewInitialisedLooper(SilentWavSource, 0.0, loader);
      assert State() == m;
      isNotificationFileAdded := true;
      assert State() == m.(isNotificationFileAdded := true);
      Register(SilentWavFileId, lp);
      assert State() == added;
    }

    /** addFile(file); a thrown error is returned as Failed. */
    method AddFile(file: AudioFile, loader: Loader, storage: Storage) returns (outcome: Outcome)
      requires Valid()
      modifies this
      ensures (State(), outcome) == AddFileStep(old(State()), file, loader, storage)
      ensures forall o :: o in audioObjects.Values ==> o in old(audioObjects.Values) || fresh(o)
      ensures Valid()
    {
      if file.id == SilentWavFileId {
        return Ok;
      }
      AddNotificationAudioFile(loader);
      if file.id in Ids(files) {
        return Ok;
      }
      var fileIsInCache := storage.IsInCache(if file.fileUrl.Some? then file.fileUrl.value else "");
      if isOffline && !fileIsInCache {
        return Ok;
      }
      ListFile(file);
      outcome := AddFetchedFile(file, storage.Fetch(FullUrl(storage.baseUrl, file.fileUrl)), loader);
    }

    /** files.push(file) for a file not listed yet. */
    method ListFile(file: AudioFile)
      requires Valid() && file.id != SilentWavFileId && file.id !in Ids(files)
      modifies this
      ensures Valid() && file.id in Ids(files) && file.id !in audioObjects
      ensures State() == old(State()).(files := old(files) + [file])
      ensures audioObjects == old(audioObjects)
    {
      assert file.id !in audioObjects;
      ghost var m := State();
      ListedValid(m, file);
      files := files + [file];
      assert State() == m.(files := m.files + [file]);
    }

    /** The rest of addFile once the file is listed: the download result
        decides between the thrown error and a new, initialised looper at
        the file's volume. */
    method AddFetchedFile(file: AudioFile, fetched: Fetched, loader: Loader) returns (outcome: Outcome)
      requires Valid() && file.id in Ids(files) && file.id !in audioObjects
      modifies this
      ensures (State(), outcome) == AddFetched(old(State()), file, fetched, loader)
      ensures forall o :: o in audioObjects.Values ==> o in old(audioObjects.Values) || fresh(o)
      ensures Valid()
    {
      if fetched.FetchError? {
        return Failed(fetched.message);
      }
      if fetched.path == "" {
        return Failed(DownloadFailedMessage);
      }
      ghost var m := State();
      var volume := VolumeOrDefault(file.volume);
      var lp := NewLooperAtVolume(Uri(fetched.path), volume, loader);
      assert State() == m;
      Register(file.id, lp);
      return Ok;
    }

    /** removeFile(file): the id leaves the file list; its looper, if any,
        is paused, unloaded and dropped from the table. */
    method RemoveFile(file: AudioFile, now: int)
      requires Valid()
      modifies this, audioObjects.Values
      ensures State() == RemoveFileStep(old(State()), file)
      ensures audioObjects.Keys == old(audioObjects.Keys) - {file.id}
      ensures audioObjects.Values <= old(audioObjects.Values)
      ensures file.id in old(audioObjects) ==>
        old(audioObjects)[file.id].State() == DestroyStep(PauseStep(old(Loopers())[file.id], now, false))
      ensures Valid()
    {
      ghost var m := State();
      if file.id in audioObjects {
        var lp := audioObjects[file.id];
        ShutLooper(file.id, now);
        DropLooper(file.id);
        RemoveFileAfterUpdate(m, file, lp.State());
      }
      UnlistFile(file);
    }

    /** pause() then destroy() on the looper registered under id. */
    method ShutLooper(id: string, now: int)
      requires Valid() && id in audioObjects
      modifies audioObjects[id]
      ensures audioObjects[id].State() == DestroyStep(PauseStep(old(Loopers())[id], now, false))
      ensures State() == old(State()).(loopers := old(Loopers())[id := audioObjects[id].State()])
      ensures Valid()
    {
      var lp := audioObjects[id];
      LooperValid(id);
      lp.Pause(now, false);
      lp.Destroy();
      OthersUnchanged(id);
      StaysValid(id);
    }

    /** delete audioObjects[id]. */
    method DropLooper(id: string)
      requires Valid() && id in audioObjects
      modifies this
      ensures State() == old(State()).(loopers := old(Loopers()) - {id})
      ensures audioObjects == old(audioObjects) - {id}
      ensures Valid()
    {
      ghost var objs := audioObjects;
      ghost var before := StatesOf(objs);
      audioObjects := audioObjects - {id};
      StatesOfWithout(objs, id);
      assert StatesOf(objs) == before;
    }

    /** files = files.filter(f => f.id !== file.id), once the id has no looper. */
    method UnlistFile(file: AudioFile)
      requires Valid() && file.id !in audioObjects
      modifies this
      ensures State() == RemoveFileStep(old(State()), file)
      ensures audioObjects == old(audioObjects)
      ensures Valid()
    {
      ghost var m := State();
      ghost var objs := audioObjects;
      ghost var before := StatesOf(objs);
      assert m.loopers - {file.id} == m.loopers;
      files := WithoutId(files, file.id);
      assert StatesOf(objs) == before;
      assert State() == m.(files := WithoutId(m.files, file.id));
    }

    /** playFile(file): add it (unless it is the keep-alive file), then play
        its looper. A failed add or a missing looper is logged and ends the
        call. */
    method PlayFile(file: AudioFile, now: int, loader: Loader, storage: Storage)
      requires Valid()
      modifies this, audioObjects.Values
      ensures State() == PlayFileStep(old(State()), file, now, loader, storage)
      ensures forall o :: o in audioObjects.Values ==> o in old(audioObjects.Values) || fresh(o)
      ensures Valid()
    {
      var outcome := Ok;
      if file.id != SilentWavFileId {
        outcome := AddFile(file, loader, storage);
      }
      if outcome.Failed? || file.id !in audioObjects {
        // "Audio object with id ... not found" is thrown and logged.
        return;
      }
      PlayLooper(file.id, now, loader);
    }

    /** stopFile(file): pause its looper, if there is one. */
    method StopFile(file: AudioFile, now: int)
      requires Valid()
      modifies audioObjects.Values
      ensures State() == StopFileStep(old(State()), file, now)
      ensures Valid()
    {
      if file.id in audioObjects {
        PauseLooper(file.id, now);
      }
    }

    /** toggleFile(file): pause a playing looper, play any other. */
    method ToggleFile(file: AudioFile, now: int, loader: Loader)
      requires Valid()
      modifies audioObjects.Values
      ensures State() == ToggleFileStep(old(State()), file, now, loader)
      ensures Valid()
    {
      if file.id !in audioObjects {
        // "Audio object with id ... not found" is thrown and logged.
        return;
      }
      var lp := audioObjects[file.id];
      if lp.isCurrentlyPlaying {
        PauseLooper(file.id, now);
      } else {
        PlayLooper(file.id, now, loader);
      }
    }

    /** changeVolume(file, v); the thrown error is returned as Failed. */
    method ChangeVolume(file: AudioFile, v: real) returns (outcome: Outcome)
      requires Valid()
      modifies audioObjects.Values
      ensures (State(), outcome) == ChangeVolumeStep(old(State()), file, v)
      ensures Valid()
    {
      if file.id !in audioObjects {
        return Failed(NotFoundMessage(file.id));
      }
      SetLooperVolume(file.id, v);
      return Ok;
    }

    /** hasFile(file): some listed file has its id. A file with a looper of
        its own is always listed. */
    function HasFile(file: AudioFile): (b: bool)
      reads this, audioObjects.Values
      ensures b <==> file.id in Ids(files)
      ensures Valid() && file.id in audioObjects && file.id != SilentWavFileId ==> b
    {
      exists f | f in files :: f.id == file.id
    }

    /** setMetadata(mixId, title): the keep-alive looper first, then the new
        mix id and title. */
    method SetMetadata(mixId: string, title: string, loader: Loader)
      requires Valid()
      modifies this
      ensures State() == SetMetadataStep(old(State()), mixId, title, loader)
      ensures forall o :: o in audioObjects.Values ==> o in old(audioObjects.Values) || fresh(o)
      ensures Valid()
    {
      AddNotificationAudioFile(loader);
      StoreMetadata(mixId, title);
    }

    method StoreMetadata(mixId: string, title: string)
      requires Valid()
      modifies this
      ensures State() == old(State()).(mixId := Some(mixId), audioTitle := Some(title))
      ensures audioObjects == old(audioObjects)
      ensures Valid()
    {
      ghost var m := State();
      ghost var objs := audioObjects;
      ghost var before := StatesOf(objs);
      this.mixId := Some(mixId);
      audioTitle := Some(title);
      assert StatesOf(objs) == before;
    }

    /** playAllFiles: the keep-alive looper is added and played, then every
        listed file. The source starts the per-file plays together and waits
        for all of them; here they run one after another in list order. */
    method PlayAllFiles(now: int, loader: Loader, storage: Storage)
      requires Valid()
      modifies this, audioObjects.Values
      ensures State() == PlayAllFilesStep(old(State()), now, loader, storage)
      ensures forall o :: o in audioObjects.Values ==> o in old(audioObjects.Values) || fresh(o)
      ensures Valid()
    {
      AddNotificationAudioFile(loader);
      PlayFile(SilentWavAudioFile, now, loader, storage);
      PlayFiles(files, now, loader, storage);
    }

    /** playFile for each file of list, in order. */
    method PlayFiles(list: seq<AudioFile>, now: int, loader: Loader, storage: Storage)
      requires Valid()
      modifies this, audioObjects.Values
      ensures State() == PlayEach(old(State()), list, now, loader, storage)
      ensures forall o :: o in audioObjects.Values ==> o in old(audioObjects.Values) || fresh(o)
      ensures Valid()
    {
      var i := 0;
      while i < |list|
        invariant 0 <= i <= |list| && Valid()
        invariant PlayEach(State(), list[i..], now, loader, storage) == PlayEach(old(State()), list, now, loader, storage)
        invariant forall o :: o in audioObjects.Values ==> o in old(audioObjects.Values) || fresh(o)
      {
        assert list[i..][0] == list[i] && list[i..][1..] == list[i + 1..];
        ghost var s := State();
        assert PlayEach(s, list[i..], now, loader, storage)
            == PlayEach(PlayFileStep(s, list[i], now, loader, storage), list[i + 1..], now, loader, storage);
        PlayFile(list[i], now, loader, storage);
        i := i + 1;
      }
    }

    /** stopAllFiles: the keep-alive looper when it was added, then every
        listed file (all started together in the source). */
    method StopAllFiles(now: int)
      requires Valid()
      modifies audioObjects.Values
      ensures State() == StopAllFilesStep(old(State()), now)
      ensures Valid()
    {
      if isNotificationFileAdded {
        StopFile(SilentWavAudioFile, now);
      }
      StopFiles(files, now);
    }

    /** stopFile for each file of list, in order. */
    method StopFiles(list: seq<AudioFile>, now: int)
      requires Valid()
      modifies audioObjects.Values
      ensures State() == StopEach(old(State()), list, now)
      ensures Valid()
    {
      var i := 0;
      while i < |list|
        invariant 0 <= i <= |list| && Valid()
        invariant StopEach(State(), list[i..], now) == StopEach(old(State()), list, now)
      {
        assert list[i..][0] == list[i] && list[i..][1..] == list[i + 1..];
        ghost var s := State();
        assert StopEach(s, list[i..], now) == StopEach(StopFileStep(s, list[i], now), list[i + 1..], now);
        StopFile(list[i], now);
        i := i + 1;
      }
    }

    /** clearFiles: stop everything, remove the keep-alive file and then every
        listed file from the last to the first, and start over with empty
        tables. The mix id and the title are kept. */
    method ClearFiles(now: int)
      requires Valid()
      modifies this, audioObjects.Values
      ensures State() == ClearFilesStep(old(State()), now)
      ensures audioObjects == map[]
      ensures Valid()
    {
      StopAllFiles(now);
      RemoveFile(SilentWavAudioFile, now);
      RemoveFiles(Reverse(files), now);
      Reset();
    }

    /** removeFile for each file of list, in order. */
    method RemoveFiles(list: seq<AudioFile>, now: int)
      requires Valid()
      modifies this, audioObjects.Values
      ensures State() == RemoveEach(old(State()), list)
      ensures Valid()
    {
      var i := 0;
      while i < |list|
        invariant 0 <= i <= |list| && Valid()
        invariant RemoveEach(State(), list[i..]) == RemoveEach(old(State()), list)
        invariant audioObjects.Values <= old(audioObjects.Values)
      {
        assert list[i..][0] == list[i] && list[i..][1..] == list[i + 1..];
        ghost var s := State();
        assert RemoveEach(s, list[i..]) == RemoveEach(RemoveFileStep(s, list[i]), list[i + 1..]);
        RemoveFile(list[i], now);
        i := i + 1;
      }
    }

    /** The end of clearFiles: empty file list and looper table, and the
        keep-alive looper marked as not added. */
    method Reset()
      modifies this
      ensures State() == old(State()).(files := [], loopers := map[], isNotificationFileAdded := false)
      ensures audioObjects == map[]
      ensures Valid()
    {
      files := [];
      audioObjects := map[];
      isNotificationFileAdded := false;
    }
  }
}
