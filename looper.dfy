/** The FadingLooper class of lib/FadingLooper.ts: two handles on one sound,
    the active one named by soundIsPlaying, with debounced play and pause, a
    stepped fade-out, a coalescing volume timer and a crossfade at the loop
    boundary. Every method is proved to move the object's state exactly as the
    matching event function of LooperSpec does. */
module Looper {

  import opened Options
  import opened Playback
  import opened LooperSpec

  /** fade: the ramp from `from` to `to` in CrossfadeSteps + 1 levels, then a
      stop when the target is 0. A level the handle rejects is logged and the
      loop goes on, so `applied` lists the levels that took effect: the whole
      ramp on a loaded handle, none on an unloaded one. */
  method Fade(s: Sound, from: real, to: real) returns (r: Sound, applied: seq<real>)
    ensures applied == (if s.loaded then Ramp(from, to) else [])
    ensures r == FadeResult(s, from, to)
  {
    r := s;
    applied := [];
    ghost var ramp := Ramp(from, to);
    var i := 0;
    while i <= CrossfadeSteps
      invariant 0 <= i <= CrossfadeSteps + 1
      invariant r == s.(volume := r.volume)
      invariant i > 0 && s.loaded ==> r.volume == RampLevel(from, to, i - 1)
      invariant !s.loaded ==> r == s && applied == []
      invariant s.loaded ==> applied == ramp[..i]
    {
      var level := RampLevel(from, to, i);
      if r.loaded {
        r := r.(volume := level);
        PrefixStep(ramp, i);
        applied := applied + [level];
      }
      i := i + 1;
    }
    assert s.loaded ==> applied == ramp[..|ramp|] == ramp;
    RampEnds(from, to);
    if to == 0.0 {
      r := Stop(r);
    }
  }

  /** Extending a prefix of a sequence by one element. */
  lemma PrefixStep(levels: seq<real>, i: nat)
    requires i < |levels|
    ensures levels[..i + 1] == levels[..i] + [levels[i]]
  {
    assert levels[..i + 1] == levels[..i] + [levels[i]];
  }

  class FadingLooper {
    const source: Source
    var sound1: Sound
    var sound2: Sound
    var isInitialized: bool
    var isCurrentlyPlaying: bool
    var isFading: bool
    var soundIsPlaying: BufferId
    var volume: real
    var lastAction: Option<Action>
    var actionTimestamp: int
    /** The fade-out the latest pause awaits, by task id. */
    var fadeOutPromise: Option<nat>
    /** The fade-out loops still running, and the plays awaiting each. */
    var fadeOuts: map<nat, FadeOutTask>
    var nextTaskId: nat
    /** The crossfade whose two ramps are still running. */
    var crossfade: Option<Crossfade>
    /** Whether the 50 ms volume timer is set. */
    var volumeTimerArmed: bool
    var pendingVolumeValue: Option<real>

    function State(): LooperState
      reads this
    {
      LooperState(source, sound1, sound2, isInitialized, isCurrentlyPlaying, isFading, soundIsPlaying,
                  volume, lastAction, actionTimestamp, fadeOutPromise, fadeOuts, nextTaskId, crossfade,
                  volumeTimerArmed, pendingVolumeValue)
    }

    predicate Valid()
      reads this
    {
      State().Valid()
    }

    function Handle(b: BufferId): Sound
      reads this
    {
      if b == Sound1 then sound1 else sound2
    }

    /** Replace handle b by s; nothing else changes. */
    method SetHandle(b: BufferId, s: Sound)
      modifies this
      ensures State() == old(State()).WithBuffer(b, s)
    {
      if b == Sound1 { sound1 := s; } else { sound2 := s; }
    }

    constructor (source: Source, volume: real)
      ensures State() == Initial(source, volume)
    {
      this.source := source;
      sound1 := NewSound;
      sound2 := NewSound;
      isInitialized := false;
      isCurrentlyPlaying := false;
      isFading := false;
      soundIsPlaying := Sound1;
      this.volume := ((volume * 10.0 + 0.5).Floor as real) / 10.0;
      lastAction := None;
      actionTimestamp := 0;
      fadeOutPromise := None;
      fadeOuts := map[];
      nextTaskId := 0;
      crossfade := None;
      volumeTimerArmed := false;
      pendingVolumeValue := None;
    }

    /** init: load both handles, then set both to the stored volume; the
        first failure is logged and ends the attempt. */
    method Init(loader: Loader)
      requires Valid()
      modifies this
      ensures State() == InitStep(old(State()), loader)
    {
      if !loader.CanLoad(source) || sound1.loaded {
        return;
      }
      var d := loader.durations[source];
      sound1 := Load(sound1, d);
      if sound2.loaded {
        return;
      }
      sound2 := Load(sound2, d);
      sound1 := Playback.SetVolume(sound1, volume);
      sound2 := Playback.SetVolume(sound2, volume);
      isInitialized := true;
    }

    /** play(), called at time `now`, up to the point where it either returns
        or waits for a running fade-out. */
    method Play(now: int, loader: Loader)
      requires Valid()
      modifies this
      ensures State() == PlayStep(old(State()), now, loader)
    {
      if lastAction == Some(PlayAction) && now - actionTimestamp < DebounceMillis {
        return;
      }
      lastAction := Some(PlayAction);
      actionTimestamp := now;
      if !isInitialized {
        Init(loader);
      }
      ContinuePlay(now);
    }

    /** play() once initialised: the active handle's status decides whether
        it is only marked as playing, rewound, made to wait, or started. */
    method ContinuePlay(now: int)
      requires Valid() && lastAction == Some(PlayAction)
      modifies this
      ensures State() == PlayAfterInit(old(State()), now)
    {
      var status := GetStatus(Handle(soundIsPlaying));
      if status.Loaded? && status.isPlaying {
        isCurrentlyPlaying := true;
        return;
      }
      if status.Loaded? && status.positionMillis >= status.durationMillis {
        SetHandle(soundIsPlaying, SetPosition(Handle(soundIsPlaying), 0));
      }
      if fadeOutPromise.Some? {
        AwaitFadeOut(now);
        return;
      }
      ResumePlay(now);
    }

    /** The play stamped `ts` joins the waiters of the running fade-out. */
    method AwaitFadeOut(ts: int)
      requires Valid() && fadeOutPromise.Some?
      modifies this
      ensures State() == LooperSpec.AwaitFadeOut(old(State()), ts)
    {
      var id := fadeOutPromise.value;
      var t := fadeOuts[id];
      fadeOuts := fadeOuts[id := t.(waiters := t.waiters + [ts])];
    }

    /** The rest of the play stamped `ts`: give up when superseded, else set
        the stored volume on the active handle and start it. */
    method ResumePlay(ts: int)
      requires Valid()
      modifies this
      ensures State() == LooperSpec.ResumePlay(old(State()), ts)
    {
      if lastAction != Some(PlayAction) || actionTimestamp != ts {
        return;
      }
      var h := Handle(soundIsPlaying);
      if !h.loaded {
        isCurrentlyPlaying := false;
        return;
      }
      SetHandle(soundIsPlaying, Start(Playback.SetVolume(h, volume)));
      isCurrentlyPlaying := true;
    }

    /** setVolume(v): store v unchanged and re-arm the timer. */
    method SetVolume(v: real)
      requires Valid()
      modifies this
      ensures State() == SetVolumeStep(old(State()), v)
    {
      volume := v;
      pendingVolumeValue := Some(v);
      volumeTimerArmed := true;
    }

    /** The volume timer's callback. */
    method FireVolumeTimer()
      requires Valid() && volumeTimerArmed
      modifies this
      ensures State() == VolumeTimerStep(old(State()))
    {
      volumeTimerArmed := false;
      if isFading {
        return;
      }
      if !Handle(soundIsPlaying).loaded {
        return;
      }
      var p := pendingVolumeValue.value;
      var bothTake := sound1.loaded && sound2.loaded;
      sound1 := Playback.SetVolume(sound1, p);
      sound2 := Playback.SetVolume(sound2, p);
      if bothTake {
        pendingVolumeValue := None;
      }
    }

    /** pause({fadeOut}), called at time `now`. With fade-out, the first
        level is set here and the rest of the loop runs as FadeOutAndPauseStep
        events. */
    method Pause(now: int, fadeOut: bool)
      requires Valid()
      modifies this
      ensures State() == PauseStep(old(State()), now, fadeOut)
    {
      if lastAction == Some(PauseAction) && now - actionTimestamp < DebounceMillis {
        return;
      }
      PauseAccepted(now, fadeOut);
    }

    /** pause() past its debounce check. */
    method PauseAccepted(now: int, fadeOut: bool)
      requires Valid()
      modifies this
      ensures State() == LooperSpec.PauseAccepted(old(State()), now, fadeOut)
    {
      lastAction := Some(PauseAction);
      actionTimestamp := now;
      var status := GetStatus(Handle(soundIsPlaying));
      if !(status.Loaded? && status.isPlaying) {
        isCurrentlyPlaying := false;
        return;
      }
      isCurrentlyPlaying := false;
      if !fadeOut {
        SetHandle(soundIsPlaying, Playback.Pause(Playback.SetVolume(Handle(soundIsPlaying), 0.0)));
        fadeOutPromise := None;
        return;
      }
      StartFadeOut(now);
    }

    /** fadeOutAndPause(active handle, now) up to its first delay. */
    method StartFadeOut(now: int)
      requires Valid()
      modifies this
      ensures State() == LooperSpec.StartFadeOut(old(State()), now)
    {
      var id := nextTaskId;
      var b := soundIsPlaying;
      SetHandle(b, Playback.SetVolume(Handle(b), FadeOutLevel(volume, FadeOutSteps as int)));
      fadeOuts := fadeOuts[id := FadeOutTask(b, now, volume, FadeOutSteps as int - 1, [])];
      nextTaskId := id + 1;
      fadeOutPromise := Some(id);
    }

    /** fadeOutAndPause wakes up after one step delay. */
    method FadeOutAndPauseStep(id: nat)
      requires Valid() && id in fadeOuts
      modifies this
      ensures State() == FadeOutStep(old(State()), id)
    {
      var t := fadeOuts[id];
      var snd := Handle(t.buffer);
      if t.step >= 0 {
        if actionTimestamp != t.timestamp || !snd.loaded {
          FinishFadeOut(id);
          return;
        }
        SetHandle(t.buffer, Playback.SetVolume(snd, FadeOutLevel(t.startVolume, t.step)));
        fadeOuts := fadeOuts[id := t.(step := t.step - 1)];
        return;
      }
      if actionTimestamp == t.timestamp {
        SetHandle(t.buffer, Playback.Pause(snd));
      }
      FinishFadeOut(id);
    }

    /** The fade-out's promise settles: the pause clears fadeOutPromise, then
        each play that awaited it resumes, oldest first. */
    method FinishFadeOut(id: nat)
      requires Valid() && id in fadeOuts
      modifies this
      ensures State() == LooperSpec.FinishFadeOut(old(State()), id)
    {
      var waiters := fadeOuts[id].waiters;
      fadeOuts := fadeOuts - {id};
      fadeOutPromise := None;
      ghost var s0 := State();
      var i := 0;
      while i < |waiters|
        invariant 0 <= i <= |waiters|
        invariant Valid()
        invariant ResumeAll(State(), waiters[i..]) == ResumeAll(s0, waiters)
      {
        assert waiters[i..][0] == waiters[i] && waiters[i..][1..] == waiters[i + 1..];
        ResumePlay(waiters[i]);
        i := i + 1;
      }
    }

    /** handlePlaybackStatusUpdate bound to handle `reporter`. A crossfade
        flips the active handle before anything is awaited; its two ramps
        finish in CompleteCrossfade. */
    method HandlePlaybackStatusUpdate(reporter: BufferId, status: PlaybackStatus)
      requires Valid()
      modifies this
      ensures State() == StatusStep(old(State()), reporter, status)
    {
      if !IsSuccess(status) || !isCurrentlyPlaying {
        return;
      }
      if !status.Loaded? || status.durationMillis == 0 {
        return;
      }
      if !(status.positionMillis > status.durationMillis as int - FadeDuration && !isFading) {
        return;
      }
      var incoming := Other(reporter);
      var v := volume;
      SetHandle(reporter, Playback.SetVolume(Handle(reporter), RampLevel(v, 0.0, 0)));
      var inc := Handle(incoming);
      if inc.loaded {
        isFading := true;
        soundIsPlaying := incoming;
        SetHandle(incoming, Start(SetPosition(Playback.SetVolume(inc, 0.0), 0)));
        crossfade := Some(Crossfade(reporter, v));
      } else {
        soundIsPlaying := incoming;
        var out, _ := Fade(Handle(reporter), v, 0.0);
        SetHandle(reporter, out);
      }
    }

    /** Time passes for handle b: it plays on by `ms` milliseconds, or stops
        at its end. */
    method Progress(b: BufferId, ms: nat)
      requires Valid()
      modifies this
      ensures State() == ProgressStep(old(State()), b, ms)
    {
      SetHandle(b, Advance(Handle(b), ms));
    }

    /** Handle b reports its own status; the callback exists only once init
        has bound it. */
    method Report(b: BufferId)
      requires Valid()
      modifies this
      ensures State() == ReportStep(old(State()), b)
    {
      if isInitialized {
        HandlePlaybackStatusUpdate(b, GetStatus(Handle(b)));
      }
    }

    /** Both ramps of the crossfade run to their end and isFading is
        cleared. */
    method CompleteCrossfade()
      requires Valid() && crossfade.Some?
      modifies this
      ensures State() == CrossfadeDone(old(State()))
    {
      var c := crossfade.value;
      var out, _ := Fade(Handle(c.outgoing), c.volume, 0.0);
      SetHandle(c.outgoing, out);
      var inc, _ := Fade(Handle(Other(c.outgoing)), 0.0, c.volume);
      SetHandle(Other(c.outgoing), inc);
      isFading := false;
      crossfade := None;
    }

    /** destroy: unload both handles. */
    method Destroy()
      requires Valid()
      modifies this
      ensures State() == DestroyStep(old(State()))
    {
      sound1 := Unload(sound1);
      sound2 := Unload(sound2);
    }
  }
}
