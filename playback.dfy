/** The native playback handle (an expo-av Sound) seen from outside: what it
    holds, what its status reports and what each asynchronous call does to it.
    Calls on a handle that is not loaded are rejected and change nothing. */
module Playback {

  /** A bundled asset (a number in the source) or a local file URI. */
  datatype Source = Bundled(asset: int) | Uri(path: string)

  /** The looper's two handles, "sound1" and "sound2". */
  datatype BufferId = Sound1 | Sound2

  function Other(b: BufferId): (o: BufferId)
    ensures o != b
  {
    if b == Sound1 then Sound2 else Sound1
  }

  datatype Sound = Sound(loaded: bool, playing: bool, position: int, duration: nat, volume: real)

  /** A freshly constructed handle: nothing loaded, full volume. */
  const NewSound: Sound := Sound(false, false, 0, 0, 1.0)

  /** A playback status as getStatusAsync and the status callback deliver it.
      NotLoaded carries no error (so it passes the source's success test) but
      has neither isPlaying nor a position nor a duration. */
  datatype PlaybackStatus =
    | StatusError(message: string)
    | NotLoaded
    | Loaded(isPlaying: bool, positionMillis: int, durationMillis: nat)

  /** The source's isPlaybackStatusSuccess: no error field. */
  predicate IsSuccess(st: PlaybackStatus) {
    !st.StatusError?
  }

  function GetStatus(s: Sound): (st: PlaybackStatus)
    ensures st.Loaded? <==> s.loaded
    ensures IsSuccess(st)
  {
    if s.loaded then Loaded(s.playing, s.position, s.duration) else NotLoaded
  }

  function SetVolume(s: Sound, v: real): Sound {
    if s.loaded then s.(volume := v) else s
  }

  function SetPosition(s: Sound, p: int): Sound {
    if s.loaded then s.(position := p) else s
  }

  function Start(s: Sound): Sound {
    if s.loaded then s.(playing := true) else s
  }

  function Pause(s: Sound): Sound {
    if s.loaded then s.(playing := false) else s
  }

  /** stopAsync: pause and rewind. */
  function Stop(s: Sound): Sound {
    if s.loaded then s.(playing := false, position := 0) else s
  }

  /** Playback runs on for `ms` milliseconds: a playing handle moves ahead,
      and one that reaches its end stops there, since the handle is not set
      to loop. */
  function Advance(s: Sound, ms: nat): Sound {
    if !(s.loaded && s.playing) then s
    else if s.position + ms < s.duration then s.(position := s.position + ms)
    else s.(position := s.duration, playing := false)
  }

  function Unload(s: Sound): Sound {
    s.(loaded := false, playing := false)
  }

  /** What loading a source would give: which sources fail to load and the
      duration of each that loads. The loader is outside this model. */
  datatype Loader = Loader(broken: set<Source>, durations: map<Source, nat>) {
    predicate CanLoad(src: Source) {
      src !in broken && src in durations
    }
  }

  function Load(s: Sound, duration: nat): Sound {
    s.(loaded := true, playing := false, position := 0, duration := duration)
  }
}
