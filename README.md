# Looping audio mixer: a Dafny model

This project models the looping ambient-sound mixer of the iOS app (`ios-app/ai-nutrition-coach/lib/`) and proves properties of the model. The mixer has five parts:

- **FadingLooper**: one sound on two native playback handles (`sound1`, `sound2`), of which one is active.
  - `play` and `pause` are debounced over 1000 ms.
  - A newer action supersedes a play or fade-out that is still in flight.
  - `setVolume` is coalesced by a 50 ms timer.
  - `pause({fadeOut: true})` fades out in 20 steps before pausing.
  - Near the loop end, a status report starts a crossfade. The crossfade makes the other handle active and runs two 10-step ramps, v→0 and 0→v.
- **iOSAudioManager**: an ordered file list and a table from file id to looper. It also holds a silent keep-alive looper under a reserved id, added at most once, and the mix id and title. Its operations are add, remove, play, stop, toggle, change volume, set metadata, play all, stop all and clear.
- **Mix orchestration** (`audio-manager-utils.ts`):
  - `setMixAsNowPlaying`, `playMix`, `stopPlayingMix`, `togglePlayingMix`, `clearNowPlayingMix` and `handlePlaybackStatusChange`;
  - they act on the app store's now-playing, playing and offline fields, and on the manager.
- **The singleton holder**: it builds one manager on first use.
- **The text helpers**: `truncateText`, `timeAgo`, `pluralize` and `getTimeOfDay`.

Each stateful part is written twice:

1. **A value model.** A datatype holds the state, and there is one function per event: `LooperSpec`, `ManagerSpec`, `MixSpec`. Lemmas state what the source promises about these functions.
2. **An imperative model.** `Looper.FadingLooper` and `AudioManager.IOSAudioManager` are classes whose fields the methods update in place. `MixPlayer` has methods over an `AppStore` object and the manager. `Singleton.ManagerSlot` holds the module-level cell. Each method's `ensures` ties the new state to the value model: `State() == PlayStep(old(State()), now, loader)`.

How the model stands in for the outside world:

- **Native handles.** `Playback.Sound` records whether a handle is loaded and playing, its position, its duration and its volume. A call on an unloaded handle is rejected and changes nothing.
- **The clock.** The current time is a `now` parameter.
- **Timers.** Timer expiry and status callbacks are event methods.
- **Awaits.** Four kinds of `await` are event boundaries, where other events can interleave:
  - a fade-out step;
  - the end of a fade-out;
  - the end of a crossfade;
  - the volume timer.

  The waits of `play` on a running fade-out are boundaries too. Every other operation runs as one atomic step, although the source awaits inside it; "## Left out" names those steps and what atomicity hides.
- **Playback and reports.** Time passing on a handle is an event (`ProgressStep`): a playing handle moves on, and it stops at its end, since the looper never sets it to loop. A handle's report (`ReportStep`) feeds the looper the handle's own status, and only once `init` has bound the callbacks.
- **External collaborators are oracles:**
  - `Loader`: which sources load, and their durations;
  - `Storage`: the cache directory, the file names in the cache, and how each download ends. A cached URL is looked up by its last path segment, as `url.substring(url.lastIndexOf("/") + 1)` does. A download either gives a path or throws its own error; a URL the oracle does not list fails with "Download failed";
  - `Env.prefetch`: the download of a mix's files;
  - `Env.mixes`: the mix database.

Files:

| file | module |
|---|---|
| `options.dfy` | `Options` |
| `playback.dfy` | `Playback` |
| `text_utils.dfy` | `TextUtils` |
| `looper_spec.dfy` | `LooperSpec` |
| `looper.dfy` | `Looper` |
| `manager_spec.dfy` | `ManagerSpec` |
| `audio_manager.dfy` | `AudioManager` |
| `mix_spec.dfy` | `MixSpec` |
| `mix_player.dfy` | `MixPlayer` |
| `singleton.dfy` | `Singleton` |

Quirks of the code that the model keeps:

- `setVolume` stores the value exactly as given. It neither clamps it to [0, 1] nor rounds it to one decimal; only the constructor rounds.
- The keep-alive looper's `init` swallows its own errors. `addNotificationAudioFile` therefore registers the looper and sets `isNotificationFileAdded` even when the silent asset fails to load.
- `addFile` pushes the file before the download. A failed download therefore leaves the id listed with no looper, and the looper table is not always "the listed ids plus the keep-alive id".
- The keep-alive looper is created at volume 0, not near zero. The 0.1 in `SILENT_WAV_AUDIO_FILE` is never used.

## Model

| member | source | states |
|---|---|---|
| TextUtils.Trim | ios-app/ai-nutrition-coach/lib/utils.ts:3 | trim keeps a contiguous part of the string with no white space at either end, and everything it cuts from either end is white space |
| TextUtils.TrimIdempotent | ios-app/ai-nutrition-coach/lib/utils.ts:3 | trimming an already trimmed string changes nothing |
| TextUtils.TrimOfTrimmed | ios-app/ai-nutrition-coach/lib/utils.ts:3 | a string with no white space at its ends is its own trim |
| TextUtils.TruncateText | ios-app/ai-nutrition-coach/lib/utils.ts:1-5 | a prompt of at most maxLength characters comes back unchanged; a longer one ends with "..." and is at most maxLength + 3 long |
| TextUtils.TruncateKeptText | ios-app/ai-nutrition-coach/lib/utils.ts:2-4 | a long prompt keeps a trimmed, contiguous part of its first maxLength characters, and every other character of that prefix is white space |
| TextUtils.TimeAgoParts | ios-app/ai-nutrition-coach/lib/utils.ts:8-30 | exactly one unit is chosen by the elapsed seconds (<60 s, <1 h, <1 day, <1 week, else weeks); the count equals the elapsed seconds floored by that unit's length; the count is at least 1 above seconds and below 60/60/24/7 within its unit |
| TextUtils.NatToString | ios-app/ai-nutrition-coach/lib/utils.ts:11 | a number prints as at least one decimal digit, with no leading zero |
| TextUtils.NatToStringRoundTrip | ios-app/ai-nutrition-coach/lib/utils.ts:11 | reading the printed digits back gives the number |
| TextUtils.TimeAgo | ios-app/ai-nutrition-coach/lib/utils.ts:7-31 | the text always ends in "s ago", since the unit word is never made singular, and starts with a minus sign exactly when the elapsed whole seconds are negative |
| TextUtils.ElapsedNegative | ios-app/ai-nutrition-coach/lib/utils.ts:8 | Math.floor of the elapsed time in seconds is negative exactly when the date lies in the future, even by one millisecond |
| TextUtils.TimeAgoReadsBack | ios-app/ai-nutrition-coach/lib/utils.ts:7-31 | for every date, past or future, the text is an optional minus sign, the digits of the count, a space, the plural unit word and " ago"; the digits read back to the count's magnitude, and the sign appears exactly when the date is in the future |
| TextUtils.TimeAgoOneMinute | ios-app/ai-nutrition-coach/lib/utils.ts:14-17 | sixty seconds read "1 minutes ago" |
| TextUtils.TimeAgoFuture | ios-app/ai-nutrition-coach/lib/utils.ts:8-12 | a date five seconds in the future reads "-5 seconds ago" |
| TextUtils.Pluralize | ios-app/ai-nutrition-coach/lib/utils.ts:33-43 | the singular for a count of 1; otherwise a non-empty plural word, or else the singular plus "s"; the singular comes back exactly when the count is 1 or the plural given equals a non-empty singular |
| TextUtils.GetTimeOfDay | ios-app/ai-nutrition-coach/lib/utils.ts:45-50 | "morning" iff the hour is below 12, "afternoon" iff it is 12 to 15, "evening" iff it is 16 or later |
| Playback.Other | ios-app/ai-nutrition-coach/lib/FadingLooper.ts:323 | the other handle is never the one given |
| Playback.GetStatus | ios-app/ai-nutrition-coach/lib/FadingLooper.ts:12-16 | a handle reports a loaded status exactly when it is loaded, and its statuses pass isPlaybackStatusSuccess |
| LooperSpec.Round1 | ios-app/ai-nutrition-coach/lib/FadingLooper.ts:40-41 | the constructor's rounding gives a whole number of tenths within 0.05 of the volume (half rounds up) |
| LooperSpec.Round1Idempotent | ios-app/ai-nutrition-coach/lib/FadingLooper.ts:41 | rounding a rounded volume again changes nothing |
| LooperSpec.FadeOutFrom | ios-app/ai-nutrition-coach/lib/FadingLooper.ts:229-238 | the fade-out loop applies level volume/20·i for i from the start index down to 0, one level per index |
| LooperSpec.FadeOutSchedule | ios-app/ai-nutrition-coach/lib/FadingLooper.ts:222-238 | the fade-out applies 21 levels that start at the stored volume, end at 0, never rise and never leave [0, volume] |
| LooperSpec.FadeOutLevelBounds | ios-app/ai-nutrition-coach/lib/FadingLooper.ts:227-235 | the level at index 0 is 0, at index 20 it is the start volume, and levels grow with the index |
| LooperSpec.RampFrom | ios-app/ai-nutrition-coach/lib/FadingLooper.ts:285-293 | fade applies from + (to − from)/10·i at each step i, one level per step |
| LooperSpec.Ramp | ios-app/ai-nutrition-coach/lib/FadingLooper.ts:280-293 | one fade applies 11 levels, level i being from + (to − from)/10·i |
| LooperSpec.RampEnds | ios-app/ai-nutrition-coach/lib/FadingLooper.ts:280-293 | a ramp has 11 levels, the first exactly `from` and the last exactly `to` |
| LooperSpec.CrossfadeSumsToVolume | ios-app/ai-nutrition-coach/lib/FadingLooper.ts:327-344 | at every step of a crossfade at volume v, the outgoing (v→0) and incoming (0→v) levels add up to v |
| LooperSpec.Initial | ios-app/ai-nutrition-coach/lib/FadingLooper.ts:32-42 | a new looper has sound1 active, the volume rounded to tenths, is not initialised, playing or fading, has no last action, and satisfies the looper invariant |
| LooperSpec.InitStep | ios-app/ai-nutrition-coach/lib/FadingLooper.ts:44-79 | init marks the looper initialised iff it was so already or the source loads into two unloaded handles; a fresh success leaves both handles loaded, not playing and at the stored volume; nothing else changes |
| LooperSpec.ResumePlay | ios-app/ai-nutrition-coach/lib/FadingLooper.ts:118-129 | a superseded play changes nothing; an unsuperseded one ends marked playing iff the active handle is loaded, which is then started at the stored volume; the last action and fade-out bookkeeping are kept |
| LooperSpec.ResumeAll | ios-app/ai-nutrition-coach/lib/FadingLooper.ts:114-129 | resuming the waiting plays keeps the invariant, the last action and the fade-out bookkeeping |
| LooperSpec.PlayStep | ios-app/ai-nutrition-coach/lib/FadingLooper.ts:81-130 | play keeps the looper invariant |
| LooperSpec.PlayAfterInit | ios-app/ai-nutrition-coach/lib/FadingLooper.ts:100-129 | after its initialisation, play keeps the invariant and the action it recorded |
| LooperSpec.AwaitFadeOut | ios-app/ai-nutrition-coach/lib/FadingLooper.ts:114-116 | a play that meets a running fade-out only joins that fade-out's waiters |
| LooperSpec.PauseStep | ios-app/ai-nutrition-coach/lib/FadingLooper.ts:173-212 | pause keeps the looper invariant |
| LooperSpec.PauseAccepted | ios-app/ai-nutrition-coach/lib/FadingLooper.ts:185-206 | a pause past its debounce check is recorded as the latest action with its own timestamp and leaves the looper not playing |
| LooperSpec.StartFadeOut | ios-app/ai-nutrition-coach/lib/FadingLooper.ts:203-236 | starting a fade-out keeps the invariant, the latest action and the playing flag |
| LooperSpec.FinishFadeOut | ios-app/ai-nutrition-coach/lib/FadingLooper.ts:207-208 | a finished fade-out is forgotten and the pause's promise is cleared; the crossfade flag is untouched |
| LooperSpec.FadeOutStep | ios-app/ai-nutrition-coach/lib/FadingLooper.ts:229-243 | each wake-up of the fade-out loop keeps the looper invariant |
| LooperSpec.SetVolumeStep | ios-app/ai-nutrition-coach/lib/FadingLooper.ts:136-148 | setVolume stores v unrounded and unclamped, makes it the pending value and arms the timer; nothing else changes |
| LooperSpec.VolumeTimerStep | ios-app/ai-nutrition-coach/lib/FadingLooper.ts:148-167 | the timer callback disarms the timer and keeps the invariant |
| LooperSpec.StatusStep | ios-app/ai-nutrition-coach/lib/FadingLooper.ts:303-353 | a status report keeps the looper invariant (isFading holds exactly while a crossfade runs) |
| LooperSpec.CrossfadeDone | ios-app/ai-nutrition-coach/lib/FadingLooper.ts:327-351 | the end of a crossfade always clears isFading |
| LooperSpec.DestroyStep | ios-app/ai-nutrition-coach/lib/FadingLooper.ts:249-256 | destroy unloads both handles and changes nothing else |
| LooperSpec.RepeatedActionIsDropped | ios-app/ai-nutrition-coach/lib/FadingLooper.ts:83-94 | a play within 1000 ms of the last play, or a pause within 1000 ms of the last pause, changes no field |
| LooperSpec.AlternatingActionIsRecorded | ios-app/ai-nutrition-coach/lib/FadingLooper.ts:175-186 | a play after a non-play, or a pause after a non-pause, is never dropped: it becomes the latest action with its own timestamp |
| LooperSpec.PlayOnPlayingHandleOnlyResyncs | ios-app/ai-nutrition-coach/lib/FadingLooper.ts:101-106 | when the active handle already plays, play only records itself and sets isCurrentlyPlaying |
| LooperSpec.PlayAtEndRewindsAndStarts | ios-app/ai-nutrition-coach/lib/FadingLooper.ts:108-125 | a stopped handle at or past its end is rewound to 0, set to the stored volume and started |
| LooperSpec.PlayDuringFadeOutWaits | ios-app/ai-nutrition-coach/lib/FadingLooper.ts:114-116 | a play that meets a running fade-out leaves the handle alone and waits on that fade-out |
| LooperSpec.ResumedPlayChecksSupersede | ios-app/ai-nutrition-coach/lib/FadingLooper.ts:118-129 | a play whose action or timestamp was replaced does nothing when it resumes; otherwise it ends playing iff the handle could start |
| LooperSpec.PauseStopsPlaying | ios-app/ai-nutrition-coach/lib/FadingLooper.ts:185-201 | every pause ends not playing; an accepted one records "pause"; without fade-out a playing handle is set to volume 0 and paused, and the fade-out promise is cleared |
| LooperSpec.PauseWithFadeOutStartsTask | ios-app/ai-nutrition-coach/lib/FadingLooper.ts:203-236 | pause with fade-out sets the first level (the stored volume) on the still playing handle and leaves 20 more steps to a task stamped with the pause's time |
| LooperSpec.FadeOutStepFollowsSchedule | ios-app/ai-nutrition-coach/lib/FadingLooper.ts:229-243 | an unsuperseded step sets the next scheduled level; a superseded one ends the fade-out without setting a level or pausing; the final pause happens only if never superseded |
| LooperSpec.OnlyLastVolumeIsApplied | ios-app/ai-nutrition-coach/lib/FadingLooper.ts:136-167 | of two setVolume calls before the timer fires, only the last value reaches both handles; during a crossfade the timer applies nothing and the value stays pending |
| LooperSpec.CrossfadeStartFlipsActiveHandle | ios-app/ai-nutrition-coach/lib/FadingLooper.ts:309-353 | a report that misses any condition of the trigger (success, playing, a non-zero duration, within 2000 ms of the end, no crossfade running) changes nothing, so no report starts a second crossfade; one that starts a crossfade sets isFading, makes the other handle active at once (whichever handle reported) and starts it silent from 0; when the other handle is not loaded the active handle flips all the same, the outgoing handle ends silent and stopped, and isFading ends cleared |
| LooperSpec.CrossfadeEndsSettled | ios-app/ai-nutrition-coach/lib/FadingLooper.ts:327-351 | after a crossfade the outgoing handle is at 0 and stopped, the incoming one is at the crossfade volume, and isFading is cleared |
| LooperSpec.ProgressStep | ios-app/ai-nutrition-coach/lib/FadingLooper.ts:51-54 | a handle playing on, or stopping at its end, keeps the looper invariant |
| LooperSpec.ReportStep | ios-app/ai-nutrition-coach/lib/FadingLooper.ts:58-75 | a handle's own report keeps the looper invariant |
| LooperSpec.PlaybackStopsAtEnd | ios-app/ai-nutrition-coach/lib/FadingLooper.ts:53-75 | a playing handle moves on by the time passed, or stops at its end when it reaches it, since it is never set to loop; the other handle and isCurrentlyPlaying stay; a handle not playing does not move |
| LooperSpec.PlayAfterEndRestarts | ios-app/ai-nutrition-coach/lib/FadingLooper.ts:100-129 | once the active handle has run to its end, a play that is not dropped rewinds it to 0, sets the stored volume, starts it and ends playing |
| LooperSpec.ReportStartsCrossfadeNearEnd | ios-app/ai-nutrition-coach/lib/FadingLooper.ts:303-353 | a handle's own report flips the active handle exactly when the looper is initialised and playing, no crossfade runs, and the handle is loaded with a non-zero duration and within 2000 ms of its end; with the other handle loaded it sets isFading; any other report changes nothing |
| Looper.Fade | ios-app/ai-nutrition-coach/lib/FadingLooper.ts:280-297 | the ramp loop applies exactly the 11 ramp levels to a loaded handle (none to an unloaded one) and ends at `to`, stopped when `to` is 0 |
| Looper.FadingLooper.constructor | ios-app/ai-nutrition-coach/lib/FadingLooper.ts:32-42 | a new looper is in the initial state |
| Looper.FadingLooper.Init | ios-app/ai-nutrition-coach/lib/FadingLooper.ts:44-79 | init moves the looper as InitStep does |
| Looper.FadingLooper.Play | ios-app/ai-nutrition-coach/lib/FadingLooper.ts:81-130 | play moves the looper as PlayStep does |
| Looper.FadingLooper.ContinuePlay | ios-app/ai-nutrition-coach/lib/FadingLooper.ts:100-129 | the status-dependent part of play moves the looper as PlayAfterInit does |
| Looper.FadingLooper.AwaitFadeOut | ios-app/ai-nutrition-coach/lib/FadingLooper.ts:114-116 | awaiting the fade-out promise adds the play to its waiters |
| Looper.FadingLooper.ResumePlay | ios-app/ai-nutrition-coach/lib/FadingLooper.ts:118-129 | the rest of play moves the looper as ResumePlay does |
| Looper.FadingLooper.SetVolume | ios-app/ai-nutrition-coach/lib/FadingLooper.ts:136-171 | setVolume moves the looper as SetVolumeStep does |
| Looper.FadingLooper.FireVolumeTimer | ios-app/ai-nutrition-coach/lib/FadingLooper.ts:148-167 | the timer callback moves the looper as VolumeTimerStep does |
| Looper.FadingLooper.Pause | ios-app/ai-nutrition-coach/lib/FadingLooper.ts:173-212 | pause moves the looper as PauseStep does |
| Looper.FadingLooper.PauseAccepted | ios-app/ai-nutrition-coach/lib/FadingLooper.ts:185-206 | an accepted pause moves the looper as PauseAccepted does |
| Looper.FadingLooper.StartFadeOut | ios-app/ai-nutrition-coach/lib/FadingLooper.ts:214-236 | fadeOutAndPause up to its first delay moves the looper as StartFadeOut does |
| Looper.FadingLooper.FadeOutAndPauseStep | ios-app/ai-nutrition-coach/lib/FadingLooper.ts:229-243 | one wake-up of the fade-out loop moves the looper as FadeOutStep does |
| Looper.FadingLooper.FinishFadeOut | ios-app/ai-nutrition-coach/lib/FadingLooper.ts:207-208 | the end of a fade-out moves the looper as FinishFadeOut does |
| Looper.FadingLooper.HandlePlaybackStatusUpdate | ios-app/ai-nutrition-coach/lib/FadingLooper.ts:303-353 | a status report moves the looper as StatusStep does |
| Looper.FadingLooper.CompleteCrossfade | ios-app/ai-nutrition-coach/lib/FadingLooper.ts:327-351 | running both ramps moves the looper as CrossfadeDone does |
| Looper.FadingLooper.Progress | ios-app/ai-nutrition-coach/lib/FadingLooper.ts:51-54 | time passing on one handle moves the looper as ProgressStep does |
| Looper.FadingLooper.Report | ios-app/ai-nutrition-coach/lib/FadingLooper.ts:58-75 | a handle's own report moves the looper as ReportStep does |
| Looper.FadingLooper.Destroy | ios-app/ai-nutrition-coach/lib/FadingLooper.ts:249-256 | destroy moves the looper as DestroyStep does |
| ManagerSpec.FullUrl | ios-app/ai-nutrition-coach/lib/iOSAudioManager.ts:149 | the download URL is the base URL followed by the file's path, or by "undefined" when it has none |
| ManagerSpec.Ids | ios-app/ai-nutrition-coach/lib/iOSAudioManager.ts:131 | the ids of a file list, one per file, in order |
| ManagerSpec.FileName | ios-app/ai-nutrition-coach/lib/iOSAudioFileUtils.ts:7 | the part of a URL after its last '/': a suffix of the URL with no '/', preceded by a '/' unless it is the whole URL |
| ManagerSpec.Storage.IsInCache | ios-app/ai-nutrition-coach/lib/iOSAudioFileUtils.ts:5-11 | the cache check looks up the URL's file name; with the cache directory present, a URL that is empty or ends in '/' always counts as cached |
| ManagerSpec.Storage.Fetch | ios-app/ai-nutrition-coach/lib/iOSAudioFileUtils.ts:16-40 | a cached URL gives its path in the cache directory and never fails; any other URL gives its download's result, and a download with no result fails with "Download failed" |
| ManagerSpec.WithoutId | ios-app/ai-nutrition-coach/lib/iOSAudioManager.ts:189 | the filter keeps exactly the files whose id differs, and never lengthens the list |
| ManagerSpec.InitialManager | ios-app/ai-nutrition-coach/lib/iOSAudioManager.ts:42-57 | a new manager has no files or loopers and is online with no keep-alive; its title defaults to "Smooth Noise"; its mix id and handler are as given; it satisfies the manager invariant |
| ManagerSpec.NewLooper | ios-app/ai-nutrition-coach/lib/iOSAudioManager.ts:159-160 | a new looper is stopped and valid, stores the rounded volume, and is initialised iff its source loads |
| ManagerSpec.AddNotificationStep | ios-app/ai-nutrition-coach/lib/iOSAudioManager.ts:73-122 | adding the keep-alive changes only the looper table and the keep-alive flag, and keeps the manager invariant |
| ManagerSpec.AddFileStep | ios-app/ai-nutrition-coach/lib/iOSAudioManager.ts:124-185 | addFile keeps the manager invariant |
| ManagerSpec.AddFetched | ios-app/ai-nutrition-coach/lib/iOSAudioManager.ts:152-184 | addFile succeeds iff the fetch gives a non-empty path; a fetch that throws passes its own error on, an empty path throws "Failed to get audio file from cache or download", and either failure changes nothing; success registers, under the file's id only, a looper for that path at volume ?? 1 |
| ManagerSpec.RemoveFileStep | ios-app/ai-nutrition-coach/lib/iOSAudioManager.ts:187-200 | removeFile changes only the file list and the looper table and keeps the invariant |
| ManagerSpec.PlayFileStep | ios-app/ai-nutrition-coach/lib/iOSAudioManager.ts:202-221 | playFile keeps the manager invariant whatever fails |
| ManagerSpec.StopFileStep | ios-app/ai-nutrition-coach/lib/iOSAudioManager.ts:223-232 | stopFile leaves the file's looper, if any, not playing, and changes no other looper and no other field |
| ManagerSpec.ToggleFileStep | ios-app/ai-nutrition-coach/lib/iOSAudioManager.ts:234-252 | toggleFile keeps the manager invariant |
| ManagerSpec.ChangeVolumeStep | ios-app/ai-nutrition-coach/lib/iOSAudioManager.ts:254-264 | changeVolume keeps the manager invariant |
| ManagerSpec.SetMetadataStep | ios-app/ai-nutrition-coach/lib/iOSAudioManager.ts:270-285 | setMetadata keeps the manager invariant |
| ManagerSpec.PlayEach | ios-app/ai-nutrition-coach/lib/iOSAudioManager.ts:293-294 | playing each file of a list keeps the manager invariant |
| ManagerSpec.PlayAllFilesStep | ios-app/ai-nutrition-coach/lib/iOSAudioManager.ts:287-295 | playAllFiles keeps the manager invariant |
| ManagerSpec.StopEach | ios-app/ai-nutrition-coach/lib/iOSAudioManager.ts:304-308 | stopping each file of a list leaves the looper of every listed id not playing, and every other looper and field as it was |
| ManagerSpec.StopAllFilesStep | ios-app/ai-nutrition-coach/lib/iOSAudioManager.ts:297-309 | stopAllFiles changes only the loopers, never the set of registered ids |
| ManagerSpec.RemoveEach | ios-app/ai-nutrition-coach/lib/iOSAudioManager.ts:314-321 | removing each file of a list changes only the file list and the looper table |
| ManagerSpec.Reverse | ios-app/ai-nutrition-coach/lib/iOSAudioManager.ts:317 | the reversed list has the same length, with element i taken from the end |
| ManagerSpec.ClearFilesStep | ios-app/ai-nutrition-coach/lib/iOSAudioManager.ts:311-326 | clearFiles keeps the manager invariant |
| ManagerSpec.WithoutAbsentId | ios-app/ai-nutrition-coach/lib/iOSAudioManager.ts:189 | filtering out an id that no listed file has leaves the list as it is |
| ManagerSpec.WithoutIdAppend | ios-app/ai-nutrition-coach/lib/iOSAudioManager.ts:189 | the filter works file by file and keeps the order of the kept files |
| ManagerSpec.KeepAliveAddedOnce | ios-app/ai-nutrition-coach/lib/iOSAudioManager.ts:84-121 | a second addNotificationAudioFile changes nothing; the flag is set iff it was set or a title is set; without a title or when already added nothing changes; otherwise the reserved id gets a new looper at volume 0 |
| ManagerSpec.AddFileSkips | ios-app/ai-nutrition-coach/lib/iOSAudioManager.ts:125-144 | addFile of the reserved id, of a listed id, or offline of an uncached file succeeds and changes neither the list nor any looper but the keep-alive one (the reserved id changes nothing at all) |
| ManagerSpec.AddFileAppends | ios-app/ai-nutrition-coach/lib/iOSAudioManager.ts:146-155 | otherwise addFile appends the file before the fetch; it throws exactly when the fetch throws (with the fetch's own error) or gives an empty path (with line 154's error) |
| ManagerSpec.AddFileRegistersLooper | ios-app/ai-nutrition-coach/lib/iOSAudioManager.ts:146-184 | a failed download leaves the id listed with no looper; a successful one registers a looper for the downloaded path at volume ?? 1, with that volume pending |
| ManagerSpec.AddFileKeepsOtherLoopers | ios-app/ai-nutrition-coach/lib/iOSAudioManager.ts:124-185 | addFile changes no looper other than the keep-alive one and the file's own |
| ManagerSpec.RemoveFileAfterUpdate | ios-app/ai-nutrition-coach/lib/iOSAudioManager.ts:190-195 | pausing and destroying the looper before deleting it does not change what removeFile leaves |
| ManagerSpec.RemoveFileEffect | ios-app/ai-nutrition-coach/lib/iOSAudioManager.ts:187-200 | removeFile drops every listed file with the id and the id's looper, and nothing else; an id with neither is tolerated and changes nothing |
| ManagerSpec.RemoveUndoesAdd | ios-app/ai-nutrition-coach/lib/iOSAudioManager.ts:146-189 | removing a file that addFile just appended gives back the original file list |
| ManagerSpec.PlayFileOfListedFile | ios-app/ai-nutrition-coach/lib/iOSAudioManager.ts:202-221 | with the keep-alive in place, playFile on a listed id plays that id's looper and nothing else; with no looper it changes nothing and does not throw |
| ManagerSpec.ToggleFileAlternates | ios-app/ai-nutrition-coach/lib/iOSAudioManager.ts:234-252 | toggleFile pauses a looper marked playing and plays any other; a playing one ends not playing; a missing looper is tolerated and changes nothing |
| ManagerSpec.ChangeVolumeEffect | ios-app/ai-nutrition-coach/lib/iOSAudioManager.ts:254-264 | changeVolume throws "Audio object with id … not found" exactly when the id has no looper, changing nothing; otherwise only that looper stores the volume and arms its timer |
| ManagerSpec.SetMetadataStores | ios-app/ai-nutrition-coach/lib/iOSAudioManager.ts:270-274 | setMetadata stores the mix id and title and changes no file and no looper but the keep-alive one |
| ManagerSpec.StopAllFilesEffect | ios-app/ai-nutrition-coach/lib/iOSAudioManager.ts:297-309 | stopAllFiles leaves every listed file's looper not playing; it pauses the keep-alive only when the flag says it was added, and otherwise leaves it as it was |
| ManagerSpec.ClearFilesResets | ios-app/ai-nutrition-coach/lib/iOSAudioManager.ts:311-326 | clearFiles empties the list and the table and clears the keep-alive flag, keeping the mix id, the title and the rest; a second clearFiles changes nothing |
| ManagerSpec.FileNameOfJoin | ios-app/ai-nutrition-coach/lib/iOSAudioFileUtils.ts:5-26 | putting the base URL in front of a path that has a '/' does not change its file name |
| ManagerSpec.CachedFileIsFetched | ios-app/ai-nutrition-coach/lib/iOSAudioFileUtils.ts:16-27 | a cached path with a '/' is fetched from the cache directory under its file name, never downloaded |
| ManagerSpec.OfflineCachedAddSucceeds | ios-app/ai-nutrition-coach/lib/iOSAudioManager.ts:124-185 | offline, adding a new file whose path has a '/' and is cached succeeds, lists the file and registers a looper for it |
| ManagerSpec.OfflineFileWithoutPathIsListed | ios-app/ai-nutrition-coach/lib/iOSAudioManager.ts:137-146 | offline, a new file without a path, or with an empty one, is listed all the same, since the cache check on "" finds the cache directory |
| ManagerSpec.ListedValid | ios-app/ai-nutrition-coach/lib/iOSAudioManager.ts:146 | pushing a new file that is not the keep-alive one keeps the manager invariant, ids unique included |
| ManagerSpec.AddFileListed | ios-app/ai-nutrition-coach/lib/iOSAudioManager.ts:129-155 | an add that gets past its checks is the keep-alive step, the push, and then the fetch and registration |
| ManagerSpec.UniqueIdsAppend | ios-app/ai-nutrition-coach/lib/iOSAudioManager.ts:131-146 | appending a file whose id is not listed keeps every id listed once |
| ManagerSpec.WithoutIdUnique | ios-app/ai-nutrition-coach/lib/iOSAudioManager.ts:189 | the filter keeps every id listed once |
| ManagerSpec.PlayEachPlaysListed | ios-app/ai-nutrition-coach/lib/iOSAudioManager.ts:293-294 | with the keep-alive in place and each id listed once, playing each listed file plays exactly the loopers of those ids and changes nothing else |
| ManagerSpec.PlayAllFilesEffect | ios-app/ai-nutrition-coach/lib/iOSAudioManager.ts:287-295 | playAllFiles adds the keep-alive if due, then plays every registered looper, and changes nothing else |
| AudioManager.NewInitialisedLooper | ios-app/ai-nutrition-coach/lib/iOSAudioManager.ts:99-100 | a fresh looper, constructed and initialised |
| AudioManager.NewLooperAtVolume | ios-app/ai-nutrition-coach/lib/iOSAudioManager.ts:159-178 | a fresh looper, constructed, initialised and given the file's volume |
| AudioManager.IOSAudioManager.constructor | ios-app/ai-nutrition-coach/lib/iOSAudioManager.ts:42-57 | a new manager is in the initial state and valid |
| AudioManager.IOSAudioManager.Register | ios-app/ai-nutrition-coach/lib/iOSAudioManager.ts:161 | audioObjects[id] = looper: only that entry of the table changes |
| AudioManager.IOSAudioManager.AddNotificationAudioFile | ios-app/ai-nutrition-coach/lib/iOSAudioManager.ts:73-122 | moves the manager as AddNotificationStep does |
| AudioManager.IOSAudioManager.AddFile | ios-app/ai-nutrition-coach/lib/iOSAudioManager.ts:124-185 | moves the manager and reports the thrown error as AddFileStep does |
| AudioManager.IOSAudioManager.ListFile | ios-app/ai-nutrition-coach/lib/iOSAudioManager.ts:146 | files.push(file): the file is appended and nothing else changes |
| AudioManager.IOSAudioManager.AddFetchedFile | ios-app/ai-nutrition-coach/lib/iOSAudioManager.ts:152-184 | the rest of addFile moves the manager as AddFetched does |
| AudioManager.IOSAudioManager.RemoveFile | ios-app/ai-nutrition-coach/lib/iOSAudioManager.ts:187-200 | moves the manager as RemoveFileStep does; the id leaves the table, and its looper is left paused and unloaded |
| AudioManager.IOSAudioManager.ShutLooper | ios-app/ai-nutrition-coach/lib/iOSAudioManager.ts:193-194 | pause then destroy on the id's looper, and nothing else |
| AudioManager.IOSAudioManager.DropLooper | ios-app/ai-nutrition-coach/lib/iOSAudioManager.ts:195 | delete audioObjects[id] |
| AudioManager.IOSAudioManager.UnlistFile | ios-app/ai-nutrition-coach/lib/iOSAudioManager.ts:189 | the filter of the file list, once the id has no looper |
| AudioManager.IOSAudioManager.PlayFile | ios-app/ai-nutrition-coach/lib/iOSAudioManager.ts:202-221 | moves the manager as PlayFileStep does |
| AudioManager.IOSAudioManager.StopFile | ios-app/ai-nutrition-coach/lib/iOSAudioManager.ts:223-232 | moves the manager as StopFileStep does |
| AudioManager.IOSAudioManager.ToggleFile | ios-app/ai-nutrition-coach/lib/iOSAudioManager.ts:234-252 | moves the manager as ToggleFileStep does |
| AudioManager.IOSAudioManager.ChangeVolume | ios-app/ai-nutrition-coach/lib/iOSAudioManager.ts:254-264 | moves the manager and reports the error as ChangeVolumeStep does |
| AudioManager.IOSAudioManager.HasFile | ios-app/ai-nutrition-coach/lib/iOSAudioManager.ts:266-268 | true iff some listed file has the id; in particular every id with a looper other than the keep-alive one is listed |
| AudioManager.IOSAudioManager.SetMetadata | ios-app/ai-nutrition-coach/lib/iOSAudioManager.ts:270-285 | moves the manager as SetMetadataStep does |
| AudioManager.IOSAudioManager.StoreMetadata | ios-app/ai-nutrition-coach/lib/iOSAudioManager.ts:273-274 | stores the mix id and title and nothing else |
| AudioManager.IOSAudioManager.PlayAllFiles | ios-app/ai-nutrition-coach/lib/iOSAudioManager.ts:287-295 | moves the manager as PlayAllFilesStep does |
| AudioManager.IOSAudioManager.PlayFiles | ios-app/ai-nutrition-coach/lib/iOSAudioManager.ts:293-294 | the playFile loop moves the manager as PlayEach does |
| AudioManager.IOSAudioManager.StopAllFiles | ios-app/ai-nutrition-coach/lib/iOSAudioManager.ts:297-309 | moves the manager as StopAllFilesStep does |
| AudioManager.IOSAudioManager.StopFiles | ios-app/ai-nutrition-coach/lib/iOSAudioManager.ts:304-308 | the stopFile loop moves the manager as StopEach does |
| AudioManager.IOSAudioManager.ClearFiles | ios-app/ai-nutrition-coach/lib/iOSAudioManager.ts:311-326 | moves the manager as ClearFilesStep does and leaves the table empty |
| AudioManager.IOSAudioManager.RemoveFiles | ios-app/ai-nutrition-coach/lib/iOSAudioManager.ts:314-321 | the removeFile loop moves the manager as RemoveEach does |
| AudioManager.IOSAudioManager.Reset | ios-app/ai-nutrition-coach/lib/iOSAudioManager.ts:323-325 | empties the list and the table and clears the keep-alive flag |
| MixSpec.AddFilesStep | ios-app/ai-nutrition-coach/lib/audio-manager-utils.ts:12-16 | adding a mix's files keeps the manager invariant |
| MixSpec.SetMixAsNowPlayingStep | ios-app/ai-nutrition-coach/lib/audio-manager-utils.ts:18-53 | setMixAsNowPlaying keeps the manager invariant |
| MixSpec.LoadMixStep | ios-app/ai-nutrition-coach/lib/audio-manager-utils.ts:32-52 | the manager's part of setMixAsNowPlaying keeps the manager invariant |
| MixSpec.PrepareStep | ios-app/ai-nutrition-coach/lib/audio-manager-utils.ts:48-50 | clearing, setting metadata and copying the offline flag keeps the manager invariant |
| MixSpec.StopPlayingMixStep | ios-app/ai-nutrition-coach/lib/audio-manager-utils.ts:133-136 | stopPlayingMix keeps the manager invariant |
| MixSpec.ClearNowPlayingMixStep | ios-app/ai-nutrition-coach/lib/audio-manager-utils.ts:55-62 | clearNowPlayingMix keeps the manager invariant |
| MixSpec.InstallHandler | ios-app/ai-nutrition-coach/lib/audio-manager-utils.ts:88-94 | afterwards a status handler is always set; an existing one is kept, and nothing else changes |
| MixSpec.PlayMixStep | ios-app/ai-nutrition-coach/lib/audio-manager-utils.ts:68-100 | playMix keeps the manager invariant |
| MixSpec.PlayMixLoad | ios-app/ai-nutrition-coach/lib/audio-manager-utils.ts:96-99 | the rest of playMix keeps the manager invariant |
| MixSpec.HandlePlaybackStatusChangeStep | ios-app/ai-nutrition-coach/lib/audio-manager-utils.ts:102-131 | the status handler keeps the manager invariant |
| MixSpec.TogglePlayingMixStep | ios-app/ai-nutrition-coach/lib/audio-manager-utils.ts:138-146 | togglePlayingMix keeps the manager invariant |
| MixSpec.AddFileListsFile | ios-app/ai-nutrition-coach/lib/iOSAudioManager.ts:124-185 | one addFile leaves the list as it was or grows it by the file, keeps mix id, title, offline flag and handler, and online lists every id but the reserved one |
| MixSpec.AddFilesKeepsSettings | ios-app/ai-nutrition-coach/lib/audio-manager-utils.ts:12-16 | adding a mix's files keeps the mix id, title, offline flag and handler |
| MixSpec.AddFilesFailure | ios-app/ai-nutrition-coach/lib/audio-manager-utils.ts:12-16 | the only error the addFile loop passes on is the failed fetch of one of the mix's files |
| MixSpec.AddFilesExtends | ios-app/ai-nutrition-coach/lib/audio-manager-utils.ts:12-16 | the loop keeps the files already listed, in front, and appends only files of the mix |
| MixSpec.AddFilesListsAll | ios-app/ai-nutrition-coach/lib/audio-manager-utils.ts:12-16 | when the loop succeeds online, every file of the mix except the reserved one is listed |
| MixSpec.AddFilesListsKept | ios-app/ai-nutrition-coach/lib/audio-manager-utils.ts:12-16 | when the loop succeeds, the list ends as the files it had followed by the kept files of the mix, in mix order |
| MixSpec.SetMixWritesCellOnlyWhenOther | ios-app/ai-nutrition-coach/lib/audio-manager-utils.ts:27-29 | the now-playing cell is written only when it shows another mix, ends showing the mix, and isPlaying and isOffline are untouched |
| MixSpec.SetMixLoadsOtherMix | ios-app/ai-nutrition-coach/lib/audio-manager-utils.ts:32-52 | a manager holding the mix is left alone with success; online, a failed download passes its error on and leaves the manager alone; otherwise the manager ends with the mix's id and name and the store's offline flag and lists only files of the mix; on success it lists exactly the kept files of the mix in mix order (Kept: first of each id, never the reserved id, only cached ones offline), and online all ids but the reserved one |
| MixSpec.SetMixOutcome | ios-app/ai-nutrition-coach/lib/audio-manager-utils.ts:32-52 | success leaves the manager holding the mix; failure happens only when another mix was held, with the download's error or the failed fetch of one of the mix's files |
| MixSpec.SetMixKeepsHandler | ios-app/ai-nutrition-coach/lib/audio-manager-utils.ts:48-51 | setMixAsNowPlaying keeps the manager's status handler |
| MixSpec.PlayMixEffect | ios-app/ai-nutrition-coach/lib/audio-manager-utils.ts:68-100 | when the held mix is playing and play is not forced nothing changes; a successful play leaves the mix shown, marked playing and held; a failed one leaves it shown, not marked playing, with the download's error or one file's failed fetch |
| MixSpec.PlayMixManager | ios-app/ai-nutrition-coach/lib/audio-manager-utils.ts:68-100 | unless playMix returns at once, every file is stopped first only when the store marks playing and the manager holds another mix; the handler is installed and the mix loaded, and playAllFiles runs only when the load succeeds |
| MixSpec.PlayMixListsKept | ios-app/ai-nutrition-coach/lib/audio-manager-utils.ts:68-100 | a successful playMix leaves the manager listing the kept files of the mix, or the files it had when it held the mix already |
| MixSpec.PlayAllFilesKeepsFiles | ios-app/ai-nutrition-coach/lib/iOSAudioManager.ts:287-295 | playAllFiles keeps the file list |
| MixSpec.PlayMixInstallsHandler | ios-app/ai-nutrition-coach/lib/audio-manager-utils.ts:88-94 | unless playMix returns at once, a status handler is installed, whether the play succeeds or not |
| MixSpec.PlayAllFilesKeepsSettings | ios-app/ai-nutrition-coach/lib/iOSAudioManager.ts:287-295 | playAllFiles keeps mix id, title, offline flag and handler |
| MixSpec.PlayEachKeepsSettings | ios-app/ai-nutrition-coach/lib/iOSAudioManager.ts:293-294 | playing each listed file keeps mix id, title, offline flag and handler |
| MixSpec.ToggleFlipsPlaying | ios-app/ai-nutrition-coach/lib/audio-manager-utils.ts:141-145 | togglePlayingMix is playMix iff another mix is shown or nothing plays; otherwise it ends not playing; a successful play ends playing |
| MixSpec.ToggleOnPlayingMixStops | ios-app/ai-nutrition-coach/lib/audio-manager-utils.ts:141-145 | toggling the shown, playing mix is exactly stopPlayingMix |
| MixSpec.ClearNowPlayingResets | ios-app/ai-nutrition-coach/lib/audio-manager-utils.ts:55-62 | afterwards nothing is shown or playing, the manager has no files, its mix id and title are "", and only the keep-alive looper may be registered, again exactly when the old title was set |
| MixSpec.HandleStatusStops | ios-app/ai-nutrition-coach/lib/audio-manager-utils.ts:111-126 | "paused" and "stopped" leave nothing marked playing and no listed looper playing, keeping the file list; "playing" with no mix id, or an id the database lacks, changes nothing |
| MixSpec.HandlePlayingWhilePlaying | ios-app/ai-nutrition-coach/lib/audio-manager-utils.ts:113-129 | with a database that finds each mix under its own id, a "playing" report while the store marks playing changes nothing |
| MixSpec.HandlePlayingPlaysHeldMix | ios-app/ai-nutrition-coach/lib/audio-manager-utils.ts:111-131 | a "playing" report while nothing is marked playing and the database has the held mix shows that mix, marks it playing, installs the handler, and plays every looper of the manager |
| MixPlayer.AssignOffline | ios-app/ai-nutrition-coach/lib/audio-manager-utils.ts:50 | audioManager.isOffline = isOffline changes that field only |
| MixPlayer.InstallStatusHandler | ios-app/ai-nutrition-coach/lib/audio-manager-utils.ts:88-94 | moves the manager as InstallHandler does |
| MixPlayer.AddFilesToManager | ios-app/ai-nutrition-coach/lib/audio-manager-utils.ts:12-16 | the addFile loop moves the manager and ends as AddFilesStep does |
| MixPlayer.SetMixAsNowPlaying | ios-app/ai-nutrition-coach/lib/audio-manager-utils.ts:18-53 | moves the store as ShowMix does and the manager as LoadMixStep does, using the offline flag read at entry |
| MixPlayer.LoadMix | ios-app/ai-nutrition-coach/lib/audio-manager-utils.ts:32-52 | moves the manager as LoadMixStep does |
| MixPlayer.PrepareManager | ios-app/ai-nutrition-coach/lib/audio-manager-utils.ts:48-50 | moves the manager as PrepareStep does |
| MixPlayer.StopPlayingMix | ios-app/ai-nutrition-coach/lib/audio-manager-utils.ts:133-136 | moves the store and the manager as StopPlayingMixStep does |
| MixPlayer.ClearNowPlayingMix | ios-app/ai-nutrition-coach/lib/audio-manager-utils.ts:55-62 | moves the store and the manager as ClearNowPlayingMixStep does |
| MixPlayer.ResetManager | ios-app/ai-nutrition-coach/lib/audio-manager-utils.ts:60-61 | clearFiles then setMetadata("", "") |
| MixPlayer.PlayMix | ios-app/ai-nutrition-coach/lib/audio-manager-utils.ts:68-100 | moves the store and the manager and ends as PlayMixStep does |
| MixPlayer.PlayLoadedMix | ios-app/ai-nutrition-coach/lib/audio-manager-utils.ts:96-99 | moves the store and the manager and ends as PlayMixLoad does |
| MixPlayer.HandlePlaybackStatusChangeOf | ios-app/ai-nutrition-coach/lib/audio-manager-utils.ts:102-131 | moves the store and the manager as HandlePlaybackStatusChangeStep does |
| MixPlayer.TogglePlayingMix | ios-app/ai-nutrition-coach/lib/audio-manager-utils.ts:138-146 | moves the store and the manager and ends as TogglePlayingMixStep does |
| Singleton.ManagerSlot.constructor | ios-app/ai-nutrition-coach/lib/AudioManagerSingleton.ts:4 | the cell starts empty |
| Singleton.ManagerSlot.GetAudioManagerInstance | ios-app/ai-nutrition-coach/lib/AudioManagerSingleton.ts:11-17 | the first call stores a fresh manager built with no options; every later call returns that same manager and leaves the cell as it was |

## Left out

- Native audio (expo-av) is an abstract handle. Loading is decided by the `Loader` oracle. The Android branches of `fade` and `fadeOutAndPause` are not modelled; the model takes the iOS path.
- `Audio.setAudioModeAsync` at the start of `addNotificationAudioFile` is not modelled, because it changes no state of the mixer. The same holds for logging and the commented-out `AudioPlayer` calls.
- `setProgressUpdateIntervalAsync` and the binding of the status callbacks in `init` are implicit. `ReportStep` feeds the looper its handle's own status, and only once the looper is initialised. `HandlePlaybackStatusUpdate` itself still takes any status, so its lemmas cover reports no handle would make.
- The 200 ms cadence of reports is not modelled: `ProgressStep` advances a handle by any amount, and reports come when the caller fires them.
- Wall-clock delays are not modelled. The 50 ms timer and the 100 ms and 200 ms fade steps are events that the caller fires.
- `addOnPlaybackStatusChange` is not modelled, because its body is commented out and it changes nothing.
- The cache-first lookup of `iOSAudioFileUtils.ts` (`audioFileIsInCache` and `getAudioFileFromCacheOrDownload`) is modelled by `Storage.IsInCache` and `Storage.Fetch`. Only the file system's contents (`cached`) and the network download (`downloads`) are oracles. The prefetch `getAudioFilesFromCacheOrDownload` is the `Env.prefetch` oracle, and its download-progress setters are not modelled.
- The mix database lookup is `Env.mixes`.
- The app store is not modelled. `state/store.ts` does not declare the fields the orchestration uses, so `MixPlayer.AppStore` holds just those three fields. The store's `stopPlayingMix` is taken to set `isPlaying` to false.
- LooperSpec.PlayStep: `play` runs as one step across `init` and `getStatusAsync` (`FadingLooper.ts:96-101`). In the source a pause during that stretch supersedes the play through the check at line 119; in the model no event can come between.
- ManagerSpec.AddFileStep: the operations accept any `Storage`, including ones without the empty name, which the file system always has (the cache directory itself). Their lemmas hold for every storage. `Storage.Valid()` states the condition, and `OfflineFileWithoutPathIsListed` uses it.
- LooperSpec.PauseAccepted: `pause` runs as one step across `getStatusAsync`.
- ManagerSpec.AddFileStep: `addFile` runs as one step across its fetch (`iOSAudioManager.ts:152`). In the source, a `removeFile` during the download leaves a registered looper under an id that is no longer listed, and `clearFiles` then never pauses or unloads it. The manager invariant's second conjunct, and `HasFile` with it, rely on this atomicity. So does its last conjunct, that no id is listed twice: in the source, two overlapping `addFile` calls for the same new id both pass the check at line 131 before either pushes, and both list it. `PlayEachPlaysListed` and `PlayAllFilesEffect` rest on that conjunct.
- MixSpec.LoadMixStep: `setMixAsNowPlaying` runs as one step across its prefetch (`audio-manager-utils.ts:41`). In the source two overlapping `playMix` calls can both clear the manager and then both add their files.
- LooperSpec.StatusStep: when the incoming handle is not loaded, its first call throws and the crossfade's `Promise.all` rejects at once. The model then finishes the outgoing ramp within the same step, while the source runs it on for 2 s with isFading already false.
- Playback.SetVolume: expo-av rejects a volume outside [0, 1], and `setVolume` does not clamp. In the source a play at a stored volume above 1 therefore throws at `FadingLooper.ts:123` and ends not playing. The model applies any volume.
- TextUtils.TruncateText: lengths count Unicode code points, while JavaScript's `length` and `substring` count UTF-16 code units. The two differ on characters outside the Basic Multilingual Plane.
- Looper.FadingLooper.CompleteCrossfade: the two crossfade ramps run in parallel in the source. Here they run one after the other, and no status report or volume timer can interleave with them.
- AudioManager.IOSAudioManager.PlayAllFiles: the `Promise.all` fan-out is modelled in list order. The same holds for StopAllFiles and ClearFiles. The individual calls do not interleave.
- AudioManager.IOSAudioManager.ClearFiles: it does not state what happens to the removed loopers. Each is paused and unloaded before the table is emptied, but the contract only says that the table ends empty.
- AudioManager.IOSAudioManager.ClearFiles: `files.reverse()` reverses the list in place and the list is then set to `[]`. The model iterates over the reversed list, so the in-place reversal itself is not observable.
- MixPlayer.HandlePlaybackStatusChangeOf: the `playMix` it starts is not awaited in the source. Here it runs to completion before the handler returns, and its error is dropped, as the unawaited promise drops it.
- LooperSpec.Round1: volumes are exact reals. IEEE rounding of `Math.round(volume * 10) / 10` and of the fade arithmetic is not modelled.
- Singleton.ManagerSlot.GetAudioManagerInstance: `getAudioManagerClass` always gives `iOSAudioManager`, so the model's slot holds that class directly. The slot is an object passed to callers, not a module-level variable.
- MixPlayer: the manager instance is a parameter of each function rather than a call to `getAudioManagerInstance`. It is the one instance the slot hands out.
- `playAudioFile`, `addAudioFileToMixAndPlay`, `stopAudioFile`, `stopAudioFileAndRemoveFromMix` and `toggleAudioFile` (`audio-manager-utils.ts:148-200`) are not part of this model. They are thin wrappers over the manager's own operations.
