# Playback controller of the mini music player

The player is a web page with a file picker, Play/Restart, Pause/Resume and Stop
buttons, a progress bar and an audio element. Its logic is the playback
controller in `script.js`. It has two state flags, `isPlaying` and `audioLoaded`,
and seven event handlers. Between them, the handlers read the flags and the
audio element, and write the flags, the two button labels, the progress bar
value and the audio element's position.

The model has two layers:

- `Playback` (playback.dfy) models the controller as values. A `Session` holds the
  two flags, the two labels (an enum `Play | Restart | Pause | Resume` instead of
  the emoji strings), the progress value and the position. Each handler is a
  function from the session before the event to the session after it. `Apply`
  handles one `Event`. `Run` handles a sequence of events, each one completed
  before the next starts, as a single-threaded page does. The lemmas say what
  holds over every run:
  - the invariant `Consistent`: playing implies loaded, a playing session shows
    "Pause", and "Restart"/"Resume" appear only once a file is loaded;
  - `audioLoaded` never goes back to false;
  - no click does anything before a file is selected;
  - the progress bar stays a percentage as long as the audio element reports
    positions within the duration.
- `PlaybackController` (controller.dfy) models the controller as the page runs
  it. The class `Controller` has one field per piece of state. Each handler is a
  method that updates the fields in place. Each method's contract equates the
  new state with the matching `Playback` function applied to the old state, and
  keeps `Valid()`.
- `PlaybackScenarios` (scenarios.dfy) runs concrete event sequences from page load.

Behaviour kept exactly as the code has it:

- The resume branch of the Pause button (script.js:57-60) starts playback
  without waiting for it. It sets `isPlaying` to true whatever the outcome, so
  `PauseClicked` takes no outcome parameter.
- The play request (script.js:41-47) resolves later. Its outcome is the
  `succeeds` parameter of `PlayClick`. The rewind to 0 happens in either case.
- Selecting a file while playing leaves `isPlaying` and the Pause label as they
  were. It resets only the Play label.
- The progress bar is updated only when the duration is truthy. An unknown
  duration (NaN) is `None`, and a duration of 0 is also skipped, as
  `if (audioPlayer.duration)` does.
- A `TimeUpdate` event carries the position the audio element has reached. The
  model records that position in `currentTime` (the element moved there) and then
  computes the bar value from it, as the handler reads `audioPlayer.currentTime`.

The button labels are not a function of the two flags. After Stop, the Pause
button resumes playback while the Play button still reads "Play". A successful
Play gives the same flags with "Restart".
`PlaybackScenarios.LabelsNotDeterminedByFlags` shows both runs. The invariant
the labels do keep is `Playback.Consistent`.

The initial labels "Play"/"Pause" and the initial progress value 0 come from the
page markup. index.html is not part of this model.

## Model

| member | source | states |
|---|---|---|
| `Playback.LoadClicked` | script.js:21-23 | the Load click changes no controller state |
| `Playback.FileSelected` | script.js:26-35 | with a file: loaded and the Play label reset; with no file: the result is the same session; playing flag, Pause label, progress and position never change; keeps the invariant |
| `Playback.PlayClicked` | script.js:38-48 | with no file loaded, nothing changes; once loaded it always rewinds to 0; success makes it playing with "Restart"/"Pause"; failure changes nothing beyond the rewind; loaded flag and progress never change; keeps the invariant |
| `Playback.PauseClicked` | script.js:51-62 | with no file loaded, nothing changes; once loaded it flips the playing flag and shows "Pause" when now playing, "Resume" when now paused; Play label, progress and position are untouched; keeps the invariant |
| `Playback.StopClicked` | script.js:65-73 | with no file loaded, nothing changes; once loaded the result is not playing, "Play"/"Pause", progress 0, position 0; the loaded flag is kept; keeps the invariant |
| `Playback.TimeUpdated` | script.js:76-81 | a duration that is unknown or zero leaves the bar as it was; a truthy duration makes bar × duration = position × 100, which lies in [0, 100] when 0 ≤ position ≤ duration; flags and labels are untouched |
| `Playback.Percent` | script.js:78 | the percentage times the duration is the position times 100, and lies in [0, 100] for a position within the duration |
| `Playback.Ended` | script.js:84-89 | the result is not playing, shows "Play"/"Pause" and has progress 0; the loaded flag and the position are kept; keeps the invariant |
| `Playback.Apply` | script.js:17-89 | every handler keeps the invariant; the session is loaded afterwards exactly when it was before or a file was selected; a handler keeps the bar in range when the audio element keeps its guarantees |
| `Playback.RunPreservesConsistent` | script.js:17-18 | after any sequence of events the invariant holds, in particular isPlaying ⇒ audioLoaded |
| `Playback.RunLoadedIff` | script.js:18-31 | after a run the session is loaded if and only if it was loaded before or the run selected a file |
| `Playback.LoadedStaysLoaded` | script.js:18-31 | once audioLoaded is true it stays true through any sequence of events |
| `Playback.RunStaysInRange` | script.js:72-88 | while the audio element reports positions within the duration, the bar holds a value in [0, 100], and stays 0 with the position at 0 until a file is loaded |
| `Playback.ReachableIsConsistent` | script.js:17-18 | every session reachable from page load is consistent, and in range when the audio element keeps its guarantees |
| `Playback.UnloadedClicksAreInert` | script.js:39-66 | with no file loaded, any sequence of Load, Play, Pause and Stop clicks and cancelled picks leaves the session exactly as it was |
| `Playback.PauseTwiceRestores` | script.js:53-61 | two Pause/Resume clicks restore the playing flag and give the label for that state; nothing else changes |
| `Playback.StopIsEndedRewound` | script.js:65-89 | Stop on a loaded session equals the end-of-media reset plus a rewind to 0; neither unloads |
| `Playback.PlayRestarts` | script.js:38-48 | a second successful Play gives the same session as the first, and so does a success after a failure (restart from 0) |
| `PlaybackController.Controller.constructor` | script.js:17-18 | the controller starts in the initial session, which is consistent and in range |
| `PlaybackController.Controller.OnLoadClick` | script.js:21-23 | the state is that of `Playback.LoadClicked` (unchanged); keeps the invariant |
| `PlaybackController.Controller.OnFileChange` | script.js:26-35 | the new fields are those of `Playback.FileSelected` on the old ones; keeps the invariant |
| `PlaybackController.Controller.OnPlayClick` | script.js:38-48 | the new fields are those of `Playback.PlayClicked` on the old ones; keeps the invariant |
| `PlaybackController.Controller.OnPauseClick` | script.js:51-62 | the new fields are those of `Playback.PauseClicked` on the old ones; keeps the invariant |
| `PlaybackController.Controller.OnStopClick` | script.js:65-73 | the new fields are those of `Playback.StopClicked` on the old ones; keeps the invariant |
| `PlaybackController.Controller.OnTimeUpdate` | script.js:76-81 | the new fields are those of `Playback.TimeUpdated` on the old ones; keeps the invariant |
| `PlaybackController.Controller.OnEnded` | script.js:84-89 | the new fields are those of `Playback.Ended` on the old ones; keeps the invariant |
| `PlaybackScenarios.LoadPlayProgressEnd` | script.js:26-89 | load, play, then positions 0, 1, 2 of a 4-second track show 0, 25 and 50; the end resets to 0 and not playing with base labels |
| `PlaybackScenarios.ProgressOfTenSeconds` | script.js:77-80 | position 2.5 of 10 seconds shows 25; an unknown or zero duration leaves the bar alone |
| `PlaybackScenarios.PlayWithoutFile` | script.js:39 | Play before any file is selected changes nothing |
| `PlaybackScenarios.PauseThenResume` | script.js:53-61 | playing, then Pause gives "Resume" and not playing, then Resume gives "Pause" and playing |
| `PlaybackScenarios.PlayRejected` | script.js:41-47 | a rejected play leaves the session not playing and the labels unchanged |
| `PlaybackScenarios.LabelsNotDeterminedByFlags` | script.js:44-60 | two runs reach loaded and playing with different Play labels ("Restart" and "Play") |

## Left out

- Looking up the page elements and registering the listeners (script.js:8-14 and the `addEventListener` calls): page wiring with no state of its own.
- The Load button's forwarding to the hidden file input (script.js:22): the picker is outside the controller. Its result arrives as a `FileChange` event, and the model's Load click is a no-op.
- `URL.createObjectURL`, the assignment of `audioPlayer.src` and the `console.log`/`console.error` calls (script.js:29-30, 33, 47): browser calls and diagnostics. Binding a source is modelled only as `audioLoaded := true`.
- Decoding and playback by the audio element, `pause()`, and the promise returned by `play()`. The outcome of the play request is the `succeeds` parameter. A play request that is still pending when another event arrives is not modelled: the code leaves these overlapping requests unguarded, and their order depends on the browser's scheduling.
- The engine's own effects on the session are not modelled beyond the events listed. For example, a new source aborts playback and resets the element's position to 0 in the browser, while the model keeps `isPlaying` and `currentTime` as they were until the next `TimeUpdate` event. The model shows only what the handlers write.
- Floating point: positions, durations and the percentage are `real`. NaN is folded into the unknown duration (`None`). An infinite duration and rounding are not modelled.
- The exact emoji label strings: the labels are an enum.
