/**
 * The playback controller of the mini music player, as values.
 *
 * A `Session` holds everything the controller's handlers read or write: the two
 * state flags, the labels of the Play/Restart and Pause/Resume buttons, the value
 * of the progress bar and the position of the audio element.  Every handler is a
 * function from the session before the event to the session after it, and a
 * sequence of events is folded over a session by `Run`.  The lemmas state what
 * the handlers keep true over every run.
 */
module Playback {

  datatype Option<+T> = None | Some(value: T)

  /** The texts the two buttons can show (the player uses emoji-decorated strings). */
  datatype Label = Play | Restart | Pause | Resume

  datatype Session = Session(
    isPlaying: bool,    // playback advancing: not paused, not stopped
    audioLoaded: bool,  // a file has been handed to the audio element
    playLabel: Label,   // text of the Play/Restart button
    pauseLabel: Label,  // text of the Pause/Resume button
    progress: real,     // value of the progress bar, a percentage
    currentTime: real   // position of the audio element, in seconds
  )

  /** The session when the page has loaded: nothing selected, nothing playing. */
  const Initial := Session(false, false, Play, Pause, 0.0, 0.0)

  /** The events the controller reacts to, with what each handler observes. */
  datatype Event =
    | LoadClick                                       // Load button clicked
    | FileChange(present: bool)                       // file input changed; is there a file?
    | PlayClick(succeeds: bool)                       // Play clicked; does the play request resolve?
    | PauseClick                                      // Pause/Resume clicked
    | StopClick                                       // Stop clicked
    | TimeUpdate(duration: Option<real>, position: real) // audio element reports its position
    | MediaEnded                                      // audio element reached the end

  /**
   * The invariant every handler keeps: only a loaded session plays, a playing
   * session offers "Pause", and the labels that only a loaded session can show
   * ("Restart", "Resume") are shown only when loaded.  Each button shows one of
   * its own two texts.
   */
  predicate Consistent(s: Session) {
    && (s.isPlaying ==> s.audioLoaded)
    && (s.isPlaying ==> s.pauseLabel == Pause)
    && (s.playLabel == Restart ==> s.audioLoaded)
    && (s.pauseLabel == Resume ==> s.audioLoaded)
    && (s.playLabel == Play || s.playLabel == Restart)
    && (s.pauseLabel == Pause || s.pauseLabel == Resume)
  }

  /**
   * The progress bar holds a percentage and the position is non-negative; while
   * nothing is loaded both are still at their initial zero.
   */
  predicate InRange(s: Session) {
    && 0.0 <= s.progress <= 100.0
    && 0.0 <= s.currentTime
    && (!s.audioLoaded ==> s.progress == 0.0 && s.currentTime == 0.0)
  }

  /** A duration is used only when it is truthy: known (not NaN) and not zero. */
  predicate Truthy(duration: Option<real>) {
    duration.Some? && duration.value != 0.0
  }

  /**
   * What the audio element guarantees about the position it reports: a time
   * update comes only once a source is bound, and its position lies between zero
   * and the duration when that is known.  Other events carry no such obligation.
   */
  predicate EngineRespects(s: Session, e: Event) {
    match e
    case TimeUpdate(duration, position) =>
      && s.audioLoaded
      && 0.0 <= position
      && (duration.Some? ==> 0.0 <= duration.value && position <= duration.value)
    case _ => true
  }

  /** The Load button only opens the file picker; its outcome arrives as a `FileChange`. */
  function LoadClicked(s: Session): (r: Session)
    ensures r == s
  {
    s
  }

  /** File input change: with a file, bind it and reset the Play button; otherwise nothing. */
  function FileSelected(s: Session, present: bool): (r: Session)
    ensures r.audioLoaded == (s.audioLoaded || present)
    ensures present ==> r.audioLoaded && r.playLabel == Play
    ensures r.isPlaying == s.isPlaying && r.pauseLabel == s.pauseLabel
    ensures r.progress == s.progress && r.currentTime == s.currentTime
    ensures !present ==> r == s
    ensures Consistent(s) ==> Consistent(r)
  {
    if present then s.(audioLoaded := true, playLabel := Play) else s
  }

  /**
   * Play click: rewind to the start and request playback; only when the request
   * resolves does the session become playing with "Restart"/"Pause" labels.
   */
  function PlayClicked(s: Session, succeeds: bool): (r: Session)
    ensures !s.audioLoaded ==> r == s
    ensures s.audioLoaded ==> r.currentTime == 0.0
    ensures s.audioLoaded && succeeds ==> r.isPlaying && r.playLabel == Restart && r.pauseLabel == Pause
    ensures s.audioLoaded && !succeeds ==> r == s.(currentTime := 0.0)
    ensures r.audioLoaded == s.audioLoaded && r.progress == s.progress
    ensures Consistent(s) ==> Consistent(r)
  {
    if !s.audioLoaded then s
    else
      var rewound := s.(currentTime := 0.0);
      if succeeds then rewound.(isPlaying := true, playLabel := Restart, pauseLabel := Pause)
      else rewound
  }

  /**
   * Pause/Resume click: toggles between paused ("Resume") and playing ("Pause").
   * The resume branch does not wait for the play request and becomes playing
   * whatever its outcome.
   */
  function PauseClicked(s: Session): (r: Session)
    ensures !s.audioLoaded ==> r == s
    ensures s.audioLoaded ==> r.isPlaying == !s.isPlaying
    ensures s.audioLoaded ==> r.pauseLabel == (if r.isPlaying then Pause else Resume)
    ensures r.audioLoaded == s.audioLoaded && r.playLabel == s.playLabel
    ensures r.progress == s.progress && r.currentTime == s.currentTime
    ensures Consistent(s) ==> Consistent(r)
  {
    if !s.audioLoaded then s
    else if s.isPlaying then s.(isPlaying := false, pauseLabel := Resume)
    else s.(isPlaying := true, pauseLabel := Pause)
  }

  /** The reset shared by Stop and the end of the media: not playing, base labels, empty bar. */
  predicate IsReset(s: Session) {
    !s.isPlaying && s.playLabel == Play && s.pauseLabel == Pause && s.progress == 0.0
  }

  /** Stop click: pause, rewind and reset the controls. */
  function StopClicked(s: Session): (r: Session)
    ensures !s.audioLoaded ==> r == s
    ensures s.audioLoaded ==> IsReset(r) && r.currentTime == 0.0
    ensures r.audioLoaded == s.audioLoaded
    ensures Consistent(s) ==> Consistent(r)
  {
    if !s.audioLoaded then s
    else s.(isPlaying := false, pauseLabel := Pause, playLabel := Play, progress := 0.0, currentTime := 0.0)
  }

  /**
   * Time update: the audio element has reached `position`; with a truthy
   * duration the bar shows the elapsed percentage, otherwise it keeps its value.
   */
  function TimeUpdated(s: Session, duration: Option<real>, position: real): (r: Session)
    ensures r.currentTime == position
    ensures !Truthy(duration) ==> r.progress == s.progress
    ensures Truthy(duration) ==> r.progress * duration.value == position * 100.0
    ensures Truthy(duration) && 0.0 <= position <= duration.value ==> 0.0 <= r.progress <= 100.0
    ensures r.isPlaying == s.isPlaying && r.audioLoaded == s.audioLoaded
    ensures r.playLabel == s.playLabel && r.pauseLabel == s.pauseLabel
  {
    var moved := s.(currentTime := position);
    if Truthy(duration) then moved.(progress := Percent(position, duration.value)) else moved
  }

  /** The elapsed share of the track as a percentage. */
  function Percent(position: real, duration: real): (p: real)
    requires duration != 0.0
    ensures p * duration == position * 100.0
    ensures 0.0 <= position <= duration ==> 0.0 <= p <= 100.0
  {
    var p := position / duration * 100.0;
    assert p * duration == position * 100.0 by {
      assert (position / duration) * duration == position;
    }
    p
  }

  /** Media ended: the same reset of the controls as Stop, without touching the position. */
  function Ended(s: Session): (r: Session)
    ensures IsReset(r)
    ensures r.audioLoaded == s.audioLoaded && r.currentTime == s.currentTime
    ensures Consistent(s) ==> Consistent(r)
  {
    s.(isPlaying := false, playLabel := Play, pauseLabel := Pause, progress := 0.0)
  }

  /** One event handled to completion. */
  function Apply(s: Session, e: Event): (r: Session)
    ensures Consistent(s) ==> Consistent(r)
    ensures r.audioLoaded <==> s.audioLoaded || e == FileChange(true)
    ensures InRange(s) && EngineRespects(s, e) ==> InRange(r)
  {
    match e
    case LoadClick => LoadClicked(s)
    case FileChange(present) => FileSelected(s, present)
    case PlayClick(succeeds) => PlayClicked(s, succeeds)
    case PauseClick => PauseClicked(s)
    case StopClick => StopClicked(s)
    case TimeUpdate(duration, position) => TimeUpdated(s, duration, position)
    case MediaEnded => Ended(s)
  }

  /** Events handled one after another, each to completion before the next. */
  function Run(s: Session, events: seq<Event>): (r: Session)
    decreases |events|
  {
    if events == [] then s else Run(Apply(s, events[0]), events[1..])
  }

  /** The audio element respects every event of the run, each in the state it arrives in. */
  predicate EngineRespectsRun(s: Session, events: seq<Event>)
    decreases |events|
  {
    events == [] || (EngineRespects(s, events[0]) && EngineRespectsRun(Apply(s, events[0]), events[1..]))
  }

  /** After every sequence of events the invariant still holds; in particular playing implies loaded. */
  lemma {:induction false} RunPreservesConsistent(s: Session, events: seq<Event>)
    requires Consistent(s)
    ensures Consistent(Run(s, events))
    ensures Run(s, events).isPlaying ==> Run(s, events).audioLoaded
    decreases |events|
  {
    if events != [] {
      RunPreservesConsistent(Apply(s, events[0]), events[1..]);
    }
  }

  /** A session is loaded after a run exactly when it was loaded before or some file was selected. */
  lemma {:induction false} RunLoadedIff(s: Session, events: seq<Event>)
    ensures Run(s, events).audioLoaded <==> s.audioLoaded || FileChange(true) in events
    decreases |events|
  {
    if events != [] {
      RunLoadedIff(Apply(s, events[0]), events[1..]);
      assert events == [events[0]] + events[1..];
    }
  }

  /** Once loaded, a session stays loaded whatever happens next. */
  lemma {:induction false} LoadedStaysLoaded(s: Session, events: seq<Event>)
    requires s.audioLoaded
    ensures Run(s, events).audioLoaded
  {
    RunLoadedIff(s, events);
  }

  /** While the audio element keeps its guarantees the bar holds a percentage, and zero until a file is loaded. */
  lemma {:induction false} RunStaysInRange(s: Session, events: seq<Event>)
    requires InRange(s) && EngineRespectsRun(s, events)
    ensures InRange(Run(s, events))
    decreases |events|
  {
    if events != [] {
      RunStaysInRange(Apply(s, events[0]), events[1..]);
    }
  }

  /** Everything reachable from page load is consistent and in range. */
  lemma ReachableIsConsistent(events: seq<Event>)
    ensures Consistent(Run(Initial, events))
    ensures EngineRespectsRun(Initial, events) ==> InRange(Run(Initial, events))
  {
    RunPreservesConsistent(Initial, events);
    if EngineRespectsRun(Initial, events) {
      RunStaysInRange(Initial, events);
    }
  }

  /** The events a user can cause before selecting any file. */
  predicate InertWhenUnloaded(e: Event) {
    e.LoadClick? || e == FileChange(false) || e.PlayClick? || e.PauseClick? || e.StopClick?
  }

  /** With no file loaded, clicking Load, Play, Pause or Stop, or cancelling the picker, changes nothing at all. */
  lemma {:induction false} UnloadedClicksAreInert(s: Session, events: seq<Event>)
    requires !s.audioLoaded
    requires forall i :: 0 <= i < |events| ==> InertWhenUnloaded(events[i])
    ensures Run(s, events) == s
    decreases |events|
  {
    if events != [] {
      assert InertWhenUnloaded(events[0]);
      assert Apply(s, events[0]) == s;
      UnloadedClicksAreInert(s, events[1..]);
    }
  }

  /** Pausing twice brings back the playing state, with the label that state gets; nothing else moves. */
  lemma PauseTwiceRestores(s: Session)
    ensures PauseClicked(PauseClicked(s))
         == if s.audioLoaded then s.(pauseLabel := if s.isPlaying then Pause else Resume) else s
  {
  }

  /** Stop is the end-of-media reset plus a rewind, and both leave a session loaded. */
  lemma StopIsEndedRewound(s: Session)
    requires s.audioLoaded
    ensures StopClicked(s) == Ended(s).(currentTime := 0.0)
    ensures StopClicked(s).audioLoaded && Ended(s).audioLoaded
  {
  }

  /** Clicking Play while playing restarts: a second successful play gives the same session as the first. */
  lemma PlayRestarts(s: Session)
    ensures PlayClicked(PlayClicked(s, true), true) == PlayClicked(s, true)
    ensures PlayClicked(PlayClicked(s, false), true) == PlayClicked(s, true)
  {
  }
}
