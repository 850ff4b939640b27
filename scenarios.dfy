/**
 * Concrete runs of the controller from page load, and one fact these runs show:
 * the button labels are not determined by the two state flags alone.
 */
module PlaybackScenarios {
  import opened Playback

  /** Load a file, play it, see progress 0, 25 and 50 of a 4-second track, then reach the end. */
  lemma LoadPlayProgressEnd()
    ensures var loaded := Run(Initial, [FileChange(true), PlayClick(true)]);
            loaded.isPlaying && loaded.playLabel == Restart && loaded.pauseLabel == Pause
    ensures Run(Initial, [FileChange(true), PlayClick(true), TimeUpdate(Some(4.0), 0.0)]).progress == 0.0
    ensures Run(Initial, [FileChange(true), PlayClick(true), TimeUpdate(Some(4.0), 1.0)]).progress == 25.0
    ensures Run(Initial, [FileChange(true), PlayClick(true), TimeUpdate(Some(4.0), 2.0)]).progress == 50.0
    ensures var done := Run(Initial, [FileChange(true), PlayClick(true), TimeUpdate(Some(4.0), 2.0), MediaEnded]);
            done.progress == 0.0 && !done.isPlaying && done.playLabel == Play && done.pauseLabel == Pause
  {
  }

  /** A duration of 10 seconds at position 2.5 shows 25 percent; an unknown duration leaves the bar alone. */
  lemma ProgressOfTenSeconds(s: Session)
    ensures TimeUpdated(s, Some(10.0), 2.5).progress == 25.0
    ensures TimeUpdated(s, None, 2.5).progress == s.progress
    ensures TimeUpdated(s, Some(0.0), 2.5).progress == s.progress
  {
  }

  /** Play before any file is loaded: nothing plays and nothing changes. */
  lemma PlayWithoutFile(succeeds: bool)
    ensures Run(Initial, [PlayClick(succeeds)]) == Initial
  {
  }

  /** Playing, pause, then resume: "Resume" and not playing, then "Pause" and playing. */
  lemma PauseThenResume()
    ensures var paused := Run(Initial, [FileChange(true), PlayClick(true), PauseClick]);
            !paused.isPlaying && paused.pauseLabel == Resume
    ensures var resumed := Run(Initial, [FileChange(true), PlayClick(true), PauseClick, PauseClick]);
            resumed.isPlaying && resumed.pauseLabel == Pause
  {
  }

  /** A rejected play request leaves the session not playing and the labels as they were. */
  lemma PlayRejected()
    ensures var s := Run(Initial, [FileChange(true), PlayClick(false)]);
            !s.isPlaying && s.playLabel == Play && s.pauseLabel == Pause
  {
  }

  /**
   * Two runs reaching the same flags (loaded and playing) with different Play
   * button texts: a successful play shows "Restart", while resuming from a
   * stopped session through the Pause button leaves "Play".
   */
  lemma LabelsNotDeterminedByFlags()
    ensures var played := Run(Initial, [FileChange(true), PlayClick(true)]);
            var resumed := Run(Initial, [FileChange(true), PauseClick]);
            played.audioLoaded && resumed.audioLoaded && played.isPlaying && resumed.isPlaying
            && played.playLabel == Restart && resumed.playLabel == Play
  {
  }
}
