/**
 * The playback controller as the page runs it: one object whose fields are the
 * two state flags and the parts of the page the handlers write (two button
 * labels, the progress bar, the audio element's position).  Each handler is a
 * method that updates the fields in place; its contract ties the new state to
 * the matching transition of module Playback and keeps the invariant.
 */
module PlaybackController {
  import Playback

  class Controller {
    var isPlaying: bool
    var audioLoaded: bool
    var playLabel: Playback.Label
    var pauseLabel: Playback.Label
    var progress: real
    var currentTime: real

    /** The fields as a session value. */
    function State(): (s: Playback.Session)
      reads this
    {
      Playback.Session(isPlaying, audioLoaded, playLabel, pauseLabel, progress, currentTime)
    }

    ghost predicate Valid()
      reads this
    {
      Playback.Consistent(State())
    }

    /** The page has loaded: nothing selected, nothing playing, base labels, empty bar. */
    constructor ()
      ensures State() == Playback.Initial
      ensures Valid() && Playback.InRange(State())
    {
      isPlaying, audioLoaded := false, false;
      playLabel, pauseLabel := Playback.Play, Playback.Pause;
      progress, currentTime := 0.0, 0.0;
    }

    /** Load button: opens the file picker only. */
    method OnLoadClick()
      requires Valid()
      ensures State() == Playback.LoadClicked(old(State()))
      ensures Valid()
    {
    }

    /** File input change, `present` telling whether a file was chosen. */
    method OnFileChange(present: bool)
      requires Valid()
      modifies this
      ensures State() == Playback.FileSelected(old(State()), present)
      ensures Valid()
    {
      if present {
        audioLoaded := true;
        playLabel := Playback.Play;
      }
    }

    /** Play button; `succeeds` is how the play request resolves. */
    method OnPlayClick(succeeds: bool)
      requires Valid()
      modifies this
      ensures State() == Playback.PlayClicked(old(State()), succeeds)
      ensures Valid()
    {
      if !audioLoaded {
        return;
      }
      currentTime := 0.0;
      if succeeds {
        isPlaying := true;
        playLabel := Playback.Restart;
        pauseLabel := Playback.Pause;
      }
    }

    /** Pause/Resume button. */
    method OnPauseClick()
      requires Valid()
      modifies this
      ensures State() == Playback.PauseClicked(old(State()))
      ensures Valid()
    {
      if !audioLoaded {
        return;
      }
      if isPlaying {
        isPlaying := false;
        pauseLabel := Playback.Resume;
      } else {
        isPlaying := true;
        pauseLabel := Playback.Pause;
      }
    }

    /** Stop button. */
    method OnStopClick()
      requires Valid()
      modifies this
      ensures State() == Playback.StopClicked(old(State()))
      ensures Valid()
    {
      if !audioLoaded {
        return;
      }
      currentTime := 0.0;
      isPlaying := false;
      pauseLabel := Playback.Pause;
      playLabel := Playback.Play;
      progress := 0.0;
    }

    /** The audio element reports that it has reached `position`; `duration` is None while unknown. */
    method OnTimeUpdate(duration: Playback.Option<real>, position: real)
      requires Valid()
      modifies this
      ensures State() == Playback.TimeUpdated(old(State()), duration, position)
      ensures Valid()
    {
      currentTime := position;
      if duration.Some? && duration.value != 0.0 {
        progress := Playback.Percent(currentTime, duration.value);
      }
    }

    /** The audio element reached the end of the track. */
    method OnEnded()
      requires Valid()
      modifies this
      ensures State() == Playback.Ended(old(State()))
      ensures Valid()
    {
      isPlaying := false;
      playLabel := Playback.Play;
      pauseLabel := Playback.Pause;
      progress := 0.0;
    }
  }

  /** A client of the class: load a file, play it, watch the bar fill, reach the end. */
  method LoadPlayAndEnd() {
    var c := new Controller();
    c.OnPlayClick(true);
    assert !c.isPlaying;
    c.OnFileChange(true);
    c.OnPlayClick(true);
    assert c.isPlaying && c.playLabel == Playback.Restart;
    c.OnTimeUpdate(Playback.Some(4.0), 1.0);
    assert c.progress == 25.0;
    c.OnTimeUpdate(Playback.Some(4.0), 2.0);
    assert c.progress == 50.0;
    c.OnPauseClick();
    assert !c.isPlaying && c.pauseLabel == Playback.Resume && c.progress == 50.0;
    c.OnPauseClick();
    assert c.isPlaying && c.pauseLabel == Playback.Pause;
    c.OnEnded();
    assert !c.isPlaying && c.progress == 0.0 && c.audioLoaded;
    assert c.playLabel == Playback.Play && c.pauseLabel == Playback.Pause;
  }
}
