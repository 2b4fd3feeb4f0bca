/**
  The page script as it runs: one controller object whose fields are the
  script's module-level variables and the page state its handlers change,
  with one method per handler. Each method is proved to move the object's
  state exactly as the matching function of SessionModel does, so every
  lemma there applies to the object.
 */
module Page {
  import opened Navigation
  import SessionModel

  class Controller {
    // the module-level state
    var audioEnabled: bool
    var buttonPressed: bool
    var currentScene: int
    // the audio toggle and the stored preference
    var toggleActive: bool
    var statusText: string
    var ariaPressed: string
    var stored: Option<string>
    // the ambient audio element
    var playing: bool
    var atStart: bool
    var volumeSet: bool
    var pendingPlays: nat
    // the elevator button, scene2, scroll requests and pending timers
    var pressedClass: bool
    var scene2Open: bool
    var scrolls: seq<int>
    var timers: seq<SessionModel.Timer>

    /** The object's state as a session value. */
    function State(): SessionModel.Session
      reads this
    {
      SessionModel.Session(audioEnabled, buttonPressed, currentScene,
                           toggleActive, statusText, ariaPressed, stored,
                           playing, atStart, volumeSet, pendingPlays,
                           pressedClass, scene2Open, scrolls, timers)
    }

    ghost predicate Valid()
      reads this
    {
      SessionModel.Valid(State())
    }

    /** The script starting, on a page whose markup and storage are given. */
    constructor (statusText0: string, ariaPressed0: string, stored0: Option<string>)
      ensures Valid()
      ensures State() == SessionModel.Init(statusText0, ariaPressed0, stored0)
    {
      audioEnabled, buttonPressed, currentScene := false, false, 1;
      toggleActive, statusText, ariaPressed, stored := false, statusText0, ariaPressed0, stored0;
      playing, atStart, volumeSet, pendingPlays := false, true, false, 0;
      pressedClass, scene2Open, scrolls, timers := false, false, [], [];
    }

    method ToggleAudio()
      requires Valid()
      modifies this
      ensures Valid()
      ensures State() == SessionModel.ToggleAudio(old(State()))
    {
      audioEnabled := !audioEnabled;
      toggleActive := audioEnabled;
      statusText := if audioEnabled then "On" else "Off";
      ariaPressed := SessionModel.BoolText(audioEnabled);
      if audioEnabled {
        PlayAmbientSound();
      } else {
        PauseAmbientSound();
      }
      stored := Some(SessionModel.BoolText(audioEnabled));
    }

    /** Playback is requested only while audio is enabled. */
    method PlayAmbientSound()
      requires Valid()
      modifies this
      ensures Valid()
      ensures State() == SessionModel.PlayAmbientSound(old(State()))
    {
      if audioEnabled {
        volumeSet := true;
        playing, atStart := true, false;
        pendingPlays := pendingPlays + 1;
      }
    }

    /** The catch callback of a play request that the browser refused. */
    method PlayRejected()
      requires Valid()
      modifies this
      ensures Valid()
      ensures State() == SessionModel.PlayRejected(old(State()))
    {
      if pendingPlays > 0 {
        pendingPlays := pendingPlays - 1;
        audioEnabled := false;
        toggleActive := false;
        statusText := "Off";
        playing := false;
      }
    }

    /** A play request that the browser granted. */
    method PlayResolved()
      requires Valid()
      modifies this
      ensures Valid()
      ensures State() == SessionModel.PlayResolved(old(State()))
    {
      if pendingPlays > 0 {
        pendingPlays := pendingPlays - 1;
      }
    }

    method PauseAmbientSound()
      requires Valid()
      modifies this
      ensures Valid()
      ensures State() == SessionModel.PauseAmbientSound(old(State()))
    {
      playing := false;
      atStart := true;
    }

    method PressButton()
      requires Valid()
      modifies this
      ensures Valid()
      ensures State() == SessionModel.PressButton(old(State()))
    {
      if buttonPressed {
        return;
      }
      buttonPressed := true;
      pressedClass := true;
      scrolls := scrolls + [2];
      timers := timers + [SessionModel.DoorTimer];
    }

    /** The earliest pending timer fires; `fired` says which step ran, if any. */
    method FireTimer() returns (fired: Option<SessionModel.TimerStep>)
      requires Valid()
      modifies this
      ensures Valid()
      ensures State() == SessionModel.FireTimer(old(State()))
      ensures fired == if old(timers) == [] then None else Some(old(timers)[0].step)
    {
      if timers == [] {
        return None;
      }
      var step := timers[0].step;
      timers := timers[1..];
      fired := Some(step);
      match step
      case OpenDoors =>
        scene2Open := true;
        timers := timers + [SessionModel.AdvanceTimer];
      case ScrollToScene3 =>
        scrolls := scrolls + [3];
    }

    method ScrollToScene(n: int)
      requires Valid()
      modifies this
      ensures Valid()
      ensures State() == SessionModel.ScrollToScene(old(State()), n)
    {
      if InRange(n) {
        scrolls := scrolls + [n];
      }
    }

    method HandleSceneEntry(id: string)
      requires Valid()
      modifies this
      ensures Valid()
      ensures State() == SessionModel.HandleSceneEntry(old(State()), id)
    {
      if id == "scene1" {
        currentScene := 1;
      } else if id == "scene2" {
        currentScene := 2;
      } else if id == "scene3" {
        currentScene := 3;
      }
    }

    /** The keydown listener; `prevented` says whether it cancelled the default action. */
    method KeyDown(key: string, onBody: bool) returns (prevented: bool)
      requires Valid()
      modifies this
      ensures Valid()
      ensures State() == SessionModel.KeyDown(old(State()), key, onBody)
      ensures prevented == PreventsDefault(key, onBody)
    {
      prevented := false;
      if key == "ArrowDown" || (key == " " && onBody) {
        prevented := true;
        if currentScene < 3 {
          ScrollToScene(currentScene + 1);
        }
      }
      if key == "ArrowUp" {
        prevented := true;
        if currentScene > 1 {
          ScrollToScene(currentScene - 1);
        }
      }
      if key == "Escape" {
        ScrollToScene(3);
      }
    }

    method VisibilityChange(hidden: bool)
      requires Valid()
      modifies this
      ensures Valid()
      ensures State() == SessionModel.VisibilityChange(old(State()), hidden)
    {
      if hidden {
        PauseAmbientSound();
      }
    }
  }
}
