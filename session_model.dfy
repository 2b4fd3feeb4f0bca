/**
  The Circle 22 session as a value: the script's three module-level
  variables, the visible effects of its handlers on the page (classes, text,
  attributes, the stored preference, the audio element, scroll requests) and
  the timers the button press leaves pending. One function per handler, an
  event type for everything the browser can deliver, and the facts the
  script's behaviour guarantees, over single events and over event traces.
 */
module SessionModel {
  import opened Navigation

  /** The two timer callbacks pressButton chains together. */
  datatype TimerStep = OpenDoors | ScrollToScene3

  /** A pending setTimeout callback, labelled with its delay in milliseconds. */
  datatype Timer = Timer(step: TimerStep, delay: nat)

  const DoorDelay: nat := 700
  const AdvanceDelay: nat := 1200
  const DoorTimer: Timer := Timer(OpenDoors, DoorDelay)
  const AdvanceTimer: Timer := Timer(ScrollToScene3, AdvanceDelay)

  /** The text the audioStatus element shows for a flag. */
  function StatusText(on: bool): string {
    if on then "On" else "Off"
  }

  /** String(b), as aria-pressed and localStorage receive it. */
  function BoolText(b: bool): string {
    if b then "true" else "false"
  }

  datatype Session = Session(
    // the module-level state
    audioEnabled: bool,
    buttonPressed: bool,
    currentScene: int,
    // the audio toggle: its 'active' class, the status text, aria-pressed,
    // and the value stored under the 'circle22_audio' key (None: never stored)
    toggleActive: bool,
    statusText: string,
    ariaPressed: string,
    stored: Option<string>,
    // the ambient audio element: set by a play request and cleared by a pause or
    // by any rejection, position known to be 0, volume set to the fixed level,
    // the number of play requests not yet settled
    playing: bool,
    atStart: bool,
    volumeSet: bool,
    pendingPlays: nat,
    // the elevator button's 'pressed' class, scene2's 'open' class, every
    // scrollIntoView request in order (by scene number), and pending timers
    pressedClass: bool,
    scene2Open: bool,
    scrolls: seq<int>,
    timers: seq<Timer>)

  /**
    The session when the script starts. The status text, aria-pressed and the
    stored preference come from the markup and from earlier visits.
   */
  function Init(statusText0: string, ariaPressed0: string, stored0: Option<string>): (s: Session)
    ensures Valid(s)
  {
    Session(false, false, 1, false, statusText0, ariaPressed0, stored0,
            false, true, false, 0, false, false, [], [])
  }

  /** The pending timers agree with how far the press sequence has got. */
  predicate TimersAgree(s: Session) {
    || (s.timers == [] && (s.scene2Open ==> s.buttonPressed))
    || (s.timers == [DoorTimer] && s.buttonPressed && !s.scene2Open)
    || (s.timers == [AdvanceTimer] && s.buttonPressed && s.scene2Open)
  }

  /** What holds of every session the script can reach. */
  predicate Valid(s: Session) {
    && InRange(s.currentScene)
    && (forall i :: 0 <= i < |s.scrolls| ==> InRange(s.scrolls[i]))
    && s.toggleActive == s.audioEnabled
    && s.pressedClass == s.buttonPressed
    && TimersAgree(s)
  }

  /** The status text reads "On" exactly when audio is enabled. */
  predicate IndicatorAgrees(s: Session) {
    s.statusText == StatusText(s.audioEnabled)
  }

  /** aria-pressed and the stored preference both carry the flag. */
  predicate AttributesAgree(s: Session) {
    s.ariaPressed == BoolText(s.audioEnabled) && s.stored == Some(BoolText(s.audioEnabled))
  }

  /**
    From s to r the one-way flags stay set, the scroll log only grows, and
    nothing undoes the press.
   */
  predicate Monotone(s: Session, r: Session) {
    && (s.buttonPressed ==> r.buttonPressed)
    && (s.pressedClass ==> r.pressedClass)
    && (s.scene2Open ==> r.scene2Open)
    && s.scrolls <= r.scrolls
  }

  /** Everything but the audio part of the state. */
  predicate SameNonAudio(s: Session, r: Session) {
    && r.buttonPressed == s.buttonPressed
    && r.currentScene == s.currentScene
    && r.pressedClass == s.pressedClass
    && r.scene2Open == s.scene2Open
    && r.scrolls == s.scrolls
    && r.timers == s.timers
  }

  // ---------------------------------------------------------------- audio

  /** playAmbientSound: only when enabled, set the volume and request playback. */
  function PlayAmbientSound(s: Session): (r: Session)
    ensures !s.audioEnabled ==> r == s
    ensures s.audioEnabled ==> r.playing && r.volumeSet && r.pendingPlays == s.pendingPlays + 1
    ensures s.audioEnabled ==>
              r == s.(volumeSet := true, playing := true, atStart := false, pendingPlays := r.pendingPlays)
    ensures r.audioEnabled == s.audioEnabled && SameNonAudio(s, r)
  {
    if s.audioEnabled then
      s.(volumeSet := true, playing := true, atStart := false, pendingPlays := s.pendingPlays + 1)
    else
      s
  }

  /**
    The catch callback of a play request: audio is switched off in the flag,
    the 'active' class and the status text, but neither aria-pressed nor the
    stored preference is touched. The refused request never started the
    element, so it is not playing.
   */
  function PlayRejected(s: Session): (r: Session)
    ensures s.pendingPlays == 0 ==> r == s
    ensures s.pendingPlays > 0 ==>
              && !r.audioEnabled && !r.toggleActive && r.statusText == StatusText(false)
              && r.ariaPressed == s.ariaPressed && r.stored == s.stored
              && r.pendingPlays == s.pendingPlays - 1 && !r.playing
              && r == s.(audioEnabled := false, toggleActive := false, statusText := r.statusText,
                         playing := false, pendingPlays := r.pendingPlays)
    ensures SameNonAudio(s, r)
  {
    if s.pendingPlays == 0 then s
    else s.(pendingPlays := s.pendingPlays - 1, audioEnabled := false,
            toggleActive := false, statusText := "Off", playing := false)
  }

  /** A play request that succeeds: the script attaches nothing to that outcome. */
  function PlayResolved(s: Session): (r: Session)
    ensures r == s.(pendingPlays := r.pendingPlays)
    ensures s.pendingPlays == 0 ==> r == s
    ensures s.pendingPlays > 0 ==> r.pendingPlays == s.pendingPlays - 1
  {
    if s.pendingPlays == 0 then s else s.(pendingPlays := s.pendingPlays - 1)
  }

  /** pauseAmbientSound: stop playback and rewind to the start. */
  function PauseAmbientSound(s: Session): (r: Session)
    ensures !r.playing && r.atStart
    ensures r == s.(playing := r.playing, atStart := r.atStart)
  {
    s.(playing := false, atStart := true)
  }

  /**
    toggleAudio: flip the flag, show it on the control, then play or pause,
    then store the flag.
   */
  function ToggleAudio(s: Session): (r: Session)
    ensures r.audioEnabled == !s.audioEnabled
    ensures r.toggleActive == r.audioEnabled && IndicatorAgrees(r) && AttributesAgree(r)
    ensures r.audioEnabled ==> r.playing && r.volumeSet && r.pendingPlays == s.pendingPlays + 1
    ensures !r.audioEnabled ==> !r.playing && r.atStart && r.pendingPlays == s.pendingPlays
    ensures r.audioEnabled ==>
              r == s.(audioEnabled := true, toggleActive := true, statusText := r.statusText,
                      ariaPressed := r.ariaPressed, stored := r.stored, playing := true,
                      atStart := false, volumeSet := true, pendingPlays := r.pendingPlays)
    ensures !r.audioEnabled ==>
              r == s.(audioEnabled := false, toggleActive := false, statusText := r.statusText,
                      ariaPressed := r.ariaPressed, stored := r.stored, playing := false,
                      atStart := true)
    ensures SameNonAudio(s, r)
  {
    var on := !s.audioEnabled;
    var shown := s.(audioEnabled := on, toggleActive := on,
                    statusText := StatusText(on), ariaPressed := BoolText(on));
    var played := if on then PlayAmbientSound(shown) else PauseAmbientSound(shown);
    played.(stored := Some(BoolText(played.audioEnabled)))
  }

  // ---------------------------------------------------------------- button

  /**
    pressButton: the first press marks the button, scrolls to scene 2 and
    queues the door timer; every later press changes nothing.
   */
  function PressButton(s: Session): (r: Session)
    ensures s.buttonPressed ==> r == s
    ensures r.buttonPressed
    ensures !s.buttonPressed ==> r.pressedClass
    ensures !s.buttonPressed ==> r.scrolls == s.scrolls + [2] && r.timers == s.timers + [DoorTimer]
    ensures r == s.(buttonPressed := r.buttonPressed, pressedClass := r.pressedClass,
                    scrolls := r.scrolls, timers := r.timers)
  {
    if s.buttonPressed then s
    else s.(buttonPressed := true, pressedClass := true,
            scrolls := s.scrolls + [2], timers := s.timers + [DoorTimer])
  }

  /**
    The earliest pending timer fires: the door timer opens scene 2 and queues
    the advance timer; the advance timer scrolls to scene 3.
   */
  function FireTimer(s: Session): (r: Session)
    ensures s.timers == [] ==> r == s
    ensures s.timers != [] && s.timers[0].step == OpenDoors ==>
              r.scene2Open && r.scrolls == s.scrolls && r.timers == s.timers[1..] + [AdvanceTimer]
    ensures s.timers != [] && s.timers[0].step == ScrollToScene3 ==>
              r.scene2Open == s.scene2Open && r.scrolls == s.scrolls + [3] && r.timers == s.timers[1..]
    ensures r == s.(scene2Open := r.scene2Open, scrolls := r.scrolls, timers := r.timers)
  {
    if s.timers == [] then s
    else
      var rest := s.timers[1..];
      match s.timers[0].step
      case OpenDoors => s.(scene2Open := true, timers := rest + [AdvanceTimer])
      case ScrollToScene3 => s.(scrolls := s.scrolls + [3], timers := rest)
  }

  // ---------------------------------------------------------------- scenes and keys

  /** scrollToScene: scroll only when an element with the id `scene${n}` exists. */
  function ScrollToScene(s: Session, n: int): (r: Session)
    ensures InRange(n) ==> r == s.(scrolls := s.scrolls + [n])
    ensures !InRange(n) ==> r == s
  {
    if InRange(n) then s.(scrolls := s.scrolls + [n]) else s
  }

  /** handleSceneEntry: a scene's id sets the current scene; any other id is ignored. */
  function HandleSceneEntry(s: Session, id: string): (r: Session)
    ensures r == s.(currentScene := r.currentScene)
    ensures InRange(r.currentScene) <== InRange(s.currentScene)
    ensures forall n :: InRange(n) && id == SceneId(n) ==> r.currentScene == n
    ensures (forall n :: InRange(n) ==> id != SceneId(n)) ==> r == s
  {
    match SceneIndexOf(id)
    case Some(k) => s.(currentScene := k)
    case None => s
  }

  /** The keydown listener: at most one scroll request, and nothing else. */
  function KeyDown(s: Session, key: string, onBody: bool): (r: Session)
    ensures r == s.(scrolls := r.scrolls)
    ensures KeyTarget(key, onBody, s.currentScene).None? ==> r == s
    ensures KeyTarget(key, onBody, s.currentScene).Some? && InRange(s.currentScene) ==>
              r.scrolls == s.scrolls + [KeyTarget(key, onBody, s.currentScene).value]
  {
    match KeyTarget(key, onBody, s.currentScene)
    case Some(t) => ScrollToScene(s, t)
    case None => s
  }

  /** The visibilitychange listener: hiding the page pauses and rewinds the audio. */
  function VisibilityChange(s: Session, hidden: bool): (r: Session)
    ensures hidden ==> !r.playing && r.atStart && r == s.(playing := false, atStart := true)
    ensures !hidden ==> r == s
  {
    if hidden then PauseAmbientSound(s) else s
  }

  // ---------------------------------------------------------------- events and traces

  /** Everything the browser can deliver to the script. */
  datatype Event =
    | ToggleClicked
    | PlayRejection
    | PlayResolution
    | ButtonClicked
    | TimerFired
    | SceneEntered(id: string)
    | KeyPressed(key: string, onBody: bool)
    | VisibilityChanged(hidden: bool)

  function Apply(s: Session, e: Event): (r: Session)
    ensures Valid(s) ==> Valid(r)
    ensures Monotone(s, r)
    ensures IndicatorAgrees(s) ==> IndicatorAgrees(r)
    ensures !e.SceneEntered? ==> r.currentScene == s.currentScene
  {
    match e
    case ToggleClicked => ToggleAudio(s)
    case PlayRejection => PlayRejected(s)
    case PlayResolution => PlayResolved(s)
    case ButtonClicked => PressButton(s)
    case TimerFired => FireTimer(s)
    case SceneEntered(id) => HandleSceneEntry(s, id)
    case KeyPressed(key, onBody) => KeyDown(s, key, onBody)
    case VisibilityChanged(hidden) => VisibilityChange(s, hidden)
  }

  /** The session after delivering the events in order. */
  function Run(s: Session, es: seq<Event>): Session
    decreases |es|
  {
    if es == [] then s else Run(Apply(s, es[0]), es[1..])
  }

  /** The events of a trace other than button clicks, in order. */
  function WithoutPresses(es: seq<Event>): (r: seq<Event>)
    ensures forall e :: e in r <==> e in es && !e.ButtonClicked?
    ensures (forall i :: 0 <= i < |es| ==> !es[i].ButtonClicked?) ==> r == es
    ensures |r| <= |es|
    decreases |es|
  {
    if es == [] then []
    else if es[0].ButtonClicked? then WithoutPresses(es[1..])
    else [es[0]] + WithoutPresses(es[1..])
  }

  /** Dropping the clicks keeps the order: filtering a concatenation filters each part. */
  lemma {:induction false} WithoutPressesAppend(a: seq<Event>, b: seq<Event>)
    ensures WithoutPresses(a + b) == WithoutPresses(a) + WithoutPresses(b)
    decreases |a|
  {
    if a == [] {
      assert a + b == b;
    } else {
      assert (a + b)[0] == a[0] && (a + b)[1..] == a[1..] + b;
      WithoutPressesAppend(a[1..], b);
    }
  }

  /** n clicks on the audio toggle. */
  function Toggles(n: nat): (r: seq<Event>)
    ensures |r| == n && forall i :: 0 <= i < n ==> r[i] == ToggleClicked
  {
    seq(n, _ => ToggleClicked)
  }

  lemma {:induction false} RunPreservesValid(s: Session, es: seq<Event>)
    requires Valid(s)
    ensures Valid(Run(s, es))
    decreases |es|
  {
    if es != [] {
      RunPreservesValid(Apply(s, es[0]), es[1..]);
    }
  }

  /** Every session the script can reach from its start is valid. */
  lemma ReachableIsValid(statusText0: string, ariaPressed0: string, stored0: Option<string>, es: seq<Event>)
    ensures Valid(Run(Init(statusText0, ariaPressed0, stored0), es))
  {
    RunPreservesValid(Init(statusText0, ariaPressed0, stored0), es);
  }

  lemma {:induction false} RunMonotone(s: Session, es: seq<Event>)
    ensures Monotone(s, Run(s, es))
    decreases |es|
  {
    if es != [] {
      RunMonotone(Apply(s, es[0]), es[1..]);
    }
  }

  lemma {:induction false} RunKeepsIndicator(s: Session, es: seq<Event>)
    requires IndicatorAgrees(s)
    ensures IndicatorAgrees(Run(s, es))
    decreases |es|
  {
    if es != [] {
      RunKeepsIndicator(Apply(s, es[0]), es[1..]);
    }
  }

  /** Only a scene entry moves the current scene: keys and timers merely scroll. */
  lemma {:induction false} RunWithoutEntryKeepsScene(s: Session, es: seq<Event>)
    requires forall i :: 0 <= i < |es| ==> !es[i].SceneEntered?
    ensures Run(s, es).currentScene == s.currentScene
    decreases |es|
  {
    if es != [] {
      RunWithoutEntryKeepsScene(Apply(s, es[0]), es[1..]);
    }
  }

  /** Once pressed, a trace does what it would do with its button clicks removed. */
  lemma {:induction false} PressedIgnoresPresses(s: Session, es: seq<Event>)
    requires s.buttonPressed
    ensures Run(s, es) == Run(s, WithoutPresses(es))
    decreases |es|
  {
    if es != [] {
      var s' := Apply(s, es[0]);
      PressedIgnoresPresses(s', es[1..]);
      if !es[0].ButtonClicked? {
        var kept := [es[0]] + WithoutPresses(es[1..]);
        assert kept[0] == es[0] && kept[1..] == WithoutPresses(es[1..]);
      }
    }
  }

  /** Pressing twice is pressing once. */
  lemma PressTwiceIsPressOnce(s: Session)
    ensures Run(s, [ButtonClicked, ButtonClicked]) == Run(s, [ButtonClicked])
  {
  }

  /**
    The first press runs its three steps in order: scroll to scene 2 now, open
    scene 2 when the 700 ms timer fires, scroll to scene 3 when the 1200 ms
    timer queued by that one fires; then nothing is pending.
   */
  lemma PressSequence(s: Session)
    requires Valid(s) && !s.buttonPressed
    ensures var p := PressButton(s);
            && p.scrolls == s.scrolls + [2] && !p.scene2Open && p.timers == [DoorTimer]
    ensures var o := FireTimer(PressButton(s));
            && o.scrolls == s.scrolls + [2] && o.scene2Open && o.timers == [AdvanceTimer]
    ensures var a := FireTimer(FireTimer(PressButton(s)));
            && a.scrolls == s.scrolls + [2, 3] && a.scene2Open && a.timers == []
  {
  }

  /** Scene 3 is only ever scrolled to by a timer once scene 2 is open. */
  lemma AdvanceOnlyAfterDoorsOpen(s: Session)
    requires Valid(s) && s.timers != [] && s.timers[0].step == ScrollToScene3
    ensures s.scene2Open && FireTimer(s).scene2Open
  {
  }

  /**
    An odd number of toggle clicks flips the flag and an even number restores
    it; after any click the control, aria-pressed and the store all show it.
   */
  lemma {:induction false} TogglesParity(s: Session, n: nat)
    ensures Run(s, Toggles(n)).audioEnabled == (s.audioEnabled != (n % 2 == 1))
    ensures n > 0 ==> IndicatorAgrees(Run(s, Toggles(n))) && AttributesAgree(Run(s, Toggles(n)))
    ensures SameNonAudio(s, Run(s, Toggles(n)))
    decreases n
  {
    if n > 0 {
      var t := ToggleAudio(s);
      assert Toggles(n)[0] == ToggleClicked && Toggles(n)[1..] == Toggles(n - 1);
      TogglesParity(t, n - 1);
      if n - 1 == 0 {
        assert Run(t, Toggles(0)) == t;
      }
    }
  }

  /**
    A double toggle restores the flag, the 'active' class, and leaves the
    status text, aria-pressed and the stored value equal to it. It is not the
    identity on the whole session: the stored value is written, and either
    way one more play request is outstanding than before (and may yet be
    rejected); from off the audio ends paused and rewound, from on it ends
    with playback requested again.
   */
  lemma ToggleTwiceRestores(s: Session)
    ensures var r := ToggleAudio(ToggleAudio(s));
            && r.audioEnabled == s.audioEnabled && r.toggleActive == s.audioEnabled
            && IndicatorAgrees(r) && AttributesAgree(r)
            && SameNonAudio(s, r)
            && r.stored == Some(BoolText(s.audioEnabled))
            && (!s.audioEnabled ==> r.pendingPlays == s.pendingPlays + 1 && !r.playing && r.atStart)
            && (s.audioEnabled ==> r.pendingPlays == s.pendingPlays + 1 && r.playing)
  {
  }

  /**
    Turning audio on and having the play request rejected leaves the flag and
    the status text reading off, while aria-pressed and the stored preference
    still read "true".
   */
  lemma RejectedPlayLeavesAttributesOn(s: Session)
    requires !s.audioEnabled
    ensures var r := PlayRejected(ToggleAudio(s));
            && !r.audioEnabled && r.statusText == "Off" && !r.toggleActive
            && r.ariaPressed == "true" && r.stored == Some("true")
            && !AttributesAgree(r)
  {
  }
}
