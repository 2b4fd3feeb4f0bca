# Circle 22 session model

Circle 22 is a single-page, scroll-driven narrative with three scenes
(`scene1`, `scene2` the elevator, `scene3` the invitation). Its page script
keeps three pieces of state: whether ambient audio is enabled, whether the
elevator button has been pressed, and the current scene. It also has one
handler per browser event: the audio toggle, the play request and its
rejection, pause, the button press with its two chained timers, scene entry
reported by the intersection observer, keyboard navigation and the page
becoming hidden.

The model has three modules:

- `Navigation` (navigation.dfy) holds the two pure pieces of the script. One is
  the switch from an element id to a scene index. The other maps a key press
  to a scroll target. `SceneId` is the inverse of the switch, and `Clamp` is
  the reference for a one-scene move that stops at either end.
- `SessionModel` (session_model.dfy) holds the session as a value, `Session`,
  and one function per handler. It also has an `Event` type, `Run` over event
  traces, the invariant `Valid`, and the lemmas. Visible page effects are
  abstract fields:
  - the toggle's `active` class;
  - the status text;
  - `aria-pressed`;
  - the value stored under `circle22_audio`;
  - `playing`, which a play request sets and a pause or any rejection clears
    (see "## Left out" for overlapping requests), whether the audio position
    is known to be 0,
    whether the fixed volume was set, and how many play requests are still
    unsettled;
  - the button's `pressed` class and scene 2's `open` class;
  - a log of every `scrollIntoView` request, by scene number;
  - the queue of pending timers, each labelled with its delay (700 ms, then
    1200 ms).
- `Page` (page.dfy) holds the class `Controller`, with the same fields and one
  method per handler. Each method's body changes the fields the way the
  handler does. It is proved to leave `State()` equal to the matching
  `SessionModel` function applied to the old state, and to keep `Valid()`. So
  every lemma about the model applies to the object.

Other revisions of this page script have five scenes, an audio fade-out, a
reduced-motion flag and a startup read of the stored preference. The model
follows this script.js only:

- There are three scenes, not five.
- Escape scrolls to scene 3 even when scene 3 is already current.
- A rejected play turns off the flag, the `active` class and the status text,
  but it leaves `aria-pressed` and the stored value at `"true"`. This is
  stated as `RejectedPlayLeavesAttributesOn`.
- There is no audio fade-out, no reduced-motion flag, no reading of the stored
  preference at startup and no deduplication of repeated scene entries.

## Model

| member | source | states |
|---|---|---|
| Navigation.SceneIndexOf | script.js:134-148 | an id gives a scene index exactly for `scene1`..`scene3`; the index is in [1,3] and the id is `scene${index}` (round trip with `SceneId`); every other id gives none |
| Navigation.KeyTarget | script.js:152-170 | from a scene in [1,3], the target is in [1,3]; ArrowDown / Space on the body is the next scene clamped to 3, and no move at scene 3; ArrowUp is the previous scene clamped to 1, and no move at scene 1; Escape is always scene 3; other keys give nothing |
| Navigation.PreventsDefault | script.js:153-168 | the default action is cancelled exactly for the keys whose target depends on the current scene (the arrows and Space on the body), so they are swallowed even at an end where nothing scrolls; a key that scrolls without being cancelled is Escape |
| SessionModel.Init | script.js:6-8 | the start state: audio off, button not pressed, scene 1, nothing pending; it satisfies the invariant |
| SessionModel.ToggleAudio | script.js:35-48 | the flag is negated; afterwards the `active` class, the status text ("On" iff enabled), aria-pressed and the stored value all equal the new flag; enabling sets the volume and requests playback, disabling pauses and rewinds; the whole new state is given, so nothing else changes |
| SessionModel.PlayAmbientSound | script.js:50-64 | nothing changes unless audio is enabled; if it is, the volume is set, playback is requested, the position is no longer known to be 0 and one more play request is outstanding, and nothing else changes (flag, toggle display and stored value included) |
| SessionModel.PlayRejected | script.js:56-61 | a rejection of an outstanding request turns off the flag, the `active` class and the status text, settles the request and leaves the element not playing; aria-pressed, the stored value and everything else are kept; with no outstanding request nothing changes |
| SessionModel.PlayResolved | script.js:53-62 | a granted request only settles the request; no other state changes, and with no outstanding request nothing changes at all |
| SessionModel.PauseAmbientSound | script.js:66-71 | playback stops and the position is 0; nothing else changes (flag, toggle display, stored value, volume and outstanding requests included) |
| SessionModel.PressButton | script.js:80-101 | when already pressed, nothing changes; otherwise the press flag and `pressed` class are set, scene 2 is scrolled to, and the 700 ms door timer is queued; nothing else changes |
| SessionModel.FireTimer | script.js:94-101 | the door timer opens scene 2 and queues the 1200 ms advance timer; the advance timer scrolls to scene 3; with nothing pending nothing changes |
| SessionModel.ScrollToScene | script.js:105-113 | a scroll request is logged exactly when the scene number names an existing scene |
| SessionModel.HandleSceneEntry | script.js:134-148 | only the current scene can change; a scene id sets it to that scene's number and every other id changes nothing; the scene stays in [1,3] |
| SessionModel.KeyDown | script.js:152-170 | a key press changes nothing but the scroll log, adding exactly the key's target when there is one |
| SessionModel.VisibilityChange | script.js:181-185 | hiding the page pauses and rewinds the audio, changing nothing else and leaving the flag alone; showing it changes nothing |
| SessionModel.Apply | script.js:21-26 | every event keeps the invariant and the status-text agreement; the press flag, `pressed` and `open` classes never go back to false; the scroll log only grows; only scene entry changes the current scene |
| SessionModel.RunPreservesValid | script.js:6-8 | any trace of events from a valid session ends in a valid one: scene and scroll targets in [1,3], classes match the flags, timers match the press progress |
| SessionModel.ReachableIsValid | script.js:6-8 | every session reachable from the start satisfies the invariant |
| SessionModel.RunMonotone | script.js:80-101 | over any trace the press flag, `pressed` class and scene 2's `open` class only go from false to true, and earlier scroll requests are never lost |
| SessionModel.RunKeepsIndicator | script.js:35-61 | once the status text matches the flag, it matches after any trace, rejections included |
| SessionModel.RunWithoutEntryKeepsScene | script.js:152-170 | a trace with no scene entry, such as key presses, timers or toggles, leaves the current scene unchanged |
| SessionModel.WithoutPressesAppend | script.js:80-81 | removing the button clicks from a trace keeps every other event and their order: it distributes over concatenation |
| SessionModel.PressedIgnoresPresses | script.js:80-81 | once pressed, a trace ends exactly where the same trace with its button clicks removed ends |
| SessionModel.PressTwiceIsPressOnce | script.js:80-81 | two presses in a row give the same session as one |
| SessionModel.PressSequence | script.js:90-101 | from an unpressed valid session, a press scrolls to scene 2 with the 700 ms timer pending; firing it opens scene 2 with the 1200 ms timer pending; firing that scrolls to scene 3 and leaves nothing pending |
| SessionModel.AdvanceOnlyAfterDoorsOpen | script.js:94-101 | in a valid session, the scene 3 timer can be pending only after scene 2 is open |
| SessionModel.TogglesParity | script.js:35-48 | after n toggle clicks the flag is flipped iff n is odd; after at least one click the status text, aria-pressed and the stored value all match it; nothing outside the audio changes |
| SessionModel.ToggleTwiceRestores | script.js:35-48 | two toggles restore the flag and the `active` class, and the status text, aria-pressed and the stored value then read the original flag; one more play request than before is outstanding, so the session as a whole is not restored |
| SessionModel.RejectedPlayLeavesAttributesOn | script.js:56-61 | enabling from off and then having the play rejected leaves the flag off and the status "Off", while aria-pressed and the stored value still read "true" |
| Page.Controller.constructor | script.js:6-8 | the controller starts in the start state, which is valid |
| Page.Controller.ToggleAudio | script.js:35-48 | the new state is `ToggleAudio` of the old one; the invariant is kept |
| Page.Controller.PlayAmbientSound | script.js:50-64 | the new state is `PlayAmbientSound` of the old one; the invariant is kept |
| Page.Controller.PlayRejected | script.js:56-61 | the new state is `PlayRejected` of the old one; the invariant is kept |
| Page.Controller.PlayResolved | script.js:53-62 | the new state is `PlayResolved` of the old one; the invariant is kept |
| Page.Controller.PauseAmbientSound | script.js:66-71 | the new state is `PauseAmbientSound` of the old one; the invariant is kept |
| Page.Controller.PressButton | script.js:80-101 | the new state is `PressButton` of the old one; the invariant is kept |
| Page.Controller.FireTimer | script.js:94-101 | the new state is `FireTimer` of the old one; it reports which step ran, if any; the invariant is kept |
| Page.Controller.ScrollToScene | script.js:105-113 | the new state is `ScrollToScene` of the old one; the invariant is kept |
| Page.Controller.HandleSceneEntry | script.js:134-148 | the new state is `HandleSceneEntry` of the old one; the invariant is kept |
| Page.Controller.KeyDown | script.js:152-170 | the new state is `KeyDown` of the old one; it reports whether the default action was cancelled; the invariant is kept |
| Page.Controller.VisibilityChange | script.js:181-185 | the new state is `VisibilityChange` of the old one; the invariant is kept |

## Left out

- Element lookups and listener registration (script.js:11-33, 74-78, 151-152, 173-178): every element is taken to be present, so the null guards on `audioToggle`, `ambientSound` and `circle22Button` always pass.
- The `playPromise !== undefined` guard (script.js:55): every play request is taken to return a promise.
- Intersection geometry and the 0.5 threshold (script.js:116-132): these are driven by the browser and use floats, so a scene crossing the threshold is the abstract event `SceneEntered(id)`.
- Wall-clock time and smooth scrolling: timers are queued with their delay as a label, not simulated. They fire in queue order, and at most one is ever pending.
- The volume itself (0.25, a float): only the fact that the fixed volume was set is recorded.
- Playback progress: the audio position is only tracked as "known to be 0" (set by a pause, cleared by a play request).
- `navigator.vibrate` (script.js:86-88) and `console.log` (script.js:57): neither changes any state the script reads.
- The asynchronous play promise: its outcome is a separate event, `PlayRejection` or `PlayResolution`.
- Which outstanding play request settles, when several overlap: requests are only counted, so any rejection clears `playing`. The model does not capture that the browser's `pause()` aborts outstanding requests. So it misses the race where a toggle on, off, on leaves an older request to be rejected late (the script then shows "Off"), while the newest request can still start playback (the model then says not playing).
- The page markup's initial status text and `aria-pressed`, and any value stored by an earlier visit: these are not in the script, so they are parameters of the start state. The `active`, `pressed` and `open` classes are taken to start absent.
- `localStorage` itself: it is a single stored field.
- A failing `localStorage.setItem` (script.js:47), which throws when storage is disabled or full: the model assumes the write succeeds. The exception would end `toggleAudio` after the display and play/pause updates but before the store.
