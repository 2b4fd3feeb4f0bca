/**
  The pure pieces of the Circle 22 page script: which scene an element id
  names (the switch of handleSceneEntry) and which scene a key press asks to
  scroll to (the keydown listener).
 */
module Navigation {

  datatype Option<T> = None | Some(value: T)

  /** The page holds exactly three scenes, with ids scene1, scene2 and scene3. */
  const SceneCount: int := 3

  predicate InRange(n: int) {
    1 <= n <= SceneCount
  }

  /** The element id the template `scene${n}` builds for a scene number. */
  function SceneId(n: int): (id: string)
    requires InRange(n)
    ensures |id| == 6 && id[5] as int == '0' as int + n
  {
    "scene" + [('0' as int + n) as char]
  }

  /** The switch of handleSceneEntry: the index of the scene an id names, if any. */
  function SceneIndexOf(id: string): (r: Option<int>)
    ensures r.Some? ==> InRange(r.value) && id == SceneId(r.value)
    ensures r.None? ==> forall n :: InRange(n) ==> id != SceneId(n)
    ensures forall n :: InRange(n) && id == SceneId(n) ==> r == Some(n)
  {
    if id == "scene1" then Some(1)
    else if id == "scene2" then Some(2)
    else if id == "scene3" then Some(3)
    else None
  }

  /** ArrowDown, or Space while the event's target is the document body. */
  predicate IsAdvanceKey(key: string, onBody: bool) {
    key == "ArrowDown" || (key == " " && onBody)
  }

  predicate IsRetreatKey(key: string) {
    key == "ArrowUp"
  }

  predicate IsJumpKey(key: string) {
    key == "Escape"
  }

  /** A scene number forced into [1, SceneCount]. */
  function Clamp(n: int): (r: int)
    ensures InRange(r)
    ensures InRange(n) ==> r == n
  {
    if n < 1 then 1 else if n > SceneCount then SceneCount else n
  }

  /** A move to `target`, or no move at all when it is where we already are. */
  function MoveTo(current: int, target: int): Option<int> {
    if target == current then None else Some(target)
  }

  /**
    The scene the keydown listener scrolls to from scene `current`, if any.
    Arrows move one scene, clamped to the ends, and do nothing at an end;
    Escape always targets the last scene; every other key does nothing.
   */
  function KeyTarget(key: string, onBody: bool, current: int): (r: Option<int>)
    ensures InRange(current) && r.Some? ==> InRange(r.value)
    ensures InRange(current) && IsAdvanceKey(key, onBody) ==> r == MoveTo(current, Clamp(current + 1))
    ensures InRange(current) && IsRetreatKey(key) ==> r == MoveTo(current, Clamp(current - 1))
    ensures IsJumpKey(key) ==> r == Some(SceneCount)
    ensures !IsAdvanceKey(key, onBody) && !IsRetreatKey(key) && !IsJumpKey(key) ==> r == None
  {
    if IsAdvanceKey(key, onBody) then
      (if current < 3 then Some(current + 1) else None)
    else if IsRetreatKey(key) then
      (if current > 1 then Some(current - 1) else None)
    else if IsJumpKey(key) then
      Some(3)
    else
      None
  }

  /** The keys whose default action (page scrolling) the listener cancels. */
  function PreventsDefault(key: string, onBody: bool): (r: bool)
    ensures r <==> key == "ArrowDown" || key == "ArrowUp" || (key == " " && onBody)
    ensures r ==> !IsJumpKey(key)
    ensures r <==> KeyTarget(key, onBody, 1) != KeyTarget(key, onBody, SceneCount)
    ensures forall c :: InRange(c) && KeyTarget(key, onBody, c).Some? && !r ==> IsJumpKey(key)
  {
    IsAdvanceKey(key, onBody) || IsRetreatKey(key)
  }
}
