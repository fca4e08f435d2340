/**
  The two input callbacks with logic of their own: the scroll wheel's field
  of view and the mouse's yaw and pitch. Both are modelled over the reals;
  the camera's front vector (trigonometry) is left out.
*/
module Input {

  const WINDOW_WIDTH: real := 1280.0
  const WINDOW_HEIGHT: real := 720.0

  const FOV_MIN: real := 1.0
  const FOV_MAX: real := 45.0
  const PITCH_LIMIT: real := 89.0
  const SENSITIVITY: real := 0.1

  /** `x` is the point of [lo, hi] nearest to `target`: the clamp, stated
      without reference to how it is computed. */
  ghost predicate Nearest(x: real, target: real, lo: real, hi: real) {
    && lo <= x <= hi
    && forall y | lo <= y <= hi :: Distance(x, target) <= Distance(y, target)
  }

  function Distance(a: real, b: real): real {
    if a < b then b - a else a - b
  }

  // ---- scroll ---------------------------------------------------------------------------------

  /** `ScrollCallback`: the wheel offset is taken off the field of view,
      which is then raised to 1 and lowered to 45. */
  function Scroll(fov: real, yoffset: real): (r: real)
    ensures Nearest(r, fov - yoffset, FOV_MIN, FOV_MAX)
  {
    var f := fov - yoffset;
    var raised := if f < FOV_MIN then FOV_MIN else f;
    if raised > FOV_MAX then FOV_MAX else raised
  }

  /** The field of view after a run of scroll events, in order. */
  function ScrollAll(fov: real, offsets: seq<real>): real
    decreases |offsets|
  {
    if offsets == [] then fov else ScrollAll(Scroll(fov, offsets[0]), offsets[1..])
  }

  /** Starting from the initial 45 degrees, the field of view stays within
      [1, 45] whatever the wheel does. */
  lemma {:induction false} ScrollAllStaysInRange(fov: real, offsets: seq<real>)
    requires FOV_MIN <= fov <= FOV_MAX
    ensures FOV_MIN <= ScrollAll(fov, offsets) <= FOV_MAX
    decreases |offsets|
  {
    if offsets != [] {
      ScrollAllStaysInRange(Scroll(fov, offsets[0]), offsets[1..]);
    }
  }

  /** A scroll that stays inside the range moves the field of view by
      exactly the offset; one that would leave it stops at the bound. */
  lemma ScrollInsideRange(fov: real, yoffset: real)
    ensures FOV_MIN <= fov - yoffset <= FOV_MAX ==> Scroll(fov, yoffset) == fov - yoffset
    ensures fov - yoffset < FOV_MIN ==> Scroll(fov, yoffset) == FOV_MIN
    ensures fov - yoffset > FOV_MAX ==> Scroll(fov, yoffset) == FOV_MAX
  {
    NearestIsUnique(Scroll(fov, yoffset), fov - yoffset, FOV_MIN, FOV_MAX);
  }

  /** Only one point of a non-empty interval is nearest to a target: the
      target itself when it is inside, otherwise the bound it passed. */
  lemma NearestIsUnique(x: real, target: real, lo: real, hi: real)
    requires lo <= hi && Nearest(x, target, lo, hi)
    ensures lo <= target <= hi ==> x == target
    ensures target < lo ==> x == lo
    ensures target > hi ==> x == hi
  {
    if lo <= target <= hi {
      assert Distance(x, target) <= Distance(target, target);
    } else if target < lo {
      assert Distance(x, target) <= Distance(lo, target);
    } else {
      assert Distance(x, target) <= Distance(hi, target);
    }
  }

  // ---- mouse look -----------------------------------------------------------------------------

  /** The globals the mouse callback reads and writes. */
  datatype Look = Look(firstMouse: bool, yaw: real, pitch: real, lastX: real, lastY: real)

  /** The globals' initial values: yaw -90 (looking down -Z), level pitch,
      the cursor assumed at the window's centre. */
  function InitialLook(): (l: Look)
    ensures l.firstMouse && -PITCH_LIMIT <= l.pitch <= PITCH_LIMIT
  {
    Look(true, -90.0, 0.0, WINDOW_WIDTH / 2.0, WINDOW_HEIGHT / 2.0)
  }

  /** `MouseCallback` for a cursor at (xpos, ypos), `zHeld` standing for the
      Z-key query. With Z held nothing changes. Otherwise the first event
      only records the position; every event turns by a tenth of the cursor
      travel since the last recorded position (upward travel raising the
      pitch) and the pitch is then held within [-89, 89]. */
  function Mouse(l: Look, zHeld: bool, xpos: real, ypos: real): (r: Look)
    ensures zHeld ==> r == l
    ensures !zHeld ==> !r.firstMouse && r.lastX == xpos && r.lastY == ypos
    ensures !zHeld ==> -PITCH_LIMIT <= r.pitch <= PITCH_LIMIT
    ensures !zHeld ==> Nearest(r.pitch, l.pitch + (if l.firstMouse then 0.0 else (l.lastY - ypos) * SENSITIVITY),
                               -PITCH_LIMIT, PITCH_LIMIT)
    ensures !zHeld && l.firstMouse ==> r.yaw == l.yaw
    ensures !zHeld && !l.firstMouse ==> r.yaw - l.yaw == (xpos - l.lastX) * SENSITIVITY
  {
    if zHeld then l
    else
      var lastX := if l.firstMouse then xpos else l.lastX;
      var lastY := if l.firstMouse then ypos else l.lastY;
      var xoffset := (xpos - lastX) * SENSITIVITY;
      var yoffset := (lastY - ypos) * SENSITIVITY;
      var pitch := l.pitch + yoffset;
      var lowered := if pitch > PITCH_LIMIT then PITCH_LIMIT else pitch;
      var raised := if lowered < -PITCH_LIMIT then -PITCH_LIMIT else lowered;
      Look(false, l.yaw + xoffset, raised, xpos, ypos)
  }

  /** One cursor event: whether Z was held, and the cursor position. */
  datatype Cursor = Cursor(zHeld: bool, x: real, y: real)

  function MouseAll(l: Look, events: seq<Cursor>): Look
    decreases |events|
  {
    if events == [] then l
    else MouseAll(Mouse(l, events[0].zHeld, events[0].x, events[0].y), events[1..])
  }

  /** From the initial globals, the pitch stays within [-89, 89] over any
      run of cursor events, so the view never flips. */
  lemma {:induction false} MouseAllKeepsPitch(l: Look, events: seq<Cursor>)
    requires -PITCH_LIMIT <= l.pitch <= PITCH_LIMIT
    ensures -PITCH_LIMIT <= MouseAll(l, events).pitch <= PITCH_LIMIT
    decreases |events|
  {
    if events != [] {
      MouseAllKeepsPitch(Mouse(l, events[0].zHeld, events[0].x, events[0].y), events[1..]);
    }
  }

  /** The first event that is not ignored turns the camera by nothing: the
      initial view is kept until the cursor moves again. */
  lemma FirstMoveKeepsView(xpos: real, ypos: real)
    ensures var r := Mouse(InitialLook(), false, xpos, ypos);
            r.yaw == InitialLook().yaw && r.pitch == InitialLook().pitch
  {
    var r := Mouse(InitialLook(), false, xpos, ypos);
    NearestIsUnique(r.pitch, InitialLook().pitch, -PITCH_LIMIT, PITCH_LIMIT);
  }
}
