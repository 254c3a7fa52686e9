/**
 * The free-look camera of src/Camera.cpp: pointer and keyboard input update
 * its orientation, position and field of view in place, and it multiplies
 * its projection and view transforms onto caller-supplied matrix stacks.
 */
module Cameras {
  import opened Geometry
  import opened Transforms

  /** The interaction modes a click selects: Camera::ROTATE, TRANSLATE and SCALE. */
  datatype Mode = Rotate | Translate | Scale

  /** World up, the second argument of the cross product and of glm::lookAt. */
  const Up: Vec3 := Vec3(0.0, 1.0, 0.0)

  /** Horizontal forward direction for a yaw angle; pitch plays no part. */
  function Forward(trig: Trig, yaw: real): Vec3 {
    Vec3(trig.sin(yaw), 0.0, trig.cos(yaw))
  }

  /** The sideways direction moveSide follows: forward crossed with world up. */
  function Side(trig: Trig, yaw: real): (r: Vec3)
    ensures r == Vec3(-trig.cos(yaw), 0.0, trig.sin(yaw))
    ensures Dot(r, Forward(trig, yaw)) == 0.0 && Dot(r, Up) == 0.0
  {
    CrossIsPerpendicular(Forward(trig, yaw), Up);
    Cross(Forward(trig, yaw), Up)
  }

  /** Field of view (radians) after zoom(change): the value in degrees moves by change and is clamped to [4, 114]. */
  function ZoomedFovy(fovy: real, change: real): (r: real)
    ensures 4.0 <= Degrees(r) <= 114.0
    ensures 4.0 <= Degrees(fovy) + change <= 114.0 ==> Degrees(r) == Degrees(fovy) + change
    ensures Degrees(fovy) + change >= 114.0 ==> r == Radians(114.0)
    ensures Degrees(fovy) + change <= 4.0 ==> r == Radians(4.0)
  {
    DegreesRadians(Clamp(4.0, 114.0, Degrees(fovy) + change), 0.0);
    Radians(Clamp(4.0, 114.0, Degrees(fovy) + change))
  }

  /** Field of view after zoom(changes[0]), zoom(changes[1]), ... in that order. */
  function ZoomedRepeatedly(fovy: real, changes: seq<real>): real {
    if changes == [] then fovy
    else ZoomedFovy(ZoomedRepeatedly(fovy, changes[..|changes| - 1]), changes[|changes| - 1])
  }

  /** In degrees, repeated zooming is a clamped walk over the changes. */
  lemma {:induction false} ZoomedRepeatedlyWalks(fovy: real, changes: seq<real>)
    ensures Degrees(ZoomedRepeatedly(fovy, changes)) == ClampedWalk(4.0, 114.0, Degrees(fovy), changes)
  {
    if changes != [] {
      var init := changes[..|changes| - 1];
      ZoomedRepeatedlyWalks(fovy, init);
      DegreesRadians(Clamp(4.0, 114.0, Degrees(ZoomedRepeatedly(fovy, init)) + changes[|changes| - 1]), 0.0);
    }
  }

  /** Zooming out far enough, in steps of any size, saturates at 114 degrees. */
  lemma RepeatedZoomOutSaturates(fovy: real, changes: seq<real>)
    requires changes != []
    requires forall k :: 0 <= k < |changes| ==> changes[k] >= 0.0
    requires Degrees(fovy) + Sum(changes) >= 114.0
    ensures ZoomedRepeatedly(fovy, changes) == Radians(114.0)
  {
    ZoomedRepeatedlyWalks(fovy, changes);
    WalkSaturatesHigh(4.0, 114.0, Degrees(fovy), changes);
    DegreesRadians(114.0, ZoomedRepeatedly(fovy, changes));
  }

  /** Zooming in far enough, in steps of any size, saturates at 4 degrees. */
  lemma RepeatedZoomInSaturates(fovy: real, changes: seq<real>)
    requires changes != []
    requires forall k :: 0 <= k < |changes| ==> changes[k] <= 0.0
    requires Degrees(fovy) + Sum(changes) <= 4.0
    ensures ZoomedRepeatedly(fovy, changes) == Radians(4.0)
  {
    ZoomedRepeatedlyWalks(fovy, changes);
    WalkSaturatesLow(4.0, 114.0, Degrees(fovy), changes);
    DegreesRadians(4.0, ZoomedRepeatedly(fovy, changes));
  }

  /** Pitch after mouseMoved calls whose vertical pointer deltas are dys, in order. */
  function PitchAfterMoves(pitch: real, dys: seq<real>): real {
    if dys == [] then pitch
    else Clamp(-1.0, 1.0, PitchAfterMoves(pitch, dys[..|dys| - 1]) + 0.01 * dys[|dys| - 1])
  }

  /** The increments mouseMoved adds to the pitch before clamping. */
  function PitchSteps(dys: seq<real>): (r: seq<real>)
    ensures |r| == |dys|
    ensures forall k :: 0 <= k < |dys| ==> r[k] == 0.01 * dys[k]
  {
    seq(|dys|, k requires 0 <= k < |dys| => 0.01 * dys[k])
  }

  /** Repeated pointer moves are a clamped walk of the pitch over 0.01 times each delta. */
  lemma {:induction false} PitchAfterMovesWalks(pitch: real, dys: seq<real>)
    ensures PitchAfterMoves(pitch, dys) == ClampedWalk(-1.0, 1.0, pitch, PitchSteps(dys))
    ensures Sum(PitchSteps(dys)) == 0.01 * Sum(dys)
  {
    if dys != [] {
      var init := dys[..|dys| - 1];
      PitchAfterMovesWalks(pitch, init);
      assert PitchSteps(dys)[..|dys| - 1] == PitchSteps(init);
    }
  }

  /** Driving the pointer far enough down (positive deltas) pins the pitch at 1. */
  lemma PitchSaturatesUp(pitch: real, dys: seq<real>)
    requires dys != []
    requires forall k :: 0 <= k < |dys| ==> dys[k] >= 0.0
    requires pitch + 0.01 * Sum(dys) >= 1.0
    ensures PitchAfterMoves(pitch, dys) == 1.0
  {
    PitchAfterMovesWalks(pitch, dys);
    WalkSaturatesHigh(-1.0, 1.0, pitch, PitchSteps(dys));
  }

  /** Driving the pointer far enough the other way pins the pitch at -1. */
  lemma PitchSaturatesDown(pitch: real, dys: seq<real>)
    requires dys != []
    requires forall k :: 0 <= k < |dys| ==> dys[k] <= 0.0
    requires pitch + 0.01 * Sum(dys) <= -1.0
    ensures PitchAfterMoves(pitch, dys) == -1.0
  {
    PitchAfterMovesWalks(pitch, dys);
    WalkSaturatesLow(-1.0, 1.0, pitch, PitchSteps(dys));
  }

  /**
   * The vertical deltas mouseMoved computes when the cursor callback reports
   * the positions of path in order, the previous position starting at y0.
   */
  function CursorDeltas(y0: real, path: seq<Vec2>): (r: seq<real>)
    ensures |r| == |path|
    ensures path != [] ==> r[0] == path[0].y - y0
    ensures forall k :: 0 < k < |path| ==> r[k] == path[k].y - path[k - 1].y
  {
    seq(|path|, k requires 0 <= k < |path| => path[k].y - (if k == 0 then y0 else path[k - 1].y))
  }

  /** The deltas telescope: they add up to the cursor's total vertical travel. */
  lemma {:induction false} CursorDeltasTelescope(y0: real, path: seq<Vec2>)
    ensures Sum(CursorDeltas(y0, path)) == if path == [] then 0.0 else path[|path| - 1].y - y0
  {
    if path != [] {
      var init := path[..|path| - 1];
      var ds, front := CursorDeltas(y0, path), CursorDeltas(y0, init);
      CursorDeltasTelescope(y0, init);
      assert ds[..|ds| - 1] == front by {
        forall k | 0 <= k < |front| ensures ds[k] == front[k] {}
      }
    }
  }

  /**
   * A cursor that keeps moving down from y0 (non-decreasing y) far enough to
   * carry the unclamped pitch to 1 leaves the pitch exactly 1.
   */
  lemma CursorDragSaturatesUp(pitch: real, y0: real, path: seq<Vec2>)
    requires path != [] && y0 <= path[0].y
    requires forall k :: 0 < k < |path| ==> path[k - 1].y <= path[k].y
    requires pitch + 0.01 * (path[|path| - 1].y - y0) >= 1.0
    ensures PitchAfterMoves(pitch, CursorDeltas(y0, path)) == 1.0
  {
    CursorDeltasTelescope(y0, path);
    PitchSaturatesUp(pitch, CursorDeltas(y0, path));
  }

  /** The mirror image: a cursor that keeps moving up far enough pins the pitch at -1. */
  lemma CursorDragSaturatesDown(pitch: real, y0: real, path: seq<Vec2>)
    requires path != [] && path[0].y <= y0
    requires forall k :: 0 < k < |path| ==> path[k].y <= path[k - 1].y
    requires pitch + 0.01 * (path[|path| - 1].y - y0) <= -1.0
    ensures PitchAfterMoves(pitch, CursorDeltas(y0, path)) == -1.0
  {
    CursorDeltasTelescope(y0, path);
    PitchSaturatesDown(pitch, CursorDeltas(y0, path));
  }

  class Camera {
    var aspect: real
    var fovy: real  // vertical field of view, radians
    var znear: real
    var zfar: real
    var worldPos: Vec3
    var yaw: real
    var pitch: real
    var mousePrev: Vec2
    var state: Mode

    /** The bounds the input handlers keep. */
    ghost predicate Valid()
      reads this
    {
      -1.0 <= pitch <= 1.0 && 4.0 <= Degrees(fovy) <= 114.0 && 0.0 < znear < zfar
    }

    /** The projection transform applyProjectionMatrix multiplies on. */
    function Projection(): Transform
      reads this
    {
      Perspective(fovy, aspect, znear, zfar)
    }

    /**
     * The view transform applyViewMatrix multiplies on: look from worldPos
     * along (sin yaw, sin pitch, cos yaw), which is not normalised.
     */
    function View(trig: Trig): Transform
      reads this
    {
      LookAt(worldPos, Add(worldPos, Vec3(trig.sin(yaw), trig.sin(pitch), trig.cos(yaw))), Up)
    }

    /** mousePrev and state are not initialised here. */
    constructor ()
      ensures aspect == 1.0 && fovy == Radians(45.0) && znear == 0.1 && zfar == 1000.0
      ensures worldPos == Vec3(1.0, 2.0, 1.0) && yaw == 0.0 && pitch == 0.0
      ensures Valid()
    {
      aspect := 1.0;
      fovy := 45.0 * Pi / 180.0;
      znear := 0.1;
      zfar := 1000.0;
      worldPos := Vec3(1.0, 2.0, 1.0);
      yaw := 0.0;
      pitch := 0.0;
      DegreesRadians(45.0, 0.0);
    }

    /** Records the click position and picks the mode: shift before ctrl before the default; alt is ignored. */
    method MouseClicked(x: real, y: real, shift: bool, ctrl: bool, alt: bool)
      modifies this`mousePrev, this`state
      ensures mousePrev == Vec2(x, y)
      ensures state == Translate <==> shift
      ensures state == Scale <==> !shift && ctrl
      ensures state == Rotate <==> !shift && !ctrl
      ensures old(Valid()) ==> Valid()
    {
      mousePrev := Vec2(x, y);
      if shift {
        state := Translate;
      } else if ctrl {
        state := Scale;
      } else {
        state := Rotate;
      }
    }

    /** Turns by the pointer delta (0.01 per unit), clamps the pitch and always records the position. */
    method MouseMoved(x: real, y: real)
      modifies this`yaw, this`pitch, this`mousePrev
      ensures yaw == old(yaw) + 0.01 * (x - old(mousePrev).x)
      ensures pitch == Clamp(-1.0, 1.0, old(pitch) + 0.01 * (y - old(mousePrev).y))
      ensures -1.0 <= pitch <= 1.0
      ensures mousePrev == Vec2(x, y)
      ensures old(Valid()) ==> Valid()
    {
      var mouseCurr := Vec2(x, y);
      var dv := Vec2(mouseCurr.x - mousePrev.x, mouseCurr.y - mousePrev.y);
      yaw := yaw + 0.01 * dv.x;
      pitch := pitch + 0.01 * dv.y;
      if pitch > 1.0 {
        pitch := 1.0;
      } else if pitch < -1.0 {
        pitch := -1.0;
      }
      mousePrev := mouseCurr;
    }

    /**
     * The cursor callbacks of a drag through path, delivered one after another
     * by the event loop: yaw follows the total horizontal travel without bound,
     * and the pitch is the clamped walk over the successive vertical deltas.
     */
    method FollowCursor(path: seq<Vec2>)
      modifies this`yaw, this`pitch, this`mousePrev
      ensures pitch == PitchAfterMoves(old(pitch), CursorDeltas(old(mousePrev).y, path))
      ensures yaw == old(yaw) + 0.01 * (mousePrev.x - old(mousePrev).x)
      ensures mousePrev == if path == [] then old(mousePrev) else path[|path| - 1]
      ensures old(Valid()) ==> Valid()
    {
      ghost var y0 := mousePrev.y;
      var i := 0;
      while i < |path|
        invariant 0 <= i <= |path|
        invariant pitch == PitchAfterMoves(old(pitch), CursorDeltas(y0, path[..i]))
        invariant yaw == old(yaw) + 0.01 * (mousePrev.x - old(mousePrev).x)
        invariant mousePrev == if i == 0 then old(mousePrev) else path[i - 1]
        invariant old(Valid()) ==> Valid()
      {
        ghost var ds, front := CursorDeltas(y0, path[..i + 1]), CursorDeltas(y0, path[..i]);
        assert ds[..i] == front by {
          forall k | 0 <= k < i ensures ds[k] == front[k] {}
        }
        assert ds[i] == path[i].y - mousePrev.y;
        MouseMoved(path[i].x, path[i].y);
        i := i + 1;
      }
      assert path[..|path|] == path;
    }

    /** Moves along the horizontal forward direction. */
    method MoveDir(change: real, trig: Trig)
      modifies this`worldPos
      ensures worldPos == Add(old(worldPos), Mul(change, Forward(trig, yaw)))
      ensures worldPos.y == old(worldPos).y
      ensures old(Valid()) ==> Valid()
    {
      var forward := Vec3(trig.sin(yaw), 0.0, trig.cos(yaw));
      worldPos := Add(worldPos, Mul(change, forward));
    }

    /** Strafes along forward x up, which is (-cos yaw, 0, sin yaw). */
    method MoveSide(change: real, trig: Trig)
      modifies this`worldPos
      ensures worldPos == Add(old(worldPos), Mul(change, Side(trig, yaw)))
      ensures worldPos == Add(old(worldPos), Mul(change, Vec3(-trig.cos(yaw), 0.0, trig.sin(yaw))))
      ensures worldPos.y == old(worldPos).y
      ensures old(Valid()) ==> Valid()
    {
      var forward := Vec3(trig.sin(yaw), 0.0, trig.cos(yaw));
      var crossed := Cross(forward, Vec3(0.0, 1.0, 0.0));
      worldPos := Add(worldPos, Mul(change, crossed));
    }

    /** Widens the field of view by change degrees, clamped to [4, 114] degrees. */
    method Zoom(change: real)
      modifies this`fovy
      ensures fovy == ZoomedFovy(old(fovy), change)
      ensures 4.0 <= Degrees(fovy) <= 114.0
      ensures old(Valid()) ==> Valid()
    {
      var fovyDeg := (fovy * 180.0) / Pi;
      fovyDeg := fovyDeg + change;
      if fovyDeg > 114.0 {
        fovyDeg := 114.0;
      } else if fovyDeg < 4.0 {
        fovyDeg := 4.0;
      }
      fovy := (fovyDeg * Pi) / 180.0;
    }

    /** Multiplies the perspective transform onto P; a const member, so the camera is unchanged. */
    method ApplyProjectionMatrix(P: MatrixStack)
      requires |P.stack| > 0
      modifies P
      ensures P.stack == old(P.stack)[..|old(P.stack)| - 1] + [Then(old(P.Top()), Projection())]
      ensures unchanged(this)
    {
      P.MultMatrix(Perspective(fovy, aspect, znear, zfar));
    }

    /** Multiplies the look-at transform onto MV; a const member, so the camera is unchanged. */
    method ApplyViewMatrix(MV: MatrixStack, trig: Trig)
      requires |MV.stack| > 0
      modifies MV
      ensures MV.stack == old(MV.stack)[..|old(MV.stack)| - 1] + [Then(old(MV.Top()), View(trig))]
      ensures unchanged(this)
    {
      var forward := Vec3(trig.sin(yaw), trig.sin(pitch), trig.cos(yaw));
      MV.MultMatrix(LookAt(worldPos, Add(worldPos, forward), Vec3(0.0, 1.0, 0.0)));
    }
  }
}
