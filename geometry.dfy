/**
 * Vectors, angles and clamping shared by the camera and the viewer.
 * Floating point is modelled by `real`; `sin` and `cos` are not interpreted
 * and reach the model as a `Trig` value supplied by the caller.
 */
module Geometry {

  /** The value of M_PI from <cmath>. */
  const Pi: real := 3.14159265358979323846

  datatype Vec2 = Vec2(x: real, y: real)
  datatype Vec3 = Vec3(x: real, y: real, z: real)

  /** The trigonometric functions the camera calls; left uninterpreted. */
  datatype Trig = Trig(sin: real -> real, cos: real -> real)

  function Add(a: Vec3, b: Vec3): Vec3 {
    Vec3(a.x + b.x, a.y + b.y, a.z + b.z)
  }

  /** Scalar times vector, `k * v` in glm. */
  function Mul(k: real, v: Vec3): Vec3 {
    Vec3(k * v.x, k * v.y, k * v.z)
  }

  function Dot(a: Vec3, b: Vec3): real {
    a.x * b.x + a.y * b.y + a.z * b.z
  }

  /** glm::cross. */
  function Cross(a: Vec3, b: Vec3): Vec3 {
    Vec3(a.y * b.z - a.z * b.y, a.z * b.x - a.x * b.z, a.x * b.y - a.y * b.x)
  }

  lemma CrossIsPerpendicular(a: Vec3, b: Vec3)
    ensures Dot(Cross(a, b), a) == 0.0 && Dot(Cross(a, b), b) == 0.0
  {
  }

  function Degrees(rad: real): real {
    rad * 180.0 / Pi
  }

  function Radians(deg: real): real {
    deg * Pi / 180.0
  }

  lemma DegreesRadians(deg: real, rad: real)
    ensures Degrees(Radians(deg)) == deg
    ensures Radians(Degrees(rad)) == rad
    ensures Radians(deg) == rad <==> Degrees(rad) == deg
  {
  }

  function Min(a: real, b: real): real {
    if a <= b then a else b
  }

  function Max(a: real, b: real): real {
    if a <= b then b else a
  }

  /**
   * The clamp the source writes out by hand: the upper bound is tested
   * first, then the lower one.
   */
  function Clamp(lo: real, hi: real, v: real): (r: real)
    requires lo <= hi
    ensures lo <= r <= hi
    ensures lo <= v <= hi ==> r == v
    ensures v >= hi ==> r == hi
    ensures v <= lo ==> r == lo
  {
    if v > hi then hi else if v < lo then lo else v
  }

  /** The sum of a sequence of increments. */
  function Sum(ds: seq<real>): real {
    if ds == [] then 0.0 else Sum(ds[..|ds| - 1]) + ds[|ds| - 1]
  }

  /**
   * Start at v and, for each increment d in turn, replace the value by
   * Clamp(lo, hi, value + d): the effect of calling a clamping update
   * repeatedly.
   */
  function ClampedWalk(lo: real, hi: real, v: real, ds: seq<real>): (r: real)
    requires lo <= hi
    ensures ds != [] ==> lo <= r <= hi
  {
    if ds == [] then v else Clamp(lo, hi, ClampedWalk(lo, hi, v, ds[..|ds| - 1]) + ds[|ds| - 1])
  }

  /** Non-negative increments push the walk at least as far as their sum, up to the top. */
  lemma {:induction false} WalkRises(lo: real, hi: real, v: real, ds: seq<real>)
    requires lo <= hi
    requires forall k :: 0 <= k < |ds| ==> ds[k] >= 0.0
    ensures ClampedWalk(lo, hi, v, ds) >= Min(hi, v + Sum(ds))
  {
    if ds != [] {
      var init := ds[..|ds| - 1];
      WalkRises(lo, hi, v, init);
    }
  }

  /** Non-positive increments pull the walk at least as far as their sum, down to the bottom. */
  lemma {:induction false} WalkFalls(lo: real, hi: real, v: real, ds: seq<real>)
    requires lo <= hi
    requires forall k :: 0 <= k < |ds| ==> ds[k] <= 0.0
    ensures ClampedWalk(lo, hi, v, ds) <= Max(lo, v + Sum(ds))
  {
    if ds != [] {
      var init := ds[..|ds| - 1];
      WalkFalls(lo, hi, v, init);
    }
  }

  /** Enough non-negative increments leave the walk exactly at the top. */
  lemma WalkSaturatesHigh(lo: real, hi: real, v: real, ds: seq<real>)
    requires lo <= hi && ds != []
    requires forall k :: 0 <= k < |ds| ==> ds[k] >= 0.0
    requires v + Sum(ds) >= hi
    ensures ClampedWalk(lo, hi, v, ds) == hi
  {
    WalkRises(lo, hi, v, ds);
  }

  /** Enough non-positive increments leave the walk exactly at the bottom. */
  lemma WalkSaturatesLow(lo: real, hi: real, v: real, ds: seq<real>)
    requires lo <= hi && ds != []
    requires forall k :: 0 <= k < |ds| ==> ds[k] <= 0.0
    requires v + Sum(ds) <= lo
    ensures ClampedWalk(lo, hi, v, ds) == lo
  {
    WalkFalls(lo, hi, v, ds);
  }
}
