/** The camera controller: the scroll position of the page drives a target point that
    pulls the camera in from z = 14 to z = 8, swings it out to the side and back, and
    lowers it; every frame the camera moves 2% of the way to that target. */
module CameraControl {
  import opened Wrappers
  import opened SceneMath
  import opened Easing

  /** The fraction of the remaining way the camera moves each frame. */
  const Damping: real := 0.02
  /** Where the canvas places the camera. */
  const StartPosition: Vec3 := Vec3(0.0, 0.0, 14.0)

  function Max(a: real, b: real): real { if a >= b then a else b }
  function Min(a: real, b: real): real { if a <= b then a else b }

  /** `Math.max(0, Math.min(1, scrollProgress || 0))`: a missing or zero progress reads as
      0, and the rest is clamped to [0, 1]. */
  function ClampProgress(scrollProgress: Option<real>): (p: real)
    ensures 0.0 <= p <= 1.0
    ensures scrollProgress.None? ==> p == 0.0
    ensures scrollProgress.Some? && scrollProgress.value <= 0.0 ==> p == 0.0
    ensures scrollProgress.Some? && scrollProgress.value >= 1.0 ==> p == 1.0
    ensures scrollProgress.Some? && 0.0 <= scrollProgress.value <= 1.0 ==> p == scrollProgress.value
  {
    var v := if scrollProgress.Some? && scrollProgress.value != 0.0 then scrollProgress.value else 0.0;
    Max(0.0, Min(1.0, v))
  }

  /** Depth of the target: 14 at the top of the page, 8 at the bottom. */
  function TargetZ(p: real): (z: real)
    ensures 0.0 <= p <= 1.0 ==> 8.0 <= z <= 14.0
    ensures p == 0.0 ==> z == 14.0
    ensures p == 1.0 ==> z == 8.0
  {
    14.0 - p * 6.0
  }

  /** Sideways offset of the target: swings out and comes back as the page is scrolled. */
  function TargetX(trig: Trig, p: real): (x: real)
    ensures trig.Bounded() ==> -5.0 <= x <= 5.0
    ensures trig.Laws() && (p == 0.0 || p == 1.0) ==> x == 0.0
  {
    assert trig.Laws() && p == 1.0 ==> trig.sin(p * trig.pi) == 0.0 by {
      if p == 1.0 { assert p * trig.pi == trig.pi; }
    }
    trig.sin(p * trig.pi) * 5.0
  }

  /** Height of the target: 2 at the top of the page, falling to 0 at the bottom. */
  function TargetY(trig: Trig, p: real): (y: real)
    ensures trig.Bounded() ==> -2.0 <= y <= 2.0
    ensures trig.Laws() && p == 0.0 ==> y == 2.0
    ensures trig.Laws() && p == 1.0 ==> y == 0.0
  {
    assert trig.Laws() && p == 1.0 ==> trig.cos(p * trig.pi * 0.5) == 0.0 by {
      if p == 1.0 { assert p * trig.pi * 0.5 == trig.pi / 2.0; }
    }
    trig.cos(p * trig.pi * 0.5) * 2.0
  }

  /** The box every target lies in, for any scroll position. */
  ghost predicate InRange(v: Vec3)
  {
    -5.0 <= v.x <= 5.0 && -2.0 <= v.y <= 2.0 && 8.0 <= v.z <= 14.0
  }

  function Target(trig: Trig, scrollProgress: Option<real>): (t: Vec3)
    ensures trig.Bounded() ==> InRange(t)
  {
    var p := ClampProgress(scrollProgress);
    Vec3(TargetX(trig, p), TargetY(trig, p), TargetZ(p))
  }

  /** At the top of the page the target is straight ahead of the origin at depth 14
      and height 2; at the bottom it is 8 in front of the origin. */
  lemma TargetEnds(trig: Trig)
    requires trig.Laws()
    ensures Target(trig, None) == Vec3(0.0, 2.0, 14.0)
    ensures Target(trig, Some(0.0)) == Vec3(0.0, 2.0, 14.0)
    ensures Target(trig, Some(1.0)) == Vec3(0.0, 0.0, 8.0)
  {
  }

  /** The camera.  It always looks at the origin; only its position is state. */
  class Camera {
    var position: Vec3

    /** The camera never leaves the box its targets lie in. */
    ghost predicate Valid()
      reads this
    {
      InRange(position)
    }

    constructor ()
      ensures Valid() && position == StartPosition
    {
      position := StartPosition;
    }

    /** One frame: each coordinate moves 2% of the way to the current target. */
    method Frame(trig: Trig, scrollProgress: Option<real>)
      requires Valid() && trig.Bounded()
      modifies this
      ensures Valid()
      ensures var t := Target(trig, scrollProgress);
              position == Vec3(Ease(old(position).x, t.x, Damping),
                               Ease(old(position).y, t.y, Damping),
                               Ease(old(position).z, t.z, Damping))
    {
      var progress := ClampProgress(scrollProgress);
      var targetZ := TargetZ(progress);
      var targetX := TargetX(trig, progress);
      var targetY := TargetY(trig, progress);
      var t := Target(trig, scrollProgress);
      EaseStaysWithin(position.x, t.x, Damping, -5.0, 5.0);
      EaseStaysWithin(position.y, t.y, Damping, -2.0, 2.0);
      EaseStaysWithin(position.z, t.z, Damping, 8.0, 14.0);
      position := position.(x := position.x + (targetX - position.x) * 0.02);
      position := position.(y := position.y + (targetY - position.y) * 0.02);
      position := position.(z := position.z + (targetZ - position.z) * 0.02);
    }
  }

  /** One frame closes exactly 2% of the distance to the target on every axis, without
      overshooting; a camera already at its target stays there. */
  lemma FrameStep(pos: real, target: real)
    ensures Dist(Ease(pos, target, Damping), target) == 0.98 * Dist(pos, target)
    ensures pos <= target ==> pos <= Ease(pos, target, Damping) <= target
    ensures target <= pos ==> target <= Ease(pos, target, Damping) <= pos
    ensures pos == target ==> Ease(pos, target, Damping) == target
  {
    EaseNoOvershoot(pos, target, Damping);
  }
}
