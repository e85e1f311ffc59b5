/** The animated bodies of the scene other than the helix: the floating pills, the
    molecules, the glass orbs, and the group that turns the whole arrangement. */
module Bodies {
  import opened SceneMath

  /** The pill's tilt about x: its base tilt plus up to 0.3 either way. */
  function PillTiltX(trig: Trig, baseX: real, time: real): (r: real)
    ensures trig.Bounded() ==> baseX - 0.3 <= r <= baseX + 0.3
  {
    trig.sin(time * 0.5) * 0.3 + baseX
  }

  /** The pill's tilt about z: its base tilt plus up to 0.2 either way. */
  function PillTiltZ(trig: Trig, baseZ: real, time: real): (r: real)
    ensures trig.Bounded() ==> baseZ - 0.2 <= r <= baseZ + 0.2
  {
    trig.cos(time * 0.3) * 0.2 + baseZ
  }

  /** The pill's height: its base height plus a bob of up to 0.3 either way. */
  function PillBobY(trig: Trig, baseY: real, time: real): (r: real)
    ensures trig.Bounded() ==> baseY - 0.3 <= r <= baseY + 0.3
  {
    baseY + trig.sin(time * 0.4) * 0.3
  }

  /** A pill's private clock after a frame of `delta` seconds at rate `speed`. */
  function PillClock(time: real, delta: real, speed: real): (r: real)
    ensures speed == 0.0 || delta == 0.0 ==> r == time
    ensures delta >= 0.0 && speed > 0.0 ==> r >= time
    ensures delta > 0.0 && speed > 0.0 ==> r > time
  {
    time + delta * speed
  }

  /** A floating pill.  Its clock starts at a random phase in [0, 100) so that the pills do
      not move in step; each frame advances the clock by delta * speed and sets the pill's
      tilt about x and z and its height from it.  Nothing else about the pill moves. */
  class Pill {
    const basePosition: Vec3
    const baseRotation: Vec3
    const speed: real
    var time: real
    var position: Vec3
    var rotation: Vec3

    /** The pill stays put horizontally, keeps its base turn about y and bobs within 0.3
        of its base height. */
    ghost predicate Valid()
      reads this
    {
      && position.x == basePosition.x && position.z == basePosition.z
      && basePosition.y - 0.3 <= position.y <= basePosition.y + 0.3
      && rotation.y == baseRotation.y
    }

    /** `phase` stands for `Math.random() * 100`. */
    constructor (position: Vec3, rotation: Vec3, speed: real, phase: real)
      requires 0.0 <= phase < 100.0
      ensures Valid()
      ensures basePosition == position && baseRotation == rotation && this.speed == speed
      ensures this.position == position && this.rotation == rotation && time == phase
    {
      basePosition, baseRotation, this.speed := position, rotation, speed;
      this.position, this.rotation := position, rotation;
      time := phase;
    }

    method Frame(trig: Trig, delta: real)
      requires Valid() && trig.Bounded()
      modifies this
      ensures Valid()
      ensures time == PillClock(old(time), delta, speed)
      ensures rotation == old(rotation).(x := PillTiltX(trig, baseRotation.x, time),
                                         z := PillTiltZ(trig, baseRotation.z, time))
      ensures position == old(position).(y := PillBobY(trig, basePosition.y, time))
    {
      time := time + delta * speed;
      rotation := rotation.(x := trig.sin(time * 0.5) * 0.3 + baseRotation.x);
      rotation := rotation.(z := trig.cos(time * 0.3) * 0.2 + baseRotation.z);
      position := position.(y := basePosition.y + trig.sin(time * 0.4) * 0.3);
    }
  }

  /** A molecule tumbles about x and y at fixed rates of the scene clock. */
  class Molecule {
    const basePosition: Vec3
    var rotation: Vec3

    constructor (position: Vec3)
      ensures basePosition == position && rotation == Origin
    {
      basePosition := position;
      rotation := Origin;
    }

    method Frame(elapsed: real)
      modifies this
      ensures rotation == old(rotation).(x := elapsed * 0.3, y := elapsed * 0.2)
    {
      rotation := rotation.(x := elapsed * 0.3);
      rotation := rotation.(y := elapsed * 0.2);
    }
  }

  /** A glass orb's height: its base height plus a bob of up to 0.2 either way, starting
      at the base height when the clock starts. */
  function OrbBobY(trig: Trig, baseY: real, elapsed: real): (r: real)
    ensures trig.Bounded() ==> baseY - 0.2 <= r <= baseY + 0.2
    ensures trig.Laws() && elapsed == 0.0 ==> r == baseY
  {
    baseY + trig.sin(elapsed * 0.5) * 0.2
  }

  /** A glass orb bobs about its base height; its x and z stay put. */
  class GlassOrb {
    const basePosition: Vec3
    var position: Vec3

    ghost predicate Valid()
      reads this
    {
      && position.x == basePosition.x && position.z == basePosition.z
      && basePosition.y - 0.2 <= position.y <= basePosition.y + 0.2
    }

    constructor (position: Vec3)
      ensures Valid() && basePosition == position && this.position == position
    {
      basePosition := position;
      this.position := position;
    }

    method Frame(trig: Trig, elapsed: real)
      requires Valid() && trig.Bounded()
      modifies this
      ensures Valid()
      ensures position == old(position).(y := OrbBobY(trig, basePosition.y, elapsed))
    {
      position := position.(y := basePosition.y + trig.sin(elapsed * 0.5) * 0.2);
    }
  }

  /** The turn of the whole arrangement about y: a slow spin with the clock plus up to a
      quarter turn as the page is scrolled from top to bottom. */
  function GroupSpin(trig: Trig, elapsed: real, scrollProgress: real): (r: real)
    ensures scrollProgress == 0.0 ==> r == elapsed * 0.05
    ensures trig.pi > 0.0 && 0.0 <= scrollProgress <= 1.0 ==>
              elapsed * 0.05 <= r <= elapsed * 0.05 + trig.pi / 2.0
  {
    var offset := scrollProgress * trig.pi * 0.5;
    assert trig.pi > 0.0 && 0.0 <= scrollProgress <= 1.0 ==> 0.0 <= offset <= trig.pi / 2.0 by {
      if trig.pi > 0.0 && 0.0 <= scrollProgress <= 1.0 {
        assert scrollProgress * trig.pi <= 1.0 * trig.pi;
      }
    }
    elapsed * 0.05 + offset
  }

  /** The group holding the helix, pills, molecules and orbs. */
  class SceneGroup {
    var rotation: Vec3

    constructor ()
      ensures rotation == Origin
    {
      rotation := Origin;
    }

    method Frame(trig: Trig, elapsed: real, scrollProgress: real)
      modifies this
      ensures rotation == old(rotation).(y := GroupSpin(trig, elapsed, scrollProgress))
    {
      rotation := rotation.(y := elapsed * 0.05 + scrollProgress * trig.pi * 0.5);
    }
  }
}
