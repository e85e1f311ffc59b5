/** Values shared by the 3D scene: points and Euler rotations, and the trigonometry the
    scene is computed with. */
module SceneMath {

  /** A point, or an Euler rotation (x, y, z in radians). */
  datatype Vec3 = Vec3(x: real, y: real, z: real)

  const Origin: Vec3 := Vec3(0.0, 0.0, 0.0)

  /** `Math.sin`, `Math.cos` and `Math.PI`.  The model is parametric in them; a lemma that
      needs one of their laws says so through `Bounded` or `Laws`. */
  datatype Trig = Trig(sin: real -> real, cos: real -> real, pi: real) {

    /** Sine and cosine never leave [-1, 1]. */
    ghost predicate Bounded()
    {
      forall a :: -1.0 <= sin(a) <= 1.0 && -1.0 <= cos(a) <= 1.0
    }

    /** The laws of the real sine and cosine that the scene's properties rest on. */
    ghost predicate Laws()
    {
      && Bounded()
      && pi > 0.0
      && sin(0.0) == 0.0 && cos(0.0) == 1.0
      && sin(pi) == 0.0 && cos(pi / 2.0) == 0.0
      && (forall a :: sin(a + pi) == -sin(a) && cos(a + pi) == -cos(a))
      && (forall a :: sin(a) * sin(a) + cos(a) * cos(a) == 1.0)
    }
  }

  /** The squared distance between two points. */
  function DistSq(p: Vec3, q: Vec3): (d: real)
    ensures d >= 0.0
    ensures p == q ==> d == 0.0
  {
    (p.x - q.x) * (p.x - q.x) + (p.y - q.y) * (p.y - q.y) + (p.z - q.z) * (p.z - q.z)
  }
}
