/** Exponential easing toward a target: each step moves a coordinate the fraction `k`
    of the remaining way.  The camera uses it with k = 0.02 per frame, the custom cursor
    with k = 0.1 per animation frame. */
module Easing {

  /** The distance between two reals. */
  function Dist(a: real, b: real): (d: real)
    ensures d >= 0.0
    ensures d == 0.0 <==> a == b
  {
    if a >= b then a - b else b - a
  }

  /** One step `pos += (target - pos) * k`. */
  function Ease(pos: real, target: real, k: real): (r: real)
    ensures r - target == (1.0 - k) * (pos - target)
    ensures pos == target ==> r == target
  {
    pos + (target - pos) * k
  }

  /** For k in [0, 1] a step never overshoots: the result lies between the position and
      the target, and the distance shrinks by exactly the factor 1 - k. */
  lemma EaseNoOvershoot(pos: real, target: real, k: real)
    requires 0.0 <= k <= 1.0
    ensures pos <= target ==> pos <= Ease(pos, target, k) <= target
    ensures target <= pos ==> target <= Ease(pos, target, k) <= pos
    ensures Dist(Ease(pos, target, k), target) == (1.0 - k) * Dist(pos, target)
  {
    if pos <= target {
      EaseFromBelow(pos, target, k);
    } else {
      EaseFromAbove(pos, target, k);
    }
  }

  lemma EaseFromBelow(pos: real, target: real, k: real)
    requires 0.0 <= k <= 1.0 && pos <= target
    ensures pos <= Ease(pos, target, k) <= target
    ensures Dist(Ease(pos, target, k), target) == (1.0 - k) * (target - pos)
  {
    MulUnit(k, target - pos);
    assert Ease(pos, target, k) == pos + (target - pos) * k;
    assert (target - pos) * k <= target - pos;
  }

  lemma EaseFromAbove(pos: real, target: real, k: real)
    requires 0.0 <= k <= 1.0 && target < pos
    ensures target <= Ease(pos, target, k) <= pos
    ensures Dist(Ease(pos, target, k), target) == (1.0 - k) * (pos - target)
  {
    MulUnit(k, pos - target);
  }

  /** An eased coordinate stays in any interval that holds both it and its target. */
  lemma EaseStaysWithin(pos: real, target: real, k: real, lo: real, hi: real)
    requires 0.0 <= k <= 1.0
    requires lo <= pos <= hi && lo <= target <= hi
    ensures lo <= Ease(pos, target, k) <= hi
  {
    EaseNoOvershoot(pos, target, k);
  }

  /** b to the n-th power. */
  function Pow(b: real, n: nat): real
  {
    if n == 0 then 1.0 else b * Pow(b, n - 1)
  }

  /** Where a coordinate is after n steps toward a fixed target. */
  function EaseN(pos: real, target: real, k: real, n: nat): real
  {
    if n == 0 then pos else Ease(EaseN(pos, target, k, n - 1), target, k)
  }

  /** After n steps the offset from the target is the initial offset times (1 - k)^n. */
  lemma {:induction false} EaseNClosedForm(pos: real, target: real, k: real, n: nat)
    ensures EaseN(pos, target, k, n) - target == Pow(1.0 - k, n) * (pos - target)
  {
    if n > 0 {
      var b, d := 1.0 - k, pos - target;
      var prev := EaseN(pos, target, k, n - 1);
      var q := Pow(b, n - 1);
      EaseNClosedForm(pos, target, k, n - 1);
      assert EaseN(pos, target, k, n) - target == b * (prev - target);
      assert prev - target == q * d;
      MulAssoc(b, q, d);
      assert Pow(b, n) == b * q;
    }
  }

  lemma MulAssoc(a: real, b: real, c: real)
    ensures a * (b * c) == (a * b) * c
  {
  }

  /** Powers of a number in [0, 1] stay in [0, 1]. */
  lemma {:induction false} PowUnit(b: real, n: nat)
    requires 0.0 <= b <= 1.0
    ensures 0.0 <= Pow(b, n) <= 1.0
  {
    if n > 0 {
      PowUnit(b, n - 1);
      MulUnit(b, Pow(b, n - 1));
    }
  }

  lemma MulUnit(a: real, b: real)
    requires 0.0 <= a <= 1.0 && 0.0 <= b
    ensures 0.0 <= a * b <= b && 0.0 <= b * a <= b
  {
  }

  /** Bernoulli's bound in the form (1 - k)^n * (1 + n k) <= 1, for k in [0, 1]. */
  lemma {:induction false} PowBernoulli(k: real, n: nat)
    requires 0.0 <= k <= 1.0
    ensures Pow(1.0 - k, n) * (1.0 + n as real * k) <= 1.0
  {
    if n > 0 {
      var b, m := 1.0 - k, (n - 1) as real;
      PowBernoulli(k, n - 1);
      PowUnit(b, n - 1);
      var p := Pow(b, n - 1);
      // b * (1 + (m + 1) k) = 1 + m k - k^2 (m + 1) <= 1 + m k
      assert b * (1.0 + (m + 1.0) * k) <= 1.0 + m * k by {
        assert b * (1.0 + (m + 1.0) * k) == 1.0 + m * k - k * k * (m + 1.0);
        assert k * k * (m + 1.0) >= 0.0;
      }
      calc {
        Pow(b, n) * (1.0 + n as real * k);
        p * (b * (1.0 + (m + 1.0) * k));
      <= { MulLeftMono(p, b * (1.0 + (m + 1.0) * k), 1.0 + m * k); }
        p * (1.0 + m * k);
      <= 1.0;
      }
    }
  }

  lemma MulLeftMono(p: real, x: real, y: real)
    requires p >= 0.0 && x <= y
    ensures p * x <= p * y
  {
  }

  /** Each step brings the coordinate no farther from its target. */
  lemma EaseNApproaches(pos: real, target: real, k: real, n: nat)
    requires 0.0 <= k <= 1.0
    ensures Dist(EaseN(pos, target, k, n + 1), target) <= Dist(EaseN(pos, target, k, n), target)
  {
    var x := EaseN(pos, target, k, n);
    EaseNoOvershoot(x, target, k);
    MulUnit(1.0 - k, Dist(x, target));
  }

  /** The distance to the target after n steps is the initial distance times (1 - k)^n. */
  lemma EaseNDistance(pos: real, target: real, k: real, n: nat)
    requires 0.0 <= k <= 1.0
    ensures Dist(EaseN(pos, target, k, n), target) == Pow(1.0 - k, n) * Dist(pos, target)
  {
    PowUnit(1.0 - k, n);
    EaseNClosedForm(pos, target, k, n);
    DistScale(EaseN(pos, target, k, n), target, pos, Pow(1.0 - k, n));
  }

  /** Convergence: after n steps the distance is at most the initial distance over
      1 + n k. */
  lemma {:induction false} EaseNConverges(pos: real, target: real, k: real, n: nat)
    requires 0.0 <= k <= 1.0
    ensures Dist(EaseN(pos, target, k, n), target) * (1.0 + n as real * k) <= Dist(pos, target)
  {
    EaseNDistance(pos, target, k, n);
    ConvergesFrom(pos, target, k, n, EaseN(pos, target, k, n));
  }

  lemma ConvergesFrom(pos: real, target: real, k: real, n: nat, y: real)
    requires 0.0 <= k <= 1.0
    requires Dist(y, target) == Pow(1.0 - k, n) * Dist(pos, target)
    ensures Dist(y, target) * (1.0 + n as real * k) <= Dist(pos, target)
  {
    PowBernoulli(k, n);
    ScaledBound(Dist(y, target), Pow(1.0 - k, n), Dist(pos, target), 1.0 + n as real * k);
  }

  lemma ScaledBound(x: real, p: real, d: real, b: real)
    requires d >= 0.0 && p * b <= 1.0 && x == p * d
    ensures x * b <= d
  {
    var q := p * b;
    assert x * b == q * d by { assert x * b == (p * d) * b; }
    MulLeftMono(d, q, 1.0);
  }

  lemma DistScale(x: real, target: real, pos: real, p: real)
    requires p >= 0.0 && x - target == p * (pos - target)
    ensures Dist(x, target) == p * Dist(pos, target)
  {
  }
}
