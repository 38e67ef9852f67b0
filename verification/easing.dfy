/** The easing law of the eye animation: every eased quantity moves halfway
    towards its target once per frame (eyes.py, `Eyes.interpolate`). */
module Easing {

  function Abs(x: real): real {
    if x < 0.0 then -x else x
  }

  /** One frame of easing: the average of the current value and the target. */
  function Interpolate(current: real, target: real): (r: real)
    ensures current <= target ==> current <= r <= target
    ensures target <= current ==> target <= r <= current
    ensures Abs(r - target) == Abs(current - target) / 2.0
    ensures current == target ==> r == current
  {
    (current + target) / 2.0
  }

  /** 2^n as a real; it outgrows every natural number. */
  function Pow2(n: nat): (r: real)
    ensures r >= (n as real) + 1.0
  {
    if n == 0 then 1.0 else 2.0 * Pow2(n - 1)
  }

  /** The value after `n` frames of easing towards a fixed target. */
  function EaseN(current: real, target: real, n: nat): real
    decreases n
  {
    if n == 0 then current else EaseN(Interpolate(current, target), target, n - 1)
  }

  /** After n frames the remaining distance to the target is the initial one
      divided by 2^n (stated without division: gap times 2^n is the initial gap). */
  lemma {:induction false} EaseNGap(current: real, target: real, n: nat)
    ensures (EaseN(current, target, n) - target) * Pow2(n) == current - target
    decreases n
  {
    if n > 0 {
      var next := Interpolate(current, target);
      EaseNGap(next, target, n - 1);
      var g := EaseN(current, target, n) - target;
      assert g * Pow2(n - 1) == next - target;
      assert g * Pow2(n) == 2.0 * (g * Pow2(n - 1));
    }
  }

  /** A gap g scaled by p >= 1 to d lies between 0 and d. */
  lemma ScaledDown(g: real, p: real, d: real)
    requires p >= 1.0 && g * p == d
    ensures d >= 0.0 ==> 0.0 <= g <= d
    ensures d <= 0.0 ==> d <= g <= 0.0
  {
  }

  /** Easing never overshoots: every frame stays between the start and the target,
      moves monotonically, and halves the remaining distance. */
  lemma EaseNMonotone(current: real, target: real, n: nat)
    ensures current <= target ==> current <= EaseN(current, target, n) <= EaseN(current, target, n + 1) <= target
    ensures target <= current ==> target <= EaseN(current, target, n + 1) <= EaseN(current, target, n) <= current
    ensures Abs(EaseN(current, target, n + 1) - target) == Abs(EaseN(current, target, n) - target) / 2.0
  {
    var e := EaseN(current, target, n);
    EaseNGap(current, target, n);
    ScaledDown(e - target, Pow2(n), current - target);
    assert EaseN(e, target, 1) == Interpolate(e, target);
    EaseNShift(current, target, n);
  }

  /** n + 1 frames from the start are one frame from frame n. */
  lemma {:induction false} EaseNShift(current: real, target: real, n: nat)
    ensures EaseN(current, target, n + 1) == Interpolate(EaseN(current, target, n), target)
    decreases n
  {
    if n > 0 {
      EaseNShift(Interpolate(current, target), target, n - 1);
    }
  }

  /** Easing converges: for every tolerance some frame count brings the value within it. */
  lemma EaseNConverges(current: real, target: real, eps: real)
    requires eps > 0.0
    ensures exists n: nat :: Abs(EaseN(current, target, n) - target) < eps
  {
    var d := Abs(current - target);
    var n: nat := (d / eps).Floor + 1;
    BeyondQuotient(d, eps, Pow2(n));
    EaseNWithin(current, target, n, d, eps);
  }

  /** n frames suffice to bring a start at most `bound` away within eps of the
      target: eps is positive and 2^n tolerances exceed the bound. */
  predicate EnoughFrames(n: nat, bound: real, eps: real) {
    eps > 0.0 && Pow2(n) * eps > bound
  }

  /** A start at most `bound` away from the target is within eps of it after n
      frames whenever 2^n tolerances exceed the bound: the gap halves every frame. */
  lemma EaseNWithin(current: real, target: real, n: nat, bound: real, eps: real)
    requires Abs(current - target) <= bound
    requires EnoughFrames(n, bound, eps)
    ensures Abs(EaseN(current, target, n) - target) < eps
  {
    EaseNGap(current, target, n);
    GapBelow(EaseN(current, target, n) - target, Pow2(n), current - target, bound, eps);
  }

  /** A gap g that times p > 0 gives a start d within `bound` is below eps once
      p tolerances exceed the bound. */
  lemma GapBelow(g: real, p: real, d: real, bound: real, eps: real)
    requires g * p == d && p > 0.0 && Abs(d) <= bound
    requires eps > 0.0 && p * eps > bound
    ensures Abs(g) < eps
  {
    AbsScaled(g, p, d);
    BelowTolerance(Abs(g), p, Abs(d), eps);
  }

  lemma AbsScaled(g: real, p: real, d: real)
    requires p > 0.0 && g * p == d
    ensures Abs(g) * p == Abs(d)
  {
  }

  lemma BeyondQuotient(d: real, eps: real, p: real)
    requires eps > 0.0 && p > d / eps
    ensures eps * p > d
  {
  }

  lemma BelowTolerance(g: real, p: real, d: real, eps: real)
    requires g >= 0.0 && p > 0.0 && g * p == d && eps * p > d
    ensures g < eps
  {
  }
}
