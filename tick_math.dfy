/** The arithmetic of one countdown tick: the remaining milliseconds become a whole percentage of
    the countdown's length and a whole number of seconds, each rounded the way `Math.round` rounds
    (to the nearest integer, a half rounded up). The quotients are exact here, not float or double. */
module TickMath {

  /** `Math.round(n / d)` for an exact quotient with a positive divisor. */
  function RoundHalfUp(n: int, d: int): (r: int)
    requires d > 0
    ensures 2 * r * d - d <= 2 * n < 2 * r * d + d
  {
    var r := (2 * n + d) / (2 * d);
    assert 2 * n + d == r * (2 * d) + (2 * n + d) % (2 * d);
    r
  }

  lemma MulMonotonic(a: int, b: int, d: int)
    requires a <= b && d > 0
    ensures a * d <= b * d
  {
  }

  /** The nearest-integer property pins the rounded value down: at most one integer satisfies it. */
  lemma RoundHalfUpUnique(n: int, d: int, r: int)
    requires d > 0
    requires 2 * r * d - d <= 2 * n < 2 * r * d + d
    ensures r == RoundHalfUp(n, d)
  {
    var q := RoundHalfUp(n, d);
    if r < q {
      MulMonotonic(r + 1, q, d);
      assert false;
    } else if r > q {
      MulMonotonic(q + 1, r, d);
      assert false;
    }
  }

  /** The progress-bar fill for `l` milliseconds left of a countdown of `duration` milliseconds. */
  function Percent(l: int, duration: int): (r: int)
    requires duration > 0
    ensures 2 * r * duration - duration <= 200 * l < 2 * r * duration + duration
  {
    RoundHalfUp(100 * l, duration)
  }

  /** The remaining-seconds readout for `l` milliseconds left. */
  function Seconds(l: int): (r: int)
    ensures 1000 * r - 500 <= l < 1000 * r + 500
    ensures l >= 0 ==> r >= 0
  {
    RoundHalfUp(l, 1000)
  }

  /** While a countdown runs, the fill is a percentage: never below 0, never above 100. */
  lemma PercentBounds(l: int, duration: int)
    requires 0 <= l <= duration && duration > 0
    ensures 0 <= Percent(l, duration) <= 100
  {
    var r := Percent(l, duration);
    if r < 0 {
      MulMonotonic(r + 1, 0, duration);
      assert false;
    }
    if r > 100 {
      MulMonotonic(101, r, duration);
      assert false;
    }
  }

  /** A full countdown shows 100 and an exhausted one shows 0. */
  lemma PercentAtEnds(duration: int)
    requires duration > 0
    ensures Percent(duration, duration) == 100
    ensures Percent(0, duration) == 0
  {
    RoundHalfUpUnique(100 * duration, duration, 100);
    RoundHalfUpUnique(0, duration, 0);
  }

  /** Less time left never shows a larger fill. */
  lemma PercentMonotonic(l1: int, l2: int, duration: int)
    requires l1 <= l2 && duration > 0
    ensures Percent(l1, duration) <= Percent(l2, duration)
  {
    var r1, r2 := Percent(l1, duration), Percent(l2, duration);
    if r1 > r2 {
      MulMonotonic(r2 + 1, r1, duration);
      assert false;
    }
  }

  /** Less time left never shows more seconds. */
  lemma SecondsMonotonic(l1: int, l2: int)
    requires l1 <= l2
    ensures Seconds(l1) <= Seconds(l2)
  {
  }
}
