/**
 * The animation clock: every tick moves the cyclic time forward by a fixed
 * base rate scaled by the speed slider, modulo 1, and a tick whose new time is
 * smaller than the old one counts as a completed cycle.
 */
module Clock {
  import opened Kidney

  /** Time advanced per tick at speed 1. */
  const BaseRate: real := 0.015

  /** The values the speed slider offers: 0.25 to 2 in steps of 0.25. */
  predicate SliderSpeed(s: real) {
    0.25 <= s <= 2.0 && IsInt(4.0 * s)
  }

  /** The slider offers exactly eight speeds. */
  lemma SliderSpeedValues(s: real)
    ensures SliderSpeed(s) <==> s in {0.25, 0.5, 0.75, 1.0, 1.25, 1.5, 1.75, 2.0}
  {
    if SliderSpeed(s) {
      var k := (4.0 * s).Floor;
      assert 1 <= k <= 8;
      assert s == k as real / 4.0;
    }
  }

  /** The distance one tick covers at a slider speed is positive and below one cycle. */
  lemma SliderStepBelowOneCycle(s: real)
    requires SliderSpeed(s)
    ensures 0.0 < BaseRate * s <= 0.03
  {
  }

  /** The new time of one tick: `(t + 0.015 * speed) % 1`. */
  function Advance(t: real, speed: real): (r: real)
    ensures 0.0 <= t && 0.0 <= speed ==> 0.0 <= r < 1.0
    ensures IsInt(t + BaseRate * speed - r)
  {
    Rem1(t + BaseRate * speed)
  }

  /** The wrap-around detector of the tick: the new time fell below the old one. */
  predicate Wrapped(t: real, newTime: real) {
    newTime < t
  }

  /**
   * While a tick covers less than one cycle, the detector fires exactly when
   * the tick crosses 1, and the new time is the sum minus at most one cycle.
   */
  lemma WrapsExactlyAtBoundary(t: real, speed: real)
    requires 0.0 <= t < 1.0
    requires 0.0 <= speed && BaseRate * speed < 1.0
    ensures Wrapped(t, Advance(t, speed)) <==> 1.0 <= t + BaseRate * speed
    ensures Advance(t, speed) ==
              if 1.0 <= t + BaseRate * speed then t + BaseRate * speed - 1.0
              else t + BaseRate * speed
  {
    var s := t + BaseRate * speed;
    assert 0.0 <= s < 2.0;
    if 1.0 <= s {
      assert s.Floor == 1;
    } else {
      assert s.Floor == 0;
    }
  }

  /** From 0.99 at speed 1 the tick crosses 1: the detector fires and the new time is 0.005. */
  lemma WrapFromNinetyNine()
    ensures Advance(0.99, 1.0) == 0.005
    ensures Wrapped(0.99, Advance(0.99, 1.0))
  {
    WrapsExactlyAtBoundary(0.99, 1.0);
  }

  /** Time and number of detected wrap-arounds after a run of ticks. */
  datatype Progress = Progress(time: real, wraps: nat)

  /** `n` ticks at a constant speed from time `t`, counting the ticks the detector fires on. */
  function Run(t: real, speed: real, n: nat): (r: Progress)
    ensures 0.0 <= t && 0.0 <= speed && 0 < n ==> 0.0 <= r.time < 1.0
    ensures r.wraps <= n
  {
    if n == 0 then Progress(t, 0)
    else
      var p := Run(t, speed, n - 1);
      var next := Advance(p.time, speed);
      Progress(next, p.wraps + if Wrapped(p.time, next) then 1 else 0)
  }

  /** The distance covered from time `t` by `n` steps of length `d`, `t + n * d`. */
  function Distance(t: real, d: real, n: nat): (r: real)
    ensures r == t + n as real * d
  {
    if n == 0 then t else Distance(t, d, n - 1) + d
  }

  /**
   * The detector neither skips nor doubles a cycle: after `n` ticks the time is
   * the total distance modulo 1 and the detector has fired once per whole
   * cycle covered.
   */
  lemma {:induction false} RunCountsCycles(t: real, speed: real, n: nat)
    requires 0.0 <= t < 1.0
    requires 0.0 <= speed && BaseRate * speed < 1.0
    ensures Run(t, speed, n).time == Rem1(Distance(t, BaseRate * speed, n))
    ensures Run(t, speed, n).wraps == Distance(t, BaseRate * speed, n).Floor
  {
    if n > 0 {
      var d := BaseRate * speed;
      var x := Distance(t, d, n - 1);
      RunCountsCycles(t, speed, n - 1);
      WrapsExactlyAtBoundary(Run(t, speed, n - 1).time, speed);
      CarryOfStep(x, d);
    }
  }

  /**
   * Splitting a distance into its whole and fractional parts: one more step
   * `d < 1` adds a whole cycle exactly when the fractional part reaches 1.
   */
  lemma CarryOfStep(x: real, d: real)
    requires 0.0 <= x && 0.0 <= d < 1.0
    ensures Rem1(x + d) == if 1.0 <= Rem1(x) + d then Rem1(x) + d - 1.0 else Rem1(x) + d
    ensures (x + d).Floor == x.Floor + if 1.0 <= Rem1(x) + d then 1 else 0
  {
    var f := x - x.Floor as real;
    assert Rem1(x) == f;
    if 1.0 <= f + d {
      assert (x + d).Floor == x.Floor + 1;
    } else {
      assert (x + d).Floor == x.Floor;
    }
  }
}
