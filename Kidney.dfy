/**
 * Shared vocabulary of the kidney filtration animation: the two scene
 * variants, JavaScript's `x % 1` on exact reals, and the trigonometric
 * functions the coordinates depend on, passed in as values.
 */
module Kidney {

  /** The two kidneys drawn side by side: healthy and affected by chronic kidney disease. */
  datatype Kind = Healthy | Ckd

  /** A real number without fractional part. */
  predicate IsInt(x: real) {
    x.Floor as real == x
  }

  /**
   * JavaScript's `x % 1`: the remainder truncates toward zero, so it keeps
   * the sign of `x`. The contracts below fix it uniquely: it lies strictly
   * between -1 and 1, on the side of zero that `x` is on, and differs from `x`
   * by a whole number.
   */
  function Rem1(x: real): (r: real)
    ensures -1.0 < r < 1.0
    ensures 0.0 <= x ==> 0.0 <= r
    ensures x <= 0.0 ==> r <= 0.0
    ensures IsInt(x - r)
  {
    if 0.0 <= x then
      var k := x.Floor;
      assert (k as real).Floor == k;
      x - k as real
    else
      var k := (-x).Floor;
      assert (-k as real).Floor == -k;
      x + k as real
  }

  /** On a non-negative argument `% 1` takes off exactly the whole part. */
  lemma Rem1OfNonNegative(x: real)
    requires 0.0 <= x
    ensures Rem1(x) == x - x.Floor as real
    ensures 0.0 <= Rem1(x) < 1.0
  {
  }

  /** Adding a whole number to a non-negative argument does not change `% 1`. */
  lemma Rem1Periodic(x: real, k: nat)
    requires 0.0 <= x
    ensures Rem1(x + k as real) == Rem1(x)
  {
    assert (x + k as real).Floor == x.Floor + k;
  }

  /** Below 2, `% 1` subtracts at most one. */
  lemma Rem1BelowTwo(x: real)
    requires 0.0 <= x < 2.0
    ensures Rem1(x) == if x < 1.0 then x else x - 1.0
  {
    if x < 1.0 {
      assert x.Floor == 0;
    } else {
      assert x.Floor == 1;
    }
  }

  /** `% 1` may be taken of the first summand before adding a second. */
  lemma Rem1OfSum(a: real, c: real)
    requires 0.0 <= a && 0.0 <= c
    ensures Rem1(a + c) == Rem1(Rem1(a) + c)
  {
    var k := a.Floor;
    assert Rem1(a) == a - k as real;
    Rem1Periodic(Rem1(a) + c, k);
  }

  /**
   * Math.sin and Math.cos, seen only through the values the animation uses:
   * `sinPi(u)` stands for `Math.sin(u * Math.PI)` and `cosPi(u)` for
   * `Math.cos(u * Math.PI)`, so that no constant pi is needed.
   */
  datatype Trig = Trig(sinPi: real -> real, cosPi: real -> real)

  /** The range of sine and cosine. */
  ghost predicate BoundedTrig(tr: Trig) {
    && (forall u :: -1.0 <= tr.sinPi(u) <= 1.0)
    && (forall u :: -1.0 <= tr.cosPi(u) <= 1.0)
  }

  /** sin(0) = 0. */
  predicate SinZero(tr: Trig) {
    tr.sinPi(0.0) == 0.0
  }
}
