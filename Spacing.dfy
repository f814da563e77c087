/**
 * Counting evenly spaced particles. Particle `i` of a population of `n` has
 * phase `(base + i / n) % 1`: the phases sit `1 / n` apart around the cycle,
 * so how many of them fall into a range of phases depends only on the phase
 * of particle 0.
 */
module Spacing {
  import opened Kidney

  /** 1 for true, 0 for false. */
  function Ind(b: bool): nat {
    if b then 1 else 0
  }

  /** Phase `u + i / n` of particle `i` when particle 0 has phase `u`, brought back into the cycle once. */
  function OffsetPhase(u: real, i: nat, n: nat): real
    requires 0 < n
  {
    var p := u + i as real / n as real;
    if p < 1.0 then p else p - 1.0
  }

  /** `(a + i / n) % 1` is the offset phase of particle `i` from the phase `a % 1` of particle 0. */
  lemma PhaseByOffset(a: real, i: nat, n: nat)
    requires 0.0 <= a && i < n
    ensures Rem1(a + i as real / n as real) == OffsetPhase(Rem1(a), i, n)
  {
    var c := i as real / n as real;
    assert 0.0 <= c < 1.0 by {
      assert i as real < n as real;
    }
    Rem1OfSum(a, c);
    Rem1BelowTwo(Rem1(a) + c);
  }

  /** How many of the first `m` of `n` phases from `u` lie below `c`. */
  function CountBelow(u: real, n: nat, m: nat, c: real): nat
    requires 0 < n
  {
    if m == 0 then 0 else CountBelow(u, n, m - 1, c) + Ind(OffsetPhase(u, m - 1, n) < c)
  }

  /** How many of the first `m` of `n` phases from `u` lie strictly between `lo` and `hi`. */
  function CountInside(u: real, n: nat, m: nat, lo: real, hi: real): nat
    requires 0 < n
  {
    if m == 0 then 0 else CountInside(u, n, m - 1, lo, hi) + Ind(lo < OffsetPhase(u, m - 1, n) < hi)
  }

  /** The count of fifteen phases below `c`, term by term. */
  lemma UnfoldFifteenBelow(u: real, c: real)
    ensures CountBelow(u, 15, 15, c) ==
      Ind(OffsetPhase(u, 0, 15) < c) + Ind(OffsetPhase(u, 1, 15) < c) + Ind(OffsetPhase(u, 2, 15) < c) + Ind(OffsetPhase(u, 3, 15) < c) + Ind(OffsetPhase(u, 4, 15) < c)
      + Ind(OffsetPhase(u, 5, 15) < c) + Ind(OffsetPhase(u, 6, 15) < c) + Ind(OffsetPhase(u, 7, 15) < c) + Ind(OffsetPhase(u, 8, 15) < c) + Ind(OffsetPhase(u, 9, 15) < c)
      + Ind(OffsetPhase(u, 10, 15) < c) + Ind(OffsetPhase(u, 11, 15) < c) + Ind(OffsetPhase(u, 12, 15) < c) + Ind(OffsetPhase(u, 13, 15) < c) + Ind(OffsetPhase(u, 14, 15) < c)
  {
    assert CountBelow(u, 15, 1, c) == CountBelow(u, 15, 0, c) + Ind(OffsetPhase(u, 0, 15) < c);
    assert CountBelow(u, 15, 2, c) == CountBelow(u, 15, 1, c) + Ind(OffsetPhase(u, 1, 15) < c);
    assert CountBelow(u, 15, 3, c) == CountBelow(u, 15, 2, c) + Ind(OffsetPhase(u, 2, 15) < c);
    assert CountBelow(u, 15, 4, c) == CountBelow(u, 15, 3, c) + Ind(OffsetPhase(u, 3, 15) < c);
    assert CountBelow(u, 15, 5, c) == CountBelow(u, 15, 4, c) + Ind(OffsetPhase(u, 4, 15) < c);
    assert CountBelow(u, 15, 6, c) == CountBelow(u, 15, 5, c) + Ind(OffsetPhase(u, 5, 15) < c);
    assert CountBelow(u, 15, 7, c) == CountBelow(u, 15, 6, c) + Ind(OffsetPhase(u, 6, 15) < c);
    assert CountBelow(u, 15, 8, c) == CountBelow(u, 15, 7, c) + Ind(OffsetPhase(u, 7, 15) < c);
    assert CountBelow(u, 15, 9, c) == CountBelow(u, 15, 8, c) + Ind(OffsetPhase(u, 8, 15) < c);
    assert CountBelow(u, 15, 10, c) == CountBelow(u, 15, 9, c) + Ind(OffsetPhase(u, 9, 15) < c);
    assert CountBelow(u, 15, 11, c) == CountBelow(u, 15, 10, c) + Ind(OffsetPhase(u, 10, 15) < c);
    assert CountBelow(u, 15, 12, c) == CountBelow(u, 15, 11, c) + Ind(OffsetPhase(u, 11, 15) < c);
    assert CountBelow(u, 15, 13, c) == CountBelow(u, 15, 12, c) + Ind(OffsetPhase(u, 12, 15) < c);
    assert CountBelow(u, 15, 14, c) == CountBelow(u, 15, 13, c) + Ind(OffsetPhase(u, 13, 15) < c);
    assert CountBelow(u, 15, 15, c) == CountBelow(u, 15, 14, c) + Ind(OffsetPhase(u, 14, 15) < c);
  }

  /** Fifteen phases 1/15 apart: 12 or 13 of them lie below 0.85. */
  lemma FifteenBelowHealthyCutoff(u: real)
    requires 0.0 <= u < 1.0
    ensures 12 <= CountBelow(u, 15, 15, 0.85) <= 13
  {
    UnfoldFifteenBelow(u, 0.85);
  }

  /** Fifteen phases 1/15 apart: 14 or 15 of them lie below 0.95. */
  lemma FifteenBelowCkdCutoff(u: real)
    requires 0.0 <= u < 1.0
    ensures 14 <= CountBelow(u, 15, 15, 0.95) <= 15
  {
    UnfoldFifteenBelow(u, 0.95);
  }

  /** The count of ten phases inside (lo, hi), term by term. */
  lemma UnfoldTenInside(u: real, lo: real, hi: real)
    ensures CountInside(u, 10, 10, lo, hi) ==
      Ind(lo < OffsetPhase(u, 0, 10) < hi) + Ind(lo < OffsetPhase(u, 1, 10) < hi) + Ind(lo < OffsetPhase(u, 2, 10) < hi) + Ind(lo < OffsetPhase(u, 3, 10) < hi) + Ind(lo < OffsetPhase(u, 4, 10) < hi)
      + Ind(lo < OffsetPhase(u, 5, 10) < hi) + Ind(lo < OffsetPhase(u, 6, 10) < hi) + Ind(lo < OffsetPhase(u, 7, 10) < hi) + Ind(lo < OffsetPhase(u, 8, 10) < hi) + Ind(lo < OffsetPhase(u, 9, 10) < hi)
  {
    assert CountInside(u, 10, 1, lo, hi) == CountInside(u, 10, 0, lo, hi) + Ind(lo < OffsetPhase(u, 0, 10) < hi);
    assert CountInside(u, 10, 2, lo, hi) == CountInside(u, 10, 1, lo, hi) + Ind(lo < OffsetPhase(u, 1, 10) < hi);
    assert CountInside(u, 10, 3, lo, hi) == CountInside(u, 10, 2, lo, hi) + Ind(lo < OffsetPhase(u, 2, 10) < hi);
    assert CountInside(u, 10, 4, lo, hi) == CountInside(u, 10, 3, lo, hi) + Ind(lo < OffsetPhase(u, 3, 10) < hi);
    assert CountInside(u, 10, 5, lo, hi) == CountInside(u, 10, 4, lo, hi) + Ind(lo < OffsetPhase(u, 4, 10) < hi);
    assert CountInside(u, 10, 6, lo, hi) == CountInside(u, 10, 5, lo, hi) + Ind(lo < OffsetPhase(u, 5, 10) < hi);
    assert CountInside(u, 10, 7, lo, hi) == CountInside(u, 10, 6, lo, hi) + Ind(lo < OffsetPhase(u, 6, 10) < hi);
    assert CountInside(u, 10, 8, lo, hi) == CountInside(u, 10, 7, lo, hi) + Ind(lo < OffsetPhase(u, 7, 10) < hi);
    assert CountInside(u, 10, 9, lo, hi) == CountInside(u, 10, 8, lo, hi) + Ind(lo < OffsetPhase(u, 8, 10) < hi);
    assert CountInside(u, 10, 10, lo, hi) == CountInside(u, 10, 9, lo, hi) + Ind(lo < OffsetPhase(u, 9, 10) < hi);
  }

  /** Ten phases 0.1 apart: three or four of them lie in the 0.35 wide range (0.4, 0.75). */
  lemma TenInsideWindow(u: real)
    requires 0.0 <= u < 1.0
    ensures 3 <= CountInside(u, 10, 10, 0.4, 0.75) <= 4
  {
    UnfoldTenInside(u, 0.4, 0.75);
  }

  /** The count of five phases inside (lo, hi), term by term. */
  lemma UnfoldFiveInside(u: real, lo: real, hi: real)
    ensures CountInside(u, 5, 5, lo, hi) ==
      Ind(lo < OffsetPhase(u, 0, 5) < hi) + Ind(lo < OffsetPhase(u, 1, 5) < hi) + Ind(lo < OffsetPhase(u, 2, 5) < hi) + Ind(lo < OffsetPhase(u, 3, 5) < hi) + Ind(lo < OffsetPhase(u, 4, 5) < hi)
  {
    assert CountInside(u, 5, 1, lo, hi) == CountInside(u, 5, 0, lo, hi) + Ind(lo < OffsetPhase(u, 0, 5) < hi);
    assert CountInside(u, 5, 2, lo, hi) == CountInside(u, 5, 1, lo, hi) + Ind(lo < OffsetPhase(u, 1, 5) < hi);
    assert CountInside(u, 5, 3, lo, hi) == CountInside(u, 5, 2, lo, hi) + Ind(lo < OffsetPhase(u, 2, 5) < hi);
    assert CountInside(u, 5, 4, lo, hi) == CountInside(u, 5, 3, lo, hi) + Ind(lo < OffsetPhase(u, 3, 5) < hi);
    assert CountInside(u, 5, 5, lo, hi) == CountInside(u, 5, 4, lo, hi) + Ind(lo < OffsetPhase(u, 4, 5) < hi);
  }

  /** Five phases 0.2 apart: one or two of them lie in (0.4, 0.75). */
  lemma FiveInsideWindow(u: real)
    requires 0.0 <= u < 1.0
    ensures 1 <= CountInside(u, 5, 5, 0.4, 0.75) <= 2
  {
    UnfoldFiveInside(u, 0.4, 0.75);
  }
}
