/**
 * The derived indicators: the glomerular filtration rate of each kidney, which
 * oscillates with the cyclic time around a fixed baseline, and the width of
 * the gauge bar that shows it.
 */
module Filtration {
  import opened Kidney

  /** Baseline filtration rate in mL/min/1.73m². */
  function BaseGfr(kind: Kind): real {
    if kind == Healthy then 105.0 else 45.0
  }

  /**
   * `calculateGFR(kind)`: the baseline plus `5 * sin(2 * pi * time)`, never
   * below 0. With sine in [-1, 1] the value stays within 5 of the baseline.
   */
  function CalculateGfr(kind: Kind, time: real, tr: Trig): (r: real)
    ensures 0.0 <= r
    ensures BaseGfr(kind) + tr.sinPi(time * 2.0) * 5.0 <= r
    ensures r == 0.0 || r == BaseGfr(kind) + tr.sinPi(time * 2.0) * 5.0
    ensures BoundedTrig(tr) ==> BaseGfr(kind) - 5.0 <= r <= BaseGfr(kind) + 5.0
  {
    var variation := tr.sinPi(time * 2.0) * 5.0;
    var v := BaseGfr(kind) + variation;
    assert BoundedTrig(tr) ==> -1.0 <= tr.sinPi(time * 2.0) <= 1.0;
    if 0.0 < v then v else 0.0
  }

  /** Healthy GFR lies in [100, 110], CKD GFR in [40, 50]; the clamp never engages. */
  lemma GfrRanges(time: real, tr: Trig)
    requires BoundedTrig(tr)
    ensures 100.0 <= CalculateGfr(Healthy, time, tr) <= 110.0
    ensures 40.0 <= CalculateGfr(Ckd, time, tr) <= 50.0
    ensures CalculateGfr(Healthy, time, tr) - CalculateGfr(Ckd, time, tr) == 60.0
  {
    assert -1.0 <= tr.sinPi(time * 2.0) <= 1.0;
  }

  /** At time 0 the indicators show exactly the baselines 105 and 45. */
  lemma GfrAtStart(tr: Trig)
    requires SinZero(tr)
    ensures CalculateGfr(Healthy, 0.0, tr) == 105.0
    ensures CalculateGfr(Ckd, 0.0, tr) == 45.0
  {
    assert 0.0 * 2.0 == 0.0;
  }

  /** A quarter cycle in, where the sine peaks at 1, they show 110 and 50. */
  lemma GfrAtQuarter(tr: Trig)
    requires tr.sinPi(0.5) == 1.0
    ensures CalculateGfr(Healthy, 0.25, tr) == 110.0
    ensures CalculateGfr(Ckd, 0.25, tr) == 50.0
  {
    assert 0.25 * 2.0 == 0.5;
  }

  /**
   * Width of the gauge bar in percent, `Math.min(value / max * 100, 100)`:
   * proportional to the value, capped at a full bar once the value reaches
   * the scale maximum.
   */
  function GaugeWidth(value: real, max: real): (w: real)
    requires 0.0 < max
    ensures w <= 100.0
    ensures w == 100.0 <==> max <= value
    ensures w < 100.0 ==> w * max == value * 100.0
    ensures 0.0 <= value ==> 0.0 <= w
  {
    var percentage := (value / max) * 100.0;
    if percentage < 100.0 then percentage else 100.0
  }

  /** The scale maximum every gauge of the page uses. */
  const GaugeMax: real := 120.0

  /**
   * Neither gauge is ever full and the healthy bar is always more than twice
   * as long as the CKD bar.
   */
  lemma GaugesOfGfr(time: real, tr: Trig)
    requires BoundedTrig(tr)
    ensures var h, c := GaugeWidth(CalculateGfr(Healthy, time, tr), GaugeMax),
                        GaugeWidth(CalculateGfr(Ckd, time, tr), GaugeMax);
      0.0 < c && 2.0 * c < h < 100.0
  {
    GfrRanges(time, tr);
  }
}
