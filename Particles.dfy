/**
 * The three particle populations of the animation. Each particle's state is
 * recomputed from the cyclic time and its index alone: a per-particle phase
 * `(time + offset) % 1` selects a segment of a piecewise path, and particles
 * outside every visible segment are left out of the returned list.
 */
module Particles {
  import opened Kidney
  import opened Spacing

  /** One drawn particle; `id` is its index in its population. */
  datatype Particle = Particle(x: real, y: real, opacity: real, id: nat)

  datatype Option<T> = None | Some(value: T)

  /** Ids strictly increase along the list. */
  predicate IdsIncreasing(ps: seq<Particle>) {
    forall j, k :: 0 <= j < k < |ps| ==> ps[j].id < ps[k].id
  }

  /** Some particle of the list has id `i`. */
  predicate HasId(ps: seq<Particle>, i: nat) {
    exists j :: 0 <= j < |ps| && ps[j].id == i
  }

  /**
   * Pushing particle `p` with an id above every id so far: the list stays in
   * id order and gains exactly the id of `p`.
   */
  lemma Push(ps: seq<Particle>, p: Particle, bound: nat)
    requires IdsIncreasing(ps)
    requires forall j :: 0 <= j < |ps| ==> ps[j].id < bound
    requires bound <= p.id
    ensures IdsIncreasing(ps + [p])
    ensures forall k :: HasId(ps + [p], k) <==> HasId(ps, k) || k == p.id
  {
    var qs := ps + [p];
    forall k ensures HasId(qs, k) <==> HasId(ps, k) || k == p.id {
      if HasId(ps, k) {
        var j :| 0 <= j < |ps| && ps[j].id == k;
        assert qs[j].id == k;
      }
      if k == p.id {
        assert qs[|ps|].id == k;
      }
    }
  }

  // ---------------------------------------------------------------- blood

  /** Phase of blood particle `i` of `count`: `(time + i / count) % 1`. */
  function BloodPhase(time: real, i: nat, count: nat): (r: real)
    requires i < count
    ensures 0.0 <= time ==> 0.0 <= r < 1.0
  {
    Rem1(time + i as real / count as real)
  }

  /** The phase at which a blood particle leaves the scene. */
  function BloodCutoff(kind: Kind): real {
    if kind == Healthy then 0.85 else 0.95
  }

  /**
   * Position and opacity on the healthy blood path: approach along the artery,
   * two turns around the glomerulus at (175, 200), exit along the vein with
   * fading opacity, and opacity 0 in the tail of the cycle. The coordinates of
   * the tail are never read; 0 stands for JavaScript's undefined there.
   */
  function HealthyBloodPose(phase: real, tr: Trig): (r: (real, real, real))
    ensures 0.0 < r.2 <==> phase < 0.85
    ensures 0.0 < r.2 ==> 0.3 < r.2 <= 0.9
  {
    if phase < 0.3 then
      var t := phase / 0.3;
      (50.0 + t * 120.0, 200.0 + tr.sinPi(t) * 10.0, 0.8)
    else if phase < 0.6 then
      var t := (phase - 0.3) / 0.3;
      var angle := t * 4.0;
      (175.0 + tr.cosPi(angle) * 30.0, 200.0 + tr.sinPi(angle) * 30.0, 0.9)
    else if phase < 0.85 then
      var t := (phase - 0.6) / 0.25;
      (175.0 - t * 120.0, 220.0 + tr.sinPi(t) * 10.0, 0.8 - t * 0.5)
    else
      (0.0, 0.0, 0.0)
  }

  /**
   * Position and opacity on the CKD blood path: a slower approach, one and a
   * half turns on a tighter circle, an exit that stops at x = 60 rather than 55, and lower opacity
   * throughout; opacity 0 only in the last 0.05 of the cycle.
   */
  function CkdBloodPose(phase: real, tr: Trig): (r: (real, real, real))
    ensures 0.0 < r.2 <==> phase < 0.95
    ensures 0.0 < r.2 ==> 0.1 < r.2 <= 0.65
  {
    if phase < 0.35 then
      var t := phase / 0.35;
      (50.0 + t * 115.0, 200.0 + tr.sinPi(t * 0.8) * 12.0, 0.6)
    else if phase < 0.7 then
      var t := (phase - 0.35) / 0.35;
      var angle := t * 3.0;
      (175.0 + tr.cosPi(angle) * 25.0, 200.0 + tr.sinPi(angle) * 25.0, 0.65)
    else if phase < 0.95 then
      var t := (phase - 0.7) / 0.25;
      (175.0 - t * 115.0, 220.0 + tr.sinPi(t * 0.8) * 12.0, 0.6 - t * 0.5)
    else
      (0.0, 0.0, 0.0)
  }

  /**
   * Blood particle with id `id` at phase `phase`, present exactly while its
   * opacity is positive.
   */
  function BloodAt(kind: Kind, phase: real, id: nat, tr: Trig): (r: Option<Particle>)
    ensures r.Some? <==> phase < BloodCutoff(kind)
    ensures r.Some? ==> r.value.id == id
    ensures r.Some? && kind == Healthy ==> 0.3 < r.value.opacity <= 0.9
    ensures r.Some? && kind == Ckd ==> 0.1 < r.value.opacity <= 0.65
  {
    var (x, y, opacity) := if kind == Healthy then HealthyBloodPose(phase, tr) else CkdBloodPose(phase, tr);
    if opacity > 0.0 then Some(Particle(x, y, opacity, id)) else None
  }

  /**
   * With sine and cosine in [-1, 1], every visible blood particle of a
   * non-negative phase stays inside the box its paths span.
   */
  lemma BloodStaysInScene(kind: Kind, phase: real, id: nat, tr: Trig)
    requires BoundedTrig(tr) && 0.0 <= phase
    requires BloodAt(kind, phase, id, tr).Some?
    ensures var p := BloodAt(kind, phase, id, tr).value;
      if kind == Healthy then 50.0 <= p.x <= 205.0 && 170.0 <= p.y <= 230.0
      else 50.0 <= p.x <= 200.0 && 175.0 <= p.y <= 232.0
  {
    if kind == Healthy {
      if phase < 0.3 {
        var t := phase / 0.3;
        assert -1.0 <= tr.sinPi(t) <= 1.0;
      } else if phase < 0.6 {
        var angle := (phase - 0.3) / 0.3 * 4.0;
        assert -1.0 <= tr.sinPi(angle) <= 1.0 && -1.0 <= tr.cosPi(angle) <= 1.0;
      } else {
        var t := (phase - 0.6) / 0.25;
        assert -1.0 <= tr.sinPi(t) <= 1.0;
      }
    } else {
      if phase < 0.35 {
        var t := phase / 0.35;
        assert -1.0 <= tr.sinPi(t * 0.8) <= 1.0;
      } else if phase < 0.7 {
        var angle := (phase - 0.35) / 0.35 * 3.0;
        assert -1.0 <= tr.sinPi(angle) <= 1.0 && -1.0 <= tr.cosPi(angle) <= 1.0;
      } else {
        var t := (phase - 0.7) / 0.25;
        assert -1.0 <= tr.sinPi(t * 0.8) <= 1.0;
      }
    }
  }

  /**
   * On the exit segment blood fades strictly: from phase 0.6 up to the
   * healthy cut-off 0.85, and from 0.7 up to the CKD cut-off 0.95, a later
   * phase is less opaque.
   */
  lemma BloodFadesOnExit(p: real, q: real, tr: Trig)
    ensures 0.6 <= p < q < 0.85 ==> HealthyBloodPose(q, tr).2 < HealthyBloodPose(p, tr).2
    ensures 0.7 <= p < q < 0.95 ==> CkdBloodPose(q, tr).2 < CkdBloodPose(p, tr).2
  {
  }

  /**
   * The peak opacities: 0.9 on the healthy swirl and 0.65 on the CKD swirl,
   * so a CKD blood particle is never as opaque as the healthy peak.
   */
  lemma BloodPeakOpacity(id: nat, tr: Trig)
    ensures BloodAt(Healthy, 0.45, id, tr).Some? && BloodAt(Healthy, 0.45, id, tr).value.opacity == 0.9
    ensures BloodAt(Ckd, 0.5, id, tr).Some? && BloodAt(Ckd, 0.5, id, tr).value.opacity == 0.65
    ensures forall phase :: BloodAt(Ckd, phase, id, tr).Some? ==>
      BloodAt(Ckd, phase, id, tr).value.opacity < BloodAt(Healthy, 0.45, id, tr).value.opacity
  {
  }

  /** Number of blood particles with index below `n` (of `count`) that are drawn. */
  function CountBlood(kind: Kind, time: real, count: nat, n: nat): nat
    requires n <= count
  {
    if n == 0 then 0
    else CountBlood(kind, time, count, n - 1) + if BloodPhase(time, n - 1, count) < BloodCutoff(kind) then 1 else 0
  }

  /** Counting drawn blood particles only needs the phase of particle 0. */
  lemma {:induction false} CountBloodByOffset(kind: Kind, time: real, count: nat, m: nat)
    requires 0.0 <= time && m <= count && 0 < count
    ensures CountBlood(kind, time, count, m) == CountBelow(Rem1(time), count, m, BloodCutoff(kind))
  {
    if m > 0 {
      CountBloodByOffset(kind, time, count, m - 1);
      PhaseByOffset(time, m - 1, count);
    }
  }

  /**
   * Of the page's 15 blood particles, spread evenly around the cycle, the
   * healthy kidney draws 12 or 13 at any non-negative time and the CKD kidney
   * 14 or 15.
   */
  lemma BloodOnScreen(kind: Kind, time: real)
    requires 0.0 <= time
    ensures kind == Healthy ==> 12 <= CountBlood(kind, time, 15, 15) <= 13
    ensures kind == Ckd ==> 14 <= CountBlood(kind, time, 15, 15) <= 15
  {
    CountBloodByOffset(kind, time, 15, 15);
    if kind == Healthy {
      FifteenBelowHealthyCutoff(Rem1(time));
    } else {
      FifteenBelowCkdCutoff(Rem1(time));
    }
  }

  /**
   * The blood population `getBloodParticles(kind, count)`: particle `i` is in
   * the list exactly when its phase is before the cut-off, the list is in
   * index order and holds each particle as BloodAt computes it.
   */
  method GetBloodParticles(kind: Kind, time: real, count: nat, tr: Trig) returns (ps: seq<Particle>)
    ensures |ps| == CountBlood(kind, time, count, count) <= count
    ensures IdsIncreasing(ps)
    ensures forall j :: 0 <= j < |ps| ==>
      ps[j].id < count && BloodAt(kind, BloodPhase(time, ps[j].id, count), ps[j].id, tr) == Some(ps[j])
    ensures forall i :: 0 <= i < count ==> (HasId(ps, i) <==> BloodPhase(time, i, count) < BloodCutoff(kind))
  {
    ps := [];
    var i := 0;
    while i < count
      invariant 0 <= i <= count
      invariant |ps| <= i
      invariant |ps| == CountBlood(kind, time, count, i)
      invariant IdsIncreasing(ps)
      invariant forall j :: 0 <= j < |ps| ==>
        ps[j].id < i && BloodAt(kind, BloodPhase(time, ps[j].id, count), ps[j].id, tr) == Some(ps[j])
      invariant forall k :: 0 <= k < i ==> (HasId(ps, k) <==> BloodPhase(time, k, count) < BloodCutoff(kind))
    {
      var particle := BloodAt(kind, BloodPhase(time, i, count), i, tr);
      assert CountBlood(kind, time, count, i + 1) == CountBlood(kind, time, count, i) + if particle.Some? then 1 else 0;
      if particle.Some? {
        Push(ps, particle.value, i);
        ps := ps + [particle.value];
      }
      i := i + 1;
    }
  }

  // ------------------------------------------------------------- filtrate

  /** Phase of filtrate particle `i` of `count`: `(time + i / count + 0.35) % 1`. */
  function FiltratePhase(time: real, i: nat, count: nat): (r: real)
    requires i < count
    ensures 0.0 <= time ==> 0.0 <= r < 1.0
  {
    Rem1(time + i as real / count as real + 0.35)
  }

  /** The open phase window in which filtrate and protein particles are drawn. */
  predicate InWindow(phase: real) {
    0.4 < phase < 0.75
  }

  /**
   * Filtrate particle with id `id`: present only inside the window, moving
   * linearly from (119, 230) toward (129, 360) while fading; the CKD variant
   * follows the same track starting from half the healthy opacity.
   */
  function FiltrateAt(kind: Kind, phase: real, id: nat): (r: Option<Particle>)
    ensures r.Some? <==> InWindow(phase)
    ensures r.Some? ==> r.value.id == id && 119.0 < r.value.x < 129.0 && 230.0 < r.value.y < 360.0
    ensures r.Some? && kind == Healthy ==> 0.8 < r.value.opacity < 1.0
    ensures r.Some? && kind == Ckd ==> 0.3 < r.value.opacity < 0.5
  {
    if 0.4 < phase < 0.75 then
      var t := (phase - 0.4) / 0.35;
      var opacity := if kind == Healthy then 1.0 - t * 0.2 else 0.5 - t * 0.20;
      Some(Particle(119.0 + t * 10.0, 230.0 + t * 130.0, opacity, id))
    else
      None
  }

  /**
   * At the same phase the two variants draw a filtrate particle at the same
   * place, the CKD one exactly 0.5 less opaque than the healthy one.
   */
  lemma FiltrateCkdDimmer(phase: real, id: nat)
    requires InWindow(phase)
    ensures var h, c := FiltrateAt(Healthy, phase, id).value, FiltrateAt(Ckd, phase, id).value;
      h.x == c.x && h.y == c.y && c.opacity == h.opacity - 0.5
  {
  }

  /**
   * Inside the window a filtrate particle falls down the tubule and to the
   * right while it fades: later phases are lower, further right and less opaque.
   */
  lemma FiltrateFades(kind: Kind, p: real, q: real, id: nat)
    requires InWindow(p) && InWindow(q) && p < q
    ensures var a, b := FiltrateAt(kind, p, id).value, FiltrateAt(kind, q, id).value;
      a.x < b.x && a.y < b.y && b.opacity < a.opacity
  {
  }

  /** Number of filtrate particles with index below `n` (of `count`) that are drawn. */
  function CountFiltrate(time: real, count: nat, n: nat): nat
    requires n <= count
  {
    if n == 0 then 0
    else CountFiltrate(time, count, n - 1) + if InWindow(FiltratePhase(time, n - 1, count)) then 1 else 0
  }

  /** Counting drawn filtrate particles only needs the phase of particle 0. */
  lemma {:induction false} CountFiltrateByOffset(time: real, count: nat, m: nat)
    requires 0.0 <= time && m <= count && 0 < count
    ensures CountFiltrate(time, count, m) == CountInside(Rem1(time + 0.35), count, m, 0.4, 0.75)
  {
    if m > 0 {
      CountFiltrateByOffset(time, count, m - 1);
      assert time + (m - 1) as real / count as real + 0.35 == (time + 0.35) + (m - 1) as real / count as real;
      PhaseByOffset(time + 0.35, m - 1, count);
    }
  }

  /**
   * Of the page's 10 filtrate particles, 0.1 apart around the cycle, three or
   * four are inside the 0.35-wide window at any non-negative time.
   */
  lemma FiltrateOnScreen(time: real)
    requires 0.0 <= time
    ensures 3 <= CountFiltrate(time, 10, 10) <= 4
  {
    CountFiltrateByOffset(time, 10, 10);
    TenInsideWindow(Rem1(time + 0.35));
  }

  /**
   * The filtrate population `getFiltrateParticles(kind, count)`: particle `i`
   * is in the list exactly when its phase is inside the window.
   */
  method GetFiltrateParticles(kind: Kind, time: real, count: nat) returns (ps: seq<Particle>)
    ensures |ps| == CountFiltrate(time, count, count) <= count
    ensures IdsIncreasing(ps)
    ensures forall j :: 0 <= j < |ps| ==>
      ps[j].id < count && FiltrateAt(kind, FiltratePhase(time, ps[j].id, count), ps[j].id) == Some(ps[j])
    ensures forall i :: 0 <= i < count ==> (HasId(ps, i) <==> InWindow(FiltratePhase(time, i, count)))
    ensures forall j :: 0 <= j < |ps| ==> 119.0 < ps[j].x < 129.0 && 230.0 < ps[j].y < 360.0
  {
    ps := [];
    var i := 0;
    while i < count
      invariant 0 <= i <= count
      invariant |ps| <= i
      invariant |ps| == CountFiltrate(time, count, i)
      invariant IdsIncreasing(ps)
      invariant forall j :: 0 <= j < |ps| ==>
        ps[j].id < i && FiltrateAt(kind, FiltratePhase(time, ps[j].id, count), ps[j].id) == Some(ps[j])
      invariant forall k :: 0 <= k < i ==> (HasId(ps, k) <==> InWindow(FiltratePhase(time, k, count)))
    {
      var particle := FiltrateAt(kind, FiltratePhase(time, i, count), i);
      if particle.Some? {
        Push(ps, particle.value, i);
        ps := ps + [particle.value];
      }
      i := i + 1;
    }
  }

  // -------------------------------------------------------------- protein

  /** Number of leaked-protein particles in the CKD kidney. */
  const ProteinCount: nat := 5

  /** Phase of protein particle `i`: `(time + i * 0.2 + 0.45) % 1`. */
  function ProteinPhase(time: real, i: nat): (r: real)
    ensures 0.0 <= time ==> 0.0 <= r < 1.0
  {
    Rem1(time + i as real * 0.2 + 0.45)
  }

  /** Protein particle with id `id`: present only inside the window, moving from (120, 230) toward (122, 305). */
  function ProteinAt(phase: real, id: nat): (r: Option<Particle>)
    ensures r.Some? <==> InWindow(phase)
    ensures r.Some? ==> r.value.id == id
    ensures r.Some? ==> 120.0 < r.value.x < 122.0 && 230.0 < r.value.y < 305.0 && 0.8 < r.value.opacity < 1.0
  {
    if 0.4 < phase < 0.75 then
      var t := (phase - 0.4) / 0.35;
      Some(Particle(120.0 + t * 2.0, 230.0 + t * 75.0, 1.0 - t * 0.2, id))
    else
      None
  }

  /** Inside the window a protein particle moves down and to the right while it fades. */
  lemma ProteinFades(p: real, q: real, id: nat)
    requires InWindow(p) && InWindow(q) && p < q
    ensures var a, b := ProteinAt(p, id).value, ProteinAt(q, id).value;
      a.x < b.x && a.y < b.y && b.opacity < a.opacity
  {
  }

  /** Number of protein particles with index below `n` whose phase is inside the window. */
  function CountProteins(time: real, n: nat): nat {
    if n == 0 then 0
    else CountProteins(time, n - 1) + if InWindow(ProteinPhase(time, n - 1)) then 1 else 0
  }

  /** Counting drawn protein particles only needs the phase of particle 0. */
  lemma {:induction false} CountProteinsByOffset(time: real, m: nat)
    requires 0.0 <= time && m <= ProteinCount
    ensures CountProteins(time, m) == CountInside(Rem1(time + 0.45), ProteinCount, m, 0.4, 0.75)
  {
    if m > 0 {
      CountProteinsByOffset(time, m - 1);
      assert time + (m - 1) as real * 0.2 + 0.45 == (time + 0.45) + (m - 1) as real / ProteinCount as real;
      PhaseByOffset(time + 0.45, m - 1, ProteinCount);
    }
  }

  /**
   * The five protein particles sit 0.2 apart around the cycle and the window
   * is 0.35 wide, so from any non-negative time one or two of them are drawn.
   */
  lemma ProteinsOnScreen(time: real)
    requires 0.0 <= time
    ensures 1 <= CountProteins(time, ProteinCount) <= 2
  {
    CountProteinsByOffset(time, ProteinCount);
    FiveInsideWindow(Rem1(time + 0.45));
  }

  /** The protein loop of the CKD kidney: particle `i < 5` is in the list exactly when its phase is inside the window. */
  method ProteinParticles(time: real) returns (ps: seq<Particle>)
    ensures |ps| == CountProteins(time, ProteinCount) <= ProteinCount
    ensures IdsIncreasing(ps)
    ensures forall j :: 0 <= j < |ps| ==>
      ps[j].id < ProteinCount && ProteinAt(ProteinPhase(time, ps[j].id), ps[j].id) == Some(ps[j])
    ensures forall i :: 0 <= i < ProteinCount ==> (HasId(ps, i) <==> InWindow(ProteinPhase(time, i)))
  {
    ps := [];
    var i := 0;
    while i < ProteinCount
      invariant 0 <= i <= ProteinCount
      invariant |ps| <= i
      invariant |ps| == CountProteins(time, i)
      invariant IdsIncreasing(ps)
      invariant forall j :: 0 <= j < |ps| ==>
        ps[j].id < i && ProteinAt(ProteinPhase(time, ps[j].id), ps[j].id) == Some(ps[j])
      invariant forall k :: 0 <= k < i ==> (HasId(ps, k) <==> InWindow(ProteinPhase(time, k)))
    {
      var particle := ProteinAt(ProteinPhase(time, i), i);
      if particle.Some? {
        Push(ps, particle.value, i);
        ps := ps + [particle.value];
      }
      i := i + 1;
    }
  }
}
