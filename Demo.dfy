/**
 * The view state of the kidney filtration demo and its transitions: the
 * animation tick, reset, the play and info toggles, the view and speed
 * controls, and the keyboard shortcuts.
 */
module Demo {
  import opened Kidney
  import Clock

  /** Which kidneys the page shows. */
  datatype View = Both | HealthyOnly | CkdOnly

  /** Filtrate drops counted for each kidney. */
  datatype DropCount = DropCount(healthy: nat, ckd: nat)

  /** Drops the healthy and the CKD kidney add per completed cycle. */
  const HealthyDropsPerCycle: nat := 10
  const CkdDropsPerCycle: nat := 6

  class KidneyFiltrationDemo {
    var isPlaying: bool
    var time: real
    var selectedView: View
    var showInfo: bool
    var animationSpeed: real
    var dropCount: DropCount

    /** Cycles completed since the page loaded or was last reset. */
    ghost var cycles: nat

    /**
     * The state invariant: the time is a phase in [0, 1), the speed is one the
     * slider offers, and both counters are the per-cycle amounts times the
     * same number of completed cycles.
     */
    ghost predicate Valid()
      reads this
    {
      && 0.0 <= time < 1.0
      && Clock.SliderSpeed(animationSpeed)
      && dropCount == DropCount(HealthyDropsPerCycle * cycles, CkdDropsPerCycle * cycles)
    }

    /** The initial state: paused at time 0, both kidneys shown, details shown, speed 1, no drops. */
    constructor ()
      ensures Valid()
      ensures !isPlaying && time == 0.0 && selectedView == Both && showInfo
      ensures animationSpeed == 1.0 && dropCount == DropCount(0, 0) && cycles == 0
    {
      isPlaying := false;
      time := 0.0;
      selectedView := Both;
      showInfo := true;
      animationSpeed := 1.0;
      dropCount := DropCount(0, 0);
      cycles := 0;
    }

    /**
     * One tick of the playing animation: the time advances by
     * `0.015 * animationSpeed` modulo 1, and when that wraps past 1 both
     * counters grow by their per-cycle amounts. Nothing else changes.
     */
    method Tick()
      requires Valid() && isPlaying
      modifies this
      ensures Valid()
      ensures time == Clock.Advance(old(time), animationSpeed)
      ensures Clock.Wrapped(old(time), time) <==> 1.0 <= old(time) + Clock.BaseRate * animationSpeed
      ensures if Clock.Wrapped(old(time), time)
              then dropCount == DropCount(old(dropCount.healthy) + 10, old(dropCount.ckd) + 6) && cycles == old(cycles) + 1
              else dropCount == old(dropCount) && cycles == old(cycles)
      ensures isPlaying == old(isPlaying) && selectedView == old(selectedView)
      ensures showInfo == old(showInfo) && animationSpeed == old(animationSpeed)
    {
      Clock.SliderStepBelowOneCycle(animationSpeed);
      Clock.WrapsExactlyAtBoundary(time, animationSpeed);
      var t := time;
      var newTime := Clock.Advance(t, animationSpeed);
      if Clock.Wrapped(t, newTime) {
        dropCount := DropCount(dropCount.healthy + 10, dropCount.ckd + 6);
        cycles := cycles + 1;
      }
      time := newTime;
    }

    /** Reset: back to time 0, paused, no drops; the view, details and speed are kept. */
    method Reset()
      requires Valid()
      modifies this
      ensures Valid()
      ensures time == 0.0 && !isPlaying && dropCount == DropCount(0, 0) && cycles == 0
      ensures selectedView == old(selectedView) && showInfo == old(showInfo)
      ensures animationSpeed == old(animationSpeed)
    {
      time := 0.0;
      isPlaying := false;
      dropCount := DropCount(0, 0);
      cycles := 0;
    }

    /** The play/pause button and the Space key: flip playing, change nothing else. */
    method TogglePlay()
      requires Valid()
      modifies this`isPlaying
      ensures Valid()
      ensures isPlaying == !old(isPlaying)
    {
      isPlaying := !isPlaying;
    }

    /** The details button and the I key: flip the details panel, change nothing else. */
    method ToggleInfo()
      requires Valid()
      modifies this`showInfo
      ensures Valid()
      ensures showInfo == !old(showInfo)
    {
      showInfo := !showInfo;
    }

    /** The three view buttons. */
    method SelectView(v: View)
      requires Valid()
      modifies this`selectedView
      ensures Valid()
      ensures selectedView == v
    {
      selectedView := v;
    }

    /** The speed slider, which only offers 0.25 to 2 in steps of 0.25. */
    method SetSpeed(s: real)
      requires Valid()
      requires Clock.SliderSpeed(s)
      modifies this`animationSpeed
      ensures Valid()
      ensures animationSpeed == s
    {
      animationSpeed := s;
    }

    /**
     * The keydown handler: Space toggles playing, KeyR resets, KeyI toggles
     * the details; `handled` says whether the key's default action was
     * prevented. Any other key changes nothing.
     */
    method HandleKey(code: string) returns (handled: bool)
      requires Valid()
      modifies this
      ensures Valid()
      ensures handled <==> code == "Space" || code == "KeyR" || code == "KeyI"
      ensures code == "Space" ==>
        isPlaying == !old(isPlaying) && time == old(time) && dropCount == old(dropCount)
        && cycles == old(cycles) && showInfo == old(showInfo)
      ensures code == "KeyR" ==>
        time == 0.0 && !isPlaying && dropCount == DropCount(0, 0) && cycles == 0 && showInfo == old(showInfo)
      ensures code == "KeyI" ==>
        showInfo == !old(showInfo) && isPlaying == old(isPlaying) && time == old(time)
        && dropCount == old(dropCount) && cycles == old(cycles)
      ensures !handled ==>
        isPlaying == old(isPlaying) && time == old(time) && dropCount == old(dropCount)
        && cycles == old(cycles) && showInfo == old(showInfo)
      ensures selectedView == old(selectedView) && animationSpeed == old(animationSpeed)
    {
      if code == "Space" {
        handled := true;
        TogglePlay();
      } else if code == "KeyR" {
        handled := true;
        Reset();
      } else if code == "KeyI" {
        handled := true;
        ToggleInfo();
      } else {
        handled := false;
      }
    }
  }

  /**
   * A playing demo at time 0.99 and speed 1: one tick crosses 1, lands on
   * 0.005, and adds 10 healthy and 6 CKD drops.
   */
  method TickFromNinetyNine(d: KidneyFiltrationDemo)
    requires d.Valid() && d.isPlaying && d.time == 0.99 && d.animationSpeed == 1.0
    modifies d
    ensures d.Valid()
    ensures d.time == 0.005
    ensures d.dropCount == DropCount(old(d.dropCount.healthy) + 10, old(d.dropCount.ckd) + 6)
  {
    Clock.WrapFromNinetyNine();
    d.Tick();
  }

  /** The counters keep the 10 : 6 ratio, whatever has happened since the last reset. */
  lemma DropRatio(d: KidneyFiltrationDemo)
    requires d.Valid()
    ensures 6 * d.dropCount.healthy == 10 * d.dropCount.ckd
    ensures d.dropCount.healthy % 10 == 0 && d.dropCount.ckd % 6 == 0
  {
  }
}
