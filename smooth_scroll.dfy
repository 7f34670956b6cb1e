/**
 * The frame-driven scroll smoother of `useSmoothScroll`.
 *
 * The hook keeps two offsets, `targetY` (where the page was last reported to
 * be) and `currentY` (where the smoother has got to). A scroll listener copies
 * the window's scroll offset into `targetY`; a self-rescheduling animation
 * frame closes the fraction `smoothness` of the gap and scrolls the window to
 * the rounded `currentY`. The window's scroll offset is the field `scrollY`:
 * the frame writes it and the listener reads it back, so the smoother's own
 * writes reach `targetY` through the next scroll notification.
 */
module SmoothScroll {
  import opened Common

  /** The hook's default smoothing factor. */
  const DefaultSmoothness: real := 0.1

  /** One step of the approach: `current` moves the fraction `s` of the way to `target`. */
  function StepValue(current: real, target: real, s: real): real
  {
    current + (target - current) * s
  }

  /** A step leaves the fraction `1 - s` of the gap to the target. */
  lemma StepGap(current: real, target: real, s: real)
    ensures target - StepValue(current, target, s) == (1.0 - s) * (target - current)
  {
  }

  /** Where `current` is after `n` steps toward a target that stays put. */
  function Approach(current: real, target: real, s: real, n: nat): real
  {
    if n == 0 then current else StepValue(Approach(current, target, s, n - 1), target, s)
  }

  /** Convergence: after `n` steps the gap is `(1 - s)^n` times the first gap. */
  lemma {:induction false} GapAfterSteps(current: real, target: real, s: real, n: nat)
    ensures target - Approach(current, target, s, n) == Pow(1.0 - s, n) * (target - current)
  {
    if n > 0 {
      GapAfterSteps(current, target, s, n - 1);
      GapInduct(current, target, s, n);
    }
  }

  /** The inductive step of `GapAfterSteps`: one more step multiplies the gap by `1 - s`. */
  lemma GapInduct(current: real, target: real, s: real, n: nat)
    requires n > 0
    requires target - Approach(current, target, s, n - 1) == Pow(1.0 - s, n - 1) * (target - current)
    ensures target - Approach(current, target, s, n) == Pow(1.0 - s, n) * (target - current)
  {
    ApproachStep(current, target, s, n);
    PowStep(1.0 - s, n);
    GapStep(target - Approach(current, target, s, n), target - Approach(current, target, s, n - 1),
            1.0 - s, Pow(1.0 - s, n - 1), target - current, Pow(1.0 - s, n));
  }

  lemma ApproachStep(current: real, target: real, s: real, n: nat)
    requires n > 0
    ensures target - Approach(current, target, s, n) == (1.0 - s) * (target - Approach(current, target, s, n - 1))
  {
    StepGap(Approach(current, target, s, n - 1), target, s);
  }

  lemma PowStep(b: real, n: nat)
    requires n > 0
    ensures Pow(b, n) == b * Pow(b, n - 1)
  {
  }

  /** One more factor `q` on a gap that is already `p` times the first gap `d`. */
  lemma GapStep(after: real, before: real, q: real, p: real, d: real, qp: real)
    requires after == q * before && before == p * d && qp == q * p
    ensures after == qp * d
  {
    Associate(q, p, d);
  }

  lemma Associate(a: real, b: real, c: real)
    ensures a * (b * c) == (a * b) * c
  {
  }

  /**
   * No overshoot: with `0 < s <= 1` every position lies between the start and
   * the target, on the start's side.
   */
  lemma NoOvershoot(current: real, target: real, s: real, n: nat)
    requires 0.0 < s <= 1.0
    ensures current <= target ==> current <= Approach(current, target, s, n) <= target
    ensures target <= current ==> target <= Approach(current, target, s, n) <= current
  {
    GapAfterSteps(current, target, s, n);
    PowBounds(1.0 - s, n);
    FractionOf(target - Approach(current, target, s, n), Pow(1.0 - s, n), target - current);
  }

  /**
   * With `0 < s < 1` the gap never closes, keeps its sign, and strictly
   * shrinks at every step.
   */
  lemma GapShrinks(current: real, target: real, s: real, n: nat)
    requires 0.0 < s < 1.0 && current != target
    ensures target - Approach(current, target, s, n) != 0.0
    ensures target - Approach(current, target, s, n) > 0.0 ==>
      0.0 < target - Approach(current, target, s, n + 1) < target - Approach(current, target, s, n)
    ensures target - Approach(current, target, s, n) < 0.0 ==>
      target - Approach(current, target, s, n) < target - Approach(current, target, s, n + 1) < 0.0
  {
    GapNeverCloses(current, target, s, n);
    StepShrinks(Approach(current, target, s, n), target, s);
  }

  lemma GapNeverCloses(current: real, target: real, s: real, n: nat)
    requires 0.0 < s < 1.0 && current != target
    ensures target - Approach(current, target, s, n) != 0.0
  {
    GapAfterSteps(current, target, s, n);
    PowBounds(1.0 - s, n);
    NonzeroProduct(target - Approach(current, target, s, n), Pow(1.0 - s, n), target - current);
  }

  /** One step from `x` moves strictly toward the target without reaching or passing it. */
  lemma StepShrinks(x: real, target: real, s: real)
    requires 0.0 < s < 1.0
    ensures target - x > 0.0 ==> 0.0 < target - StepValue(x, target, s) < target - x
    ensures target - x < 0.0 ==> target - x < target - StepValue(x, target, s) < 0.0
  {
    StepGap(x, target, s);
    Toward(target - StepValue(x, target, s), 1.0 - s, target - x);
  }

  /** A product `p` of two non-zero numbers is non-zero. */
  lemma NonzeroProduct(p: real, a: real, b: real)
    requires p == a * b && a != 0.0 && b != 0.0
    ensures p != 0.0
  {
    NonzeroFactors(a, b);
  }

  lemma NonzeroFactors(a: real, b: real)
    requires a != 0.0 && b != 0.0
    ensures a * b != 0.0
  {
  }

  /** `h`, a fraction `q` strictly between 0 and 1 of `g`, lies strictly between 0 and `g`. */
  lemma Toward(h: real, q: real, g: real)
    requires h == q * g && 0.0 < q < 1.0
    ensures g > 0.0 ==> 0.0 < h < g
    ensures g < 0.0 ==> g < h < 0.0
  {
    if g > 0.0 {
      ShrinkPositive(q, g);
    } else if g < 0.0 {
      ShrinkNegative(q, g);
    }
  }

  lemma ShrinkPositive(q: real, g: real)
    requires 0.0 < q < 1.0 && g > 0.0
    ensures q * g < g
    ensures 0.0 < q * g
  {
  }

  lemma ShrinkNegative(q: real, g: real)
    requires 0.0 < q < 1.0 && g < 0.0
    ensures g < q * g
    ensures q * g < 0.0
  {
  }

  /** With `s = 1` the first step lands exactly on the target, and it stays there. */
  lemma {:induction false} LandsWithFullSmoothness(current: real, target: real, n: nat)
    requires n >= 1
    ensures Approach(current, target, 1.0, n) == target
  {
    if n > 1 {
      LandsWithFullSmoothness(current, target, n - 1);
    }
  }

  /** With smoothness 0.5 from 0 toward 100: positions 50, 75, 87.5 and writes 50, 75, 88. */
  lemma HalfwayScenario()
    ensures Approach(0.0, 100.0, 0.5, 1) == 50.0 && Round(Approach(0.0, 100.0, 0.5, 1)) == 50
    ensures Approach(0.0, 100.0, 0.5, 2) == 75.0 && Round(Approach(0.0, 100.0, 0.5, 2)) == 75
    ensures Approach(0.0, 100.0, 0.5, 3) == 87.5 && Round(Approach(0.0, 100.0, 0.5, 3)) == 88
  {
  }

  /** What the window may do to the smoother between frames. */
  datatype Event = UserScroll(y: real) | ScrollNotification | DisplayFrame

  /**
   * The hook's refs and effect for one mounted component, together with the
   * window it scrolls.
   */
  class Smoother {
    /** The `smoothness` argument of the effect currently installed. */
    var smoothness: real
    /** `targetY.current`. */
    var targetY: real
    /** `currentY.current`, never rounded. */
    var currentY: real
    /** `rafId.current` names a frame that has been requested and not yet run or cancelled. */
    var framePending: bool
    /** `handleScroll` is registered as a scroll listener. */
    var listening: bool
    /** The window's scroll offset, `window.scrollY`. */
    var scrollY: real
    /** Every `window.scrollTo(0, y)` issued by the frame step, oldest first. */
    var writes: seq<int>

    /** Mounted: listening to scroll and stepping every frame. */
    predicate Running()
      reads this
    {
      framePending && listening
    }

    /** Not mounted, or torn down: no listener and no pending frame. */
    predicate Idle()
      reads this
    {
      !framePending && !listening
    }

    /** The refs are created at 0, whatever the page's scroll offset is. */
    constructor (pageOffset: real)
      ensures targetY == 0.0 && currentY == 0.0
      ensures scrollY == pageOffset && writes == []
      ensures Idle()
    {
      smoothness := DefaultSmoothness;
      targetY, currentY := 0.0, 0.0;
      framePending, listening := false, false;
      scrollY := pageOffset;
      writes := [];
    }

    /** The effect: request the first frame and register the passive scroll listener. */
    method Start(s: real)
      requires Idle()
      modifies this
      ensures Running() && smoothness == s
      ensures targetY == old(targetY) && currentY == old(currentY)
      ensures scrollY == old(scrollY) && writes == old(writes)
    {
      smoothness := s;
      framePending := true;
      listening := true;
    }

    /** Something other than the smoother moves the page (the user, a link, the browser). */
    method UserScroll(y: real)
      modifies this`scrollY
      ensures scrollY == y
    {
      scrollY := y;
    }

    /**
     * The window delivers a scroll notification. A registered `handleScroll`
     * copies the window's offset into `targetY` and touches nothing else.
     */
    method DeliverScroll()
      modifies this`targetY
      ensures listening ==> targetY == scrollY
      ensures !listening ==> targetY == old(targetY)
    {
      if listening {
        targetY := scrollY;
      }
    }

    /**
     * A display refresh. If a frame is pending, `animate` runs: it reads
     * `targetY` once, closes the fraction `smoothness` of the gap, scrolls the
     * window to the rounded position (keeping `currentY` unrounded) and
     * requests the next frame, whether or not anything moved. With no frame
     * pending nothing happens.
     */
    method Frame()
      modifies this`currentY, this`scrollY, this`writes, this`framePending
      ensures old(framePending) ==> currentY == StepValue(old(currentY), targetY, smoothness)
      ensures old(framePending) ==> scrollY == Round(currentY) as real
      ensures old(framePending) ==> writes == old(writes) + [Round(currentY)]
      ensures old(framePending) ==> framePending
      ensures !old(framePending) ==>
        currentY == old(currentY) && scrollY == old(scrollY) && writes == old(writes) && !framePending
    {
      if framePending {
        var diff := targetY - currentY;
        currentY := currentY + diff * smoothness;
        var y := Round(currentY);
        scrollY := y as real;
        writes := writes + [y];
        framePending := true;
      }
    }

    /** The cleanup: remove the listener and cancel the pending frame. */
    method Teardown()
      modifies this`listening, this`framePending
      ensures Idle()
    {
      listening := false;
      framePending := false;
    }

    /** The window plays `events` against the smoother; after teardown none of them writes. */
    method Replay(events: seq<Event>)
      requires Idle()
      modifies this
      ensures Idle() && writes == old(writes) && currentY == old(currentY) && targetY == old(targetY)
    {
      var i := 0;
      while i < |events|
        invariant 0 <= i <= |events|
        invariant Idle() && writes == old(writes) && currentY == old(currentY) && targetY == old(targetY)
      {
        match events[i] {
          case UserScroll(y) => UserScroll(y);
          case ScrollNotification => DeliverScroll();
          case DisplayFrame => Frame();
        }
        i := i + 1;
      }
    }
  }

  /**
   * Three frames at smoothness 0.5 toward a target of 100 set by one user
   * scroll, with no scroll notification delivered between frames.
   */
  method HalfwayFrames() returns (positions: seq<real>, written: seq<int>)
    ensures positions == [50.0, 75.0, 87.5]
    ensures written == [50, 75, 88]
  {
    var sm := new Smoother(0.0);
    sm.Start(0.5);
    sm.UserScroll(100.0);
    sm.DeliverScroll();
    sm.Frame();
    var p1 := sm.currentY;
    sm.Frame();
    var p2 := sm.currentY;
    sm.Frame();
    positions := [p1, p2, sm.currentY];
    written := sm.writes;
  }

  /**
   * The smoother's own write feeds back into its target: at the default
   * smoothness a 4-pixel scroll from rest moves `currentY` to 0.4, the frame
   * writes `Math.round(0.4) = 0`, and the scroll notification for that write
   * resets `targetY` to 0, so the page ends where it started.
   */
  method OwnWriteFeedsBack() returns (target: real, page: real, written: seq<int>)
    ensures written == [0]
    ensures target == 0.0 && page == 0.0
  {
    var sm := new Smoother(0.0);
    sm.Start(DefaultSmoothness);
    sm.UserScroll(4.0);
    sm.DeliverScroll();
    sm.Frame();
    sm.DeliverScroll();
    target, page, written := sm.targetY, sm.scrollY, sm.writes;
  }
}
