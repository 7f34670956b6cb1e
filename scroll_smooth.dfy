/**
 * The deadband scroll smoother of `useScrollSmooth`.
 *
 * A page-wide ScrollTrigger reports a progress ratio; the hook turns it into
 * a target offset and, when that target is more than one pixel away from the
 * last one it acted on (`lastY`), starts a window tween whose every update
 * jumps straight to the target. The tween is represented only by the target
 * it writes; its duration and easing belong to the animation library.
 */
module ScrollSmooth {
  import opened Common

  /** The hook's default tween duration, in seconds. */
  const DefaultDuration: real := 1.0

  /** The page's scrollable distance times the reported progress. */
  function TargetOffset(progress: real, scrollHeight: real, innerHeight: real): (y: real)
    ensures progress == 0.0 || scrollHeight == innerHeight ==> y == 0.0
    ensures 0.0 <= progress <= 1.0 && innerHeight <= scrollHeight ==> 0.0 <= y <= scrollHeight - innerHeight
    ensures 0.0 < progress && scrollHeight < innerHeight ==> y < 0.0
  {
    FractionOf(progress * (scrollHeight - innerHeight), progress, scrollHeight - innerHeight);
    progress * (scrollHeight - innerHeight)
  }

  /** A write sequence starts only when the target is more than one pixel from `lastY`. */
  predicate StartsWrite(lastY: real, target: real)
  {
    Abs(lastY - target) > 1.0
  }

  /**
   * With 1000 pixels to scroll: progress 0.37 is 370, which a `lastY` of
   * 369.4 absorbs; progress 0.40 is 400, which starts a write.
   */
  lemma DeadbandScenario()
    ensures TargetOffset(0.37, 1800.0, 800.0) == 370.0 && !StartsWrite(369.4, 370.0)
    ensures TargetOffset(0.40, 1800.0, 800.0) == 400.0 && StartsWrite(369.4, 400.0)
  {
  }

  datatype Behavior = Auto | Smooth

  /** One `window.scrollTo({ top, behavior })`. */
  datatype ScrollWrite = ScrollWrite(top: real, behavior: Behavior)

  /** Every write of the log is an instant jump to `top`. */
  predicate AllJumpsTo(log: seq<ScrollWrite>, from: nat, top: real)
    requires from <= |log|
  {
    forall k :: from <= k < |log| ==> log[k] == ScrollWrite(top, Auto)
  }

  /** The hook's closure state for one activation, with the page it scrolls. */
  class DeadbandSmoother {
    /** The `smoothness` argument: the tween's duration. */
    const duration: real
    /** The ScrollTrigger this activation created. */
    const own: nat
    /** The closure variable `lastY`. */
    var lastY: real
    /** The target of the window tween still running, if any. */
    var tween: Option<real>
    /** Every ScrollTrigger alive on the page. */
    var triggers: set<nat>
    /** The window's scroll offset. */
    var scrollY: real
    /** Every `window.scrollTo` issued by a tween update, oldest first. */
    var writes: seq<ScrollWrite>

    /**
     * Activation: `lastY` starts at the window's scroll offset and one more
     * ScrollTrigger joins the page's `others`.
     */
    constructor (smoothness: real, pageOffset: real, others: set<nat>, id: nat)
      requires id !in others
      ensures duration == smoothness && own == id
      ensures lastY == pageOffset && scrollY == pageOffset
      ensures tween == None && writes == []
      ensures triggers == others + {id}
    {
      duration, own := smoothness, id;
      lastY, scrollY := pageOffset, pageOffset;
      tween := None;
      triggers := others + {id};
      writes := [];
    }

    /**
     * The trigger's `onUpdate`. Delivered only while the trigger is alive. A
     * target more than a pixel from `lastY` replaces any running tween with
     * one toward it and becomes `lastY`; otherwise nothing changes.
     */
    method OnUpdate(progress: real, scrollHeight: real, innerHeight: real)
      modifies this`lastY, this`tween
      ensures var target := TargetOffset(progress, scrollHeight, innerHeight);
        if own in triggers && StartsWrite(old(lastY), target) then
          tween == Some(target) && lastY == target
        else
          tween == old(tween) && lastY == old(lastY)
    {
      if own in triggers {
        var targetY := progress * (scrollHeight - innerHeight);
        if Abs(lastY - targetY) > 1.0 {
          tween := Some(targetY);
          lastY := targetY;
        }
      }
    }

    /** One update of the running tween: an instant jump to exactly its target. */
    method TweenUpdate()
      modifies this`scrollY, this`writes
      ensures tween.Some? ==> writes == old(writes) + [ScrollWrite(tween.value, Auto)] && scrollY == tween.value
      ensures tween.None? ==> writes == old(writes) && scrollY == old(scrollY)
    {
      if tween.Some? {
        writes := writes + [ScrollWrite(tween.value, Auto)];
        scrollY := tween.value;
      }
    }

    /** The tween runs out its duration. */
    method TweenComplete()
      modifies this`tween
      ensures tween == None
    {
      tween := None;
    }

    /**
     * The cleanup kills every ScrollTrigger on the page, including those
     * other components created. A tween already started is not among them.
     */
    method Teardown()
      modifies this`triggers
      ensures triggers == {}
    {
      triggers := {};
    }

    /**
     * However many updates a tween receives, each writes the same target
     * with behavior "auto": the tween's own interpolated value is never used.
     */
    method RunTween(updates: nat)
      requires tween.Some?
      modifies this`scrollY, this`writes
      ensures |writes| == |old(writes)| + updates
      ensures writes[..|old(writes)|] == old(writes)
      ensures AllJumpsTo(writes, |old(writes)|, tween.value)
      ensures updates > 0 ==> scrollY == tween.value
    {
      var i := 0;
      while i < updates
        invariant 0 <= i <= updates
        invariant |writes| == |old(writes)| + i
        invariant writes[..|old(writes)|] == old(writes)
        invariant AllJumpsTo(writes, |old(writes)|, tween.value)
        invariant i > 0 ==> scrollY == tween.value
      {
        TweenUpdate();
        i := i + 1;
      }
    }
  }

  /** A target within the deadband of `lastY` starts nothing, and `lastY` stays put. */
  method SmallChangeIgnored() returns (started: bool, last: real)
    ensures !started && last == 369.4
  {
    var sm := new DeadbandSmoother(DefaultDuration, 369.4, {}, 0);
    sm.OnUpdate(0.37, 1800.0, 800.0);
    started, last := sm.tween.Some?, sm.lastY;
  }

  /** After teardown a progress update no longer reaches the hook, however far it moves. */
  method SilentAfterTeardown() returns (started: bool)
    ensures !started
  {
    var sm := new DeadbandSmoother(DefaultDuration, 0.0, {7}, 0);
    sm.Teardown();
    sm.OnUpdate(1.0, 5000.0, 800.0);
    started := sm.tween.Some?;
  }
}
