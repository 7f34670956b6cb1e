/**
 * The spaceship ride of `StarCruise`: the ship's rotation follows the scroll
 * direction, its position, scale and opacity follow the progress in three
 * phases (entry below 0.01, cruise, exit above 0.99), and its engine fire
 * shows while scroll updates keep arriving.
 */
module StarCruise {
  import opened Common

  /** The target of one ship tween: horizontal offset, scale and opacity. */
  datatype Pose = Pose(x: real, scale: real, opacity: real)

  /** Entry: the ship flies in from the left edge, growing and fading in. */
  function EntryPose(p: real, w: real): Pose
  {
    Pose(-w * (1.0 - p / 0.01), p / 0.01, p / 0.01)
  }

  /** Cruise: centred, full size, opaque. */
  const CruisePose: Pose := Pose(0.0, 1.0, 1.0)

  /** Exit: the ship flies out to the right, shrinking and fading out. */
  function ExitPose(p: real, w: real): Pose
  {
    var e := (p - 0.99) / 0.01;
    Pose(w * e, 1.0 - e, 1.0 - e)
  }

  /** The pose `handleScroll` tweens toward for `progress` on a window `w` pixels wide. */
  function ShipPose(progress: real, w: real): Pose
  {
    if progress < 0.01 then EntryPose(progress, w)
    else if progress > 0.99 then ExitPose(progress, w)
    else CruisePose
  }

  /** The rotation a direction asks for: 270 degrees backward, 90 otherwise. */
  function RotationFor(direction: int): (r: real)
    ensures r == 270.0 <==> direction == -1
    ensures r == 90.0 <==> direction != -1
  {
    if direction == -1 then 270.0 else 90.0
  }

  /**
   * Over the trigger's range, scale and opacity stay in [0, 1] and are equal,
   * and the ship is never right of the centre before the exit nor left of it after the entry.
   */
  lemma ShipPoseBounds(progress: real, w: real)
    requires 0.0 <= progress <= 1.0 && w >= 0.0
    ensures var pose := ShipPose(progress, w);
      0.0 <= pose.scale <= 1.0 && pose.opacity == pose.scale
    ensures progress <= 0.99 ==> ShipPose(progress, w).x <= 0.0
    ensures progress >= 0.01 ==> ShipPose(progress, w).x >= 0.0
  {
    if progress < 0.01 {
      var f := progress / 0.01;
      assert 0.0 <= f < 1.0;
      assert -w * (1.0 - f) <= 0.0;
    } else if progress > 0.99 {
      var e := (progress - 0.99) / 0.01;
      assert 0.0 < e <= 1.0;
      assert w * e >= 0.0;
    }
  }

  /**
   * The phases meet: the entry formula reaches the cruise pose at 0.01, the
   * exit formula leaves it at 0.99; the entry starts where the ship is
   * first set (off the left edge at scale 0) and the exit ends where leaving
   * the trigger sends it (off the right edge, scale and opacity 0).
   */
  lemma PhasesAgree(w: real)
    ensures EntryPose(0.01, w) == CruisePose == ShipPose(0.01, w)
    ensures ExitPose(0.99, w) == CruisePose == ShipPose(0.99, w)
    ensures ShipPose(0.0, w) == Pose(-w, 0.0, 0.0)
    ensures ShipPose(0.0, w).x == InitialPose(w).x && ShipPose(0.0, w).scale == InitialPose(w).scale
    ensures ShipPose(1.0, w) == Pose(w, 0.0, 0.0)
  {
  }

  /**
   * The setup's `gsap.set`: off the left edge at scale 0. It sets no
   * opacity, so the element keeps its default of 1.
   */
  function InitialPose(w: real): Pose
  {
    Pose(-w, 0.0, 1.0)
  }

  /** One trigger update: the progress and direction the trigger reported. */
  datatype Update = Update(progress: real, direction: int)

  /** The closure state of the ship's scroll handling and engine fire. */
  class Cruise {
    /** The closure variable `lastDirection`. */
    var lastDirection: int
    /** The update the requested animation frame will handle, if one is requested. */
    var pendingFrame: Option<Update>
    /** Every rotation tween issued, oldest first. */
    var rotations: seq<real>
    /** The target of the last movement tween. */
    var pose: Pose
    /** The closure variable `lastScrollTime`. */
    var lastScrollTime: real
    /** The target opacity of the fire's last tween. */
    var fireOpacity: real
    /** The 16 ms colour-change interval is running. */
    var colorCycling: bool
    /** A `checkScrolling` frame is requested. */
    var polling: bool
    /** The component's scroll triggers are alive: the cleanup kills them. */
    var live: bool

    /** The setup: rotation 90, the initial pose, fire hidden. */
    constructor (w: real, now: real)
      ensures lastDirection == 1 && pendingFrame == None && rotations == []
      ensures pose == InitialPose(w)
      ensures lastScrollTime == now && fireOpacity == 0.0 && !colorCycling && !polling
      ensures live
    {
      lastDirection := 1;
      pendingFrame := None;
      rotations := [];
      pose := Pose(-w, 0.0, 1.0);
      lastScrollTime := now;
      fireOpacity := 0.0;
      colorCycling := false;
      polling := false;
      live := true;
    }

    /**
     * The timeline trigger's `onUpdate`: cancel the pending frame and
     * request one for this update. A killed trigger reports nothing.
     */
    method OnUpdate(progress: real, direction: int)
      modifies this`pendingFrame
      ensures live ==> pendingFrame == Some(Update(progress, direction))
      ensures !live ==> pendingFrame == old(pendingFrame)
    {
      if live {
        pendingFrame := Some(Update(progress, direction));
      }
    }

    /**
     * `handleScroll`: a change of direction issues one rotation and is
     * remembered; the ship is then tweened toward the pose of the progress.
     */
    method HandleScroll(progress: real, direction: int, w: real)
      modifies this`lastDirection, this`rotations, this`pose
      ensures direction != old(lastDirection) ==> rotations == old(rotations) + [RotationFor(direction)]
      ensures direction == old(lastDirection) ==> rotations == old(rotations)
      ensures lastDirection == direction
      ensures pose == ShipPose(progress, w)
    {
      if direction != lastDirection {
        rotations := rotations + [if direction == -1 then 270.0 else 90.0];
        lastDirection := direction;
      }
      if progress < 0.01 {
        pose := Pose(-w * (1.0 - progress / 0.01), progress / 0.01, progress / 0.01);
      } else if progress > 0.99 {
        var exitProgress := (progress - 0.99) / 0.01;
        pose := Pose(w * exitProgress, 1.0 - exitProgress, 1.0 - exitProgress);
      } else {
        pose := Pose(0.0, 1.0, 1.0);
      }
    }

    /** The requested frame runs: only the latest update is handled. */
    method RunFrame(w: real)
      modifies this`pendingFrame, this`lastDirection, this`rotations, this`pose
      ensures pendingFrame == None
      ensures old(pendingFrame).Some? ==>
        var u := old(pendingFrame).value;
        pose == ShipPose(u.progress, w) && lastDirection == u.direction &&
        rotations == old(rotations) + (if u.direction != old(lastDirection) then [RotationFor(u.direction)] else [])
      ensures old(pendingFrame).None? ==>
        pose == old(pose) && lastDirection == old(lastDirection) && rotations == old(rotations)
    {
      if pendingFrame.Some? {
        var u := pendingFrame.value;
        pendingFrame := None;
        HandleScroll(u.progress, u.direction, w);
      }
    }

    /** Leaving the trigger forward: fade out and fly off to the right. */
    method OnLeave(w: real)
      modifies this`pose
      ensures live ==> pose == ShipPose(1.0, w)
      ensures !live ==> pose == old(pose)
    {
      if live {
        pose := Pose(w, 0.0, 0.0);
      }
    }

    /** Coming back into the trigger: the cruise pose. */
    method OnEnterBack()
      modifies this`pose
      ensures live ==> pose == CruisePose
      ensures !live ==> pose == old(pose)
    {
      if live {
        pose := Pose(0.0, 1.0, 1.0);
      }
    }

    /** The fire trigger's `onUpdate`: note the time, show the fire, restart the colours and the polling. */
    method OnScrollActivity(now: real)
      modifies this`lastScrollTime, this`fireOpacity, this`colorCycling, this`polling
      ensures live ==> lastScrollTime == now && fireOpacity == 1.0 && colorCycling && polling
      ensures !live ==>
        lastScrollTime == old(lastScrollTime) && fireOpacity == old(fireOpacity) &&
        colorCycling == old(colorCycling) && polling == old(polling)
    {
      if live {
        lastScrollTime := now;
        fireOpacity := 1.0;
        colorCycling := true;
        polling := true;
      }
    }

    /**
     * A `checkScrolling` frame. More than 50 ms after the last update the
     * fire is hidden and the colours and polling stop; otherwise polling goes on.
     */
    method CheckScrolling(now: real)
      modifies this`fireOpacity, this`colorCycling, this`polling
      ensures old(polling) && now - lastScrollTime > 50.0 ==> fireOpacity == 0.0 && !colorCycling && !polling
      ensures old(polling) && now - lastScrollTime <= 50.0 ==>
        fireOpacity == old(fireOpacity) && colorCycling == old(colorCycling) && polling
      ensures !old(polling) ==>
        fireOpacity == old(fireOpacity) && colorCycling == old(colorCycling) && !polling
    {
      if polling {
        if now - lastScrollTime > 50.0 {
          fireOpacity := 0.0;
          colorCycling := false;
          polling := false;
        }
      }
    }

    /**
     * The cleanup: the colour interval is cleared, the `checkScrolling`
     * frame cancelled and the triggers killed. The `handleScroll` frame is
     * not cancelled, so a pending update is still handled afterwards.
     */
    method Teardown()
      modifies this`colorCycling, this`polling, this`live
      ensures !colorCycling && !polling && !live
    {
      colorCycling := false;
      polling := false;
      live := false;
    }
  }

  /**
   * Two updates before one frame: only the second is handled. Scrolling
   * back turns the ship to 270 degrees once; a second backward update does not
   * rotate it again.
   */
  method LatestUpdateWins() returns (rotations: seq<real>, pose: Pose)
    ensures rotations == [270.0]
    ensures pose == CruisePose
  {
    var c := new Cruise(1000.0, 0.0);
    c.OnUpdate(0.005, 1);
    c.OnUpdate(0.5, -1);
    c.RunFrame(1000.0);
    c.OnUpdate(0.4, -1);
    c.RunFrame(1000.0);
    rotations, pose := c.rotations, c.pose;
  }

  /**
   * An update queued just before the cleanup still moves the ship when its
   * frame runs; an update after the cleanup is never delivered.
   */
  method FrameAfterTeardown() returns (movedAfterCleanup: Pose, finalPose: Pose, pending: bool)
    ensures movedAfterCleanup == CruisePose
    ensures finalPose == CruisePose && !pending
  {
    var c := new Cruise(1000.0, 0.0);
    c.OnUpdate(0.5, 1);
    c.Teardown();
    c.RunFrame(1000.0);
    movedAfterCleanup := c.pose;
    c.OnUpdate(0.999, 1);
    c.OnLeave(1000.0);
    pending := c.pendingFrame.Some?;
    c.RunFrame(1000.0);
    finalPose := c.pose;
  }

  /** The fire stays on 50 ms after the last update and goes out just after. */
  method FireGoesOut() returns (litAt50: bool, litAt51: bool)
    ensures litAt50 && !litAt51
  {
    var c := new Cruise(1000.0, 0.0);
    c.OnScrollActivity(100.0);
    c.CheckScrolling(150.0);
    litAt50 := c.fireOpacity == 1.0 && c.colorCycling;
    c.CheckScrolling(151.0);
    litAt51 := c.fireOpacity == 1.0 || c.colorCycling;
  }
}
