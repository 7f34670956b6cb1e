/**
 * The asteroid scene of `StellarSkills`: scroll direction and activity
 * tracking, and the per-asteroid position and size computed in a batched
 * animation frame.
 *
 * The asteroid configuration table lives in a file that is not part of this
 * model; it is a parameter here, one `Entry` per technology.
 */
module StellarSkills {
  import opened Common

  /** The configuration of one asteroid: its delay, largest size and start offsets. */
  datatype AsteroidConfig = AsteroidConfig(delay: real, maxSize: real, startTop: real, startRight: real)

  /** One `[tech, config]` pair of `Object.entries(ASTEROID_CONFIGS)`. */
  datatype Entry = Entry(tech: string, config: AsteroidConfig)

  /** The window's size when the component first rendered. */
  datatype Viewport = Viewport(innerWidth: real, innerHeight: real)

  /** Where one asteroid is placed by `gsap.set`. */
  datatype Placement = Placement(tech: string, top: real, right: real)

  /** The distance an asteroid travels: past the viewport by 350 pixels. */
  function MaxTop(vp: Viewport): real { vp.innerHeight + 350.0 }
  function MaxRight(vp: Viewport): real { vp.innerWidth + 350.0 }

  /** How far along its own path an asteroid is: the progress past its delay, never negative. */
  function TechProgress(progress: real, delay: real): (t: real)
    ensures t >= 0.0 && t >= progress - delay
    ensures t == 0.0 || t == progress - delay
  {
    Max(0.0, progress - delay)
  }

  /** `Math.round(techProgress * maxSize)`. */
  function AsteroidSize(progress: real, config: AsteroidConfig): int
  {
    Round(TechProgress(progress, config.delay) * config.maxSize)
  }

  function PlacementOf(progress: real, e: Entry, vp: Viewport): Placement
  {
    var t := TechProgress(progress, e.config.delay);
    Placement(e.tech, t * MaxTop(vp) + e.config.startTop, t * MaxRight(vp) + e.config.startRight)
  }

  /**
   * Until the progress passes an asteroid's delay it sits at its start
   * offsets with size 0; inside the visible range its size never exceeds its
   * largest size by more than rounding.
   */
  lemma AsteroidBounds(progress: real, e: Entry, vp: Viewport)
    requires 0.0 <= e.config.delay && 0.0 <= e.config.maxSize
    ensures progress <= e.config.delay ==>
      AsteroidSize(progress, e.config) == 0 &&
      PlacementOf(progress, e, vp) == Placement(e.tech, e.config.startTop, e.config.startRight)
    ensures progress < 1.0 ==> 0 <= AsteroidSize(progress, e.config) && AsteroidSize(progress, e.config) as real <= e.config.maxSize + 0.5
  {
    var t := TechProgress(progress, e.config.delay);
    if progress < 1.0 {
      assert 0.0 <= t <= 1.0;
      FractionOf(t * e.config.maxSize, t, e.config.maxSize);
    }
  }

  /** The technologies of `entries` are distinct, as the keys of an object are. */
  predicate DistinctTechs(entries: seq<Entry>)
  {
    forall i, j :: 0 <= i < j < |entries| ==> entries[i].tech != entries[j].tech
  }

  /** The size map a frame builds: one entry per asteroid that has an element. */
  function SizesFor(progress: real, entries: seq<Entry>, mounted: set<string>): map<string, int>
  {
    if entries == [] then map[]
    else
      var rest := SizesFor(progress, entries[..|entries| - 1], mounted);
      var e := entries[|entries| - 1];
      if e.tech in mounted then rest[e.tech := AsteroidSize(progress, e.config)] else rest
  }

  /** The placements a frame issues, in table order, skipping asteroids with no element. */
  function PlacementsFor(progress: real, entries: seq<Entry>, mounted: set<string>, vp: Viewport): seq<Placement>
  {
    if entries == [] then []
    else
      var rest := PlacementsFor(progress, entries[..|entries| - 1], mounted, vp);
      var e := entries[|entries| - 1];
      if e.tech in mounted then rest + [PlacementOf(progress, e, vp)] else rest
  }

  /**
   * The size map holds exactly the mounted asteroids of the table, each with
   * the size its own configuration gives.
   */
  lemma {:induction false} SizesForExactly(progress: real, entries: seq<Entry>, mounted: set<string>)
    requires DistinctTechs(entries)
    ensures forall t :: t in SizesFor(progress, entries, mounted) <==>
      t in mounted && exists k :: 0 <= k < |entries| && entries[k].tech == t
    ensures forall k :: 0 <= k < |entries| && entries[k].tech in mounted ==>
      SizesFor(progress, entries, mounted)[entries[k].tech] == AsteroidSize(progress, entries[k].config)
  {
    if entries != [] {
      var init := entries[..|entries| - 1];
      assert DistinctTechs(init);
      SizesForExactly(progress, init, mounted);
      forall t | t in SizesFor(progress, entries, mounted)
        ensures t in mounted && exists k :: 0 <= k < |entries| && entries[k].tech == t
      {
        if t != entries[|entries| - 1].tech {
          var k :| 0 <= k < |init| && init[k].tech == t;
          assert entries[k].tech == t;
        }
      }
      forall t | t in mounted && exists k :: 0 <= k < |entries| && entries[k].tech == t
        ensures t in SizesFor(progress, entries, mounted)
      {
        var k :| 0 <= k < |entries| && entries[k].tech == t;
        if k < |init| {
          assert init[k].tech == t;
        }
      }
    }
  }

  /** The `|| 0` of the render: an asteroid with no entry is drawn at size 0. */
  function RenderedSize(sizes: map<string, int>, tech: string): (size: int)
    ensures tech !in sizes ==> size == 0
    ensures tech in sizes ==> size == sizes[tech]
  {
    if tech in sizes then sizes[tech] else 0
  }

  /**
   * The body of the requested frame: walks the table, skips asteroids with
   * no element, places the rest and collects their sizes.
   */
  method ComputeFrame(progress: real, entries: seq<Entry>, mounted: set<string>, vp: Viewport)
    returns (sizes: map<string, int>, placements: seq<Placement>)
    ensures sizes == SizesFor(progress, entries, mounted)
    ensures placements == PlacementsFor(progress, entries, mounted, vp)
  {
    sizes := map[];
    placements := [];
    var i := 0;
    while i < |entries|
      invariant 0 <= i <= |entries|
      invariant sizes == SizesFor(progress, entries[..i], mounted)
      invariant placements == PlacementsFor(progress, entries[..i], mounted, vp)
    {
      var e := entries[i];
      assert entries[..i + 1][..i] == entries[..i];
      assert entries[..i + 1][i] == e;
      if e.tech in mounted {
        var t := Max(0.0, progress - e.config.delay);
        var top := t * (vp.innerHeight + 350.0) + e.config.startTop;
        var right := t * (vp.innerWidth + 350.0) + e.config.startRight;
        assert t == TechProgress(progress, e.config.delay);
        assert Round(t * e.config.maxSize) == AsteroidSize(progress, e.config);
        sizes := sizes[e.tech := Round(t * e.config.maxSize)];
        placements := placements + [Placement(e.tech, top, right)];
        assert placements[|placements| - 1] == PlacementOf(progress, e, vp);
      }
      i := i + 1;
    }
    assert entries[..|entries|] == entries;
  }

  /** The scroll-driven state of the scene and the one frame it may have requested. */
  class SkillsTracker {
    /** The `scrollProgress` state handed to every asteroid. */
    var scrollProgress: real
    /** `lastScrollProgress.current`. */
    var lastScrollProgress: real
    var isScrollingBackward: bool
    var isScrollingActive: bool
    /** When the armed inactivity timer fires, if one is armed. */
    var timerDeadline: Option<real>
    /** The progress the requested animation frame will lay out, if one is requested. */
    var pendingFrame: Option<real>
    /** The `asteroidSizes` state. */
    var sizes: map<string, int>
    /** The placements of the last frame that ran. */
    var placements: seq<Placement>

    /** Scrolling is active exactly while an inactivity timer is armed. */
    predicate Valid()
      reads this
    {
      isScrollingActive <==> timerDeadline.Some?
    }

    constructor ()
      ensures Valid()
      ensures scrollProgress == 0.0 && lastScrollProgress == 0.0
      ensures !isScrollingBackward && !isScrollingActive
      ensures timerDeadline == None && pendingFrame == None
      ensures sizes == map[] && placements == []
    {
      scrollProgress, lastScrollProgress := 0.0, 0.0;
      isScrollingBackward, isScrollingActive := false, false;
      timerDeadline, pendingFrame := None, None;
      sizes, placements := map[], [];
    }

    /**
     * `handleScrollUpdate`. Progress, direction and activity are updated on
     * every call and the inactivity timer is re-armed for 100 ms from `now`;
     * only a progress strictly inside (0, 1) replaces the requested frame.
     */
    method HandleScrollUpdate(progress: real, now: real)
      modifies this`scrollProgress, this`lastScrollProgress, this`isScrollingBackward,
        this`isScrollingActive, this`timerDeadline, this`pendingFrame
      ensures Valid()
      ensures scrollProgress == progress && lastScrollProgress == progress
      ensures progress > old(lastScrollProgress) ==> !isScrollingBackward
      ensures progress < old(lastScrollProgress) ==> isScrollingBackward
      ensures progress == old(lastScrollProgress) ==> isScrollingBackward == old(isScrollingBackward)
      ensures isScrollingActive && timerDeadline == Some(now + 100.0)
      ensures 0.0 < progress < 1.0 ==> pendingFrame == Some(progress)
      ensures !(0.0 < progress < 1.0) ==> pendingFrame == old(pendingFrame)
    {
      var previousProgress := lastScrollProgress;
      scrollProgress := progress;
      if progress > previousProgress {
        isScrollingBackward := false;
      } else if progress < previousProgress {
        isScrollingBackward := true;
      }
      lastScrollProgress := progress;
      isScrollingActive := true;
      timerDeadline := Some(now + 100.0);
      if progress <= 0.0 || progress >= 1.0 {
        return;
      }
      pendingFrame := Some(progress);
    }

    /** The clock reaches `now`: a due inactivity timer marks scrolling inactive. */
    method TimerTick(now: real)
      requires Valid()
      modifies this`isScrollingActive, this`timerDeadline
      ensures Valid()
      ensures old(timerDeadline).Some? && now >= old(timerDeadline).value ==> !isScrollingActive
      ensures !(old(timerDeadline).Some? && now >= old(timerDeadline).value) ==>
        isScrollingActive == old(isScrollingActive) && timerDeadline == old(timerDeadline)
    {
      if timerDeadline.Some? && now >= timerDeadline.value {
        isScrollingActive := false;
        timerDeadline := None;
      }
    }

    /** The requested frame runs: the size map is replaced wholesale. */
    method RunFrame(entries: seq<Entry>, mounted: set<string>, vp: Viewport)
      modifies this`sizes, this`placements, this`pendingFrame
      ensures old(pendingFrame).Some? ==>
        sizes == SizesFor(old(pendingFrame).value, entries, mounted) &&
        placements == PlacementsFor(old(pendingFrame).value, entries, mounted, vp)
      ensures old(pendingFrame).None? ==> sizes == old(sizes) && placements == old(placements)
      ensures pendingFrame == None
    {
      if pendingFrame.Some? {
        sizes, placements := ComputeFrame(pendingFrame.value, entries, mounted, vp);
        pendingFrame := None;
      }
    }

    /** The unmount cleanup: clear the timer and cancel the frame. */
    method Unmount()
      modifies this`timerDeadline, this`pendingFrame
      ensures timerDeadline == None && pendingFrame == None
    {
      timerDeadline := None;
      pendingFrame := None;
    }
  }

  /**
   * Scrolling stays active until 100 ms after the LAST update: an update at
   * 0 and another at 60 keep it active at 120, and it ends at 160.
   */
  method ActivityDebounce() returns (activeAt120: bool, activeAt160: bool)
    ensures activeAt120 && !activeAt160
  {
    var s := new SkillsTracker();
    s.HandleScrollUpdate(0.2, 0.0);
    s.HandleScrollUpdate(0.3, 60.0);
    s.TimerTick(120.0);
    activeAt120 := s.isScrollingActive;
    s.TimerTick(160.0);
    activeAt160 := s.isScrollingActive;
  }

  /**
   * A progress of 1 skips the layout but still records progress, direction
   * and activity; the frame requested by an earlier in-range update stays
   * pending with the earlier progress.
   */
  method EndOfRangeSkipsLayout() returns (pending: Option<real>, progress: real, backward: bool, active: bool)
    ensures pending == Some(0.5) && progress == 1.0 && !backward && active
  {
    var s := new SkillsTracker();
    s.HandleScrollUpdate(0.5, 0.0);
    s.HandleScrollUpdate(1.0, 10.0);
    pending, progress, backward, active := s.pendingFrame, s.scrollProgress, s.isScrollingBackward, s.isScrollingActive;
  }
}
