/**
 * One asteroid of `SkillAsteroid`: its dots and rays light up while the page
 * scrolls, each ray filled with a two-colour linear gradient that is cached
 * by ray index, and its label shows only at rest.
 *
 * The SVG `<defs>` is a map from ray index to the stops of the gradient with
 * id `rayGradient{index}`; the random colour and the sine-driven flow
 * position are parameters.
 */
module SkillAsteroid {
  import opened Common

  /** A `stop-color`: a colour string, or `transparent`. */
  datatype StopColor = Colour(value: string) | Transparent

  /** One `<stop>`: its offset in percent and its colour. */
  datatype Stop = Stop(offset: real, color: StopColor)

  /** The fill reference `url(#rayGradient{index})`. */
  datatype GradientRef = GradientRef(index: nat)

  /** What the cache remembers under a gradient id. */
  datatype CacheEntry = CacheEntry(color: string, flowPosition: real, gradient: GradientRef)

  /** The stops of a lit ray: the colour up to the flow position, transparent after it. */
  function FlowStops(color: string, flowPosition: real): (stops: seq<Stop>)
    ensures |stops| == 4
    ensures stops[0].offset == 0.0 && stops[3].offset == 100.0
    ensures stops[1].offset == flowPosition == stops[2].offset
    ensures forall k :: 0 <= k < 2 ==> stops[k].color == Colour(color)
    ensures forall k :: 2 <= k < 4 ==> stops[k].color == Transparent
    ensures 0.0 <= flowPosition <= 100.0 ==>
      forall k :: 0 <= k < 3 ==> stops[k].offset <= stops[k + 1].offset
  {
    [Stop(0.0, Colour(color)), Stop(flowPosition, Colour(color)),
     Stop(flowPosition, Transparent), Stop(100.0, Transparent)]
  }

  /** The `i`-th stop of a fading ray. */
  function FadeStop(i: nat): Stop
  {
    Stop(i as real * 33.33, Transparent)
  }

  /** The stops of a fading ray: four transparent stops, `33.33` percent apart. */
  function FadeOutStops(): (stops: seq<Stop>)
    ensures |stops| == 4
    ensures forall k :: 0 <= k < 4 ==> stops[k] == FadeStop(k)
  {
    [FadeStop(0), FadeStop(1), FadeStop(2), FadeStop(3)]
  }

  /**
   * A fading ray is fully transparent, its last stop sits at 99.99 percent,
   * and it never looks like a lit ray, whatever the colour and flow position.
   */
  lemma FadeOutDiffersFromFlow(color: string, flowPosition: real)
    ensures forall k :: 0 <= k < |FadeOutStops()| ==> FadeOutStops()[k].color == Transparent
    ensures FadeOutStops()[3].offset == 99.99
    ensures FadeOutStops() != FlowStops(color, flowPosition)
  {
    assert FadeOutStops()[0].color != FlowStops(color, flowPosition)[0].color;
  }

  /** The gradients of one asteroid's SVG and the component's `gradientCache`. */
  class RayGradients {
    /** `gradientCache.current`, keyed by ray index. */
    var cache: map<nat, CacheEntry>
    /** The `linearGradient`s inside the SVG's `<defs>`, keyed by ray index. */
    var defs: map<nat, seq<Stop>>
    /** The SVG has a `<defs>` element. */
    var hasDefs: bool

    /** Every cache entry's stored reference names the id it is stored under. */
    predicate Valid()
      reads this
    {
      forall i :: i in cache ==> cache[i].gradient == GradientRef(i)
    }

    /** Every cache entry describes the gradient the SVG holds under its id. */
    predicate Coherent()
      reads this
    {
      forall i :: i in cache ==>
        i in defs && defs[i] == FlowStops(cache[i].color, cache[i].flowPosition)
    }

    /** Mounted: an empty cache over an SVG with no gradients yet. */
    constructor ()
      ensures cache == map[] && defs == map[] && !hasDefs
      ensures Valid() && Coherent()
    {
      cache := map[];
      defs := map[];
      hasDefs := false;
    }

    /**
     * `createGradient`. A cache entry with the same colour and flow position
     * is returned without touching the SVG. Otherwise, inside an SVG, the
     * gradient under this id is replaced by a fresh one and remembered;
     * outside one nothing is built and nothing is cached. The reference is
     * always the ray's own id.
     */
    method CreateGradient(index: nat, color: string, flowPosition: real, inSvg: bool) returns (g: GradientRef)
      requires Valid()
      modifies this
      ensures g == GradientRef(index)
      ensures Valid()
      ensures old(Coherent()) ==> Coherent()
      ensures var hit := index in old(cache) && old(cache)[index].color == color &&
                         old(cache)[index].flowPosition == flowPosition;
        if hit || !inSvg then
          cache == old(cache) && defs == old(defs) && hasDefs == old(hasDefs)
        else
          cache == old(cache)[index := CacheEntry(color, flowPosition, g)] &&
          defs == old(defs)[index := FlowStops(color, flowPosition)] && hasDefs
    {
      if index in cache {
        var cached := cache[index];
        if cached.color == color && cached.flowPosition == flowPosition {
          return cached.gradient;
        }
      }
      g := GradientRef(index);
      if !inSvg {
        return;
      }
      hasDefs := true;
      var stops := [Stop(0.0, Colour(color)), Stop(flowPosition, Colour(color)),
                    Stop(flowPosition, Transparent), Stop(100.0, Transparent)];
      defs := defs[index := stops];
      cache := cache[index := CacheEntry(color, flowPosition, g)];
    }

    /**
     * `createFadeOutGradient`: inside an SVG the gradient under this id is
     * replaced by four transparent stops. The cache is left alone, so an
     * entry for this ray no longer describes what the SVG shows.
     */
    method CreateFadeOutGradient(index: nat, inSvg: bool) returns (g: GradientRef)
      modifies this`defs, this`hasDefs
      ensures g == GradientRef(index)
      ensures cache == old(cache)
      ensures inSvg ==> defs == old(defs)[index := FadeOutStops()] && hasDefs
      ensures !inSvg ==> defs == old(defs) && hasDefs == old(hasDefs)
      ensures inSvg && index in cache ==> !Coherent()
    {
      g := GradientRef(index);
      if !inSvg {
        return;
      }
      hasDefs := true;
      var stops: seq<Stop> := [];
      for i := 0 to 4
        invariant |stops| == i
        invariant forall k :: 0 <= k < i ==> stops[k] == FadeStop(k)
      {
        stops := stops + [Stop(i as real * 33.33, Transparent)];
      }
      assert stops == FadeOutStops();
      defs := defs[index := stops];
      if index in cache {
        FadeOutDiffersFromFlow(cache[index].color, cache[index].flowPosition);
      }
    }

    /** The unmount cleanup empties the cache; the SVG keeps its gradients. */
    method Clear()
      modifies this`cache
      ensures cache == map[]
      ensures Valid() && Coherent()
    {
      cache := map[];
    }

    /**
     * `animateRay` for one ray: a lit ray gets a cached or fresh colour
     * gradient, any other ray the fade-out gradient.
     */
    method AnimateRay(index: nat, scrollProgress: real, active: bool,
                      color: string, flowPosition: real, inSvg: bool) returns (fill: GradientRef)
      requires Valid()
      modifies this
      ensures fill == GradientRef(index)
      ensures Valid()
      ensures RayLit(active, scrollProgress) && old(Coherent()) ==> Coherent()
      ensures RayLit(active, scrollProgress) && old(Coherent()) && inSvg ==>
        index in defs && defs[index] == FlowStops(color, flowPosition)
      ensures !RayLit(active, scrollProgress) ==>
        cache == old(cache) && defs == (if inSvg then old(defs)[index := FadeOutStops()] else old(defs))
    {
      if active && RayProgress(scrollProgress) > 0.0 {
        fill := CreateGradient(index, color, flowPosition, inSvg);
      } else {
        fill := CreateFadeOutGradient(index, inSvg);
      }
    }
  }

  /**
   * A ray lit, faded out and lit again with the same colour and flow
   * position: the third call hits the cache, so the SVG keeps the
   * transparent stops while the cache still describes the colour gradient.
   */
  method StaleCacheAfterFadeOut() returns (shown: seq<Stop>, cached: CacheEntry)
    ensures shown == FadeOutStops()
    ensures cached == CacheEntry("red", 50.0, GradientRef(0))
    ensures shown != FlowStops(cached.color, cached.flowPosition)
  {
    var rays := new RayGradients();
    var g := rays.CreateGradient(0, "red", 50.0, true);
    g := rays.CreateFadeOutGradient(0, true);
    g := rays.CreateGradient(0, "red", 50.0, true);
    shown, cached := rays.defs[0], rays.cache[0];
    FadeOutDiffersFromFlow("red", 50.0);
  }

  /** `animateDot`'s progress: `1.5 (progress - 0.1 index)`, clamped to `[0, 1]`. */
  function DotProgress(scrollProgress: real, index: nat): (p: real)
    ensures 0.0 <= p <= 1.0
  {
    Clamp(0.0, 1.0, (scrollProgress - index as real * 0.1) * 1.5)
  }

  /** A dot is lit while scrolling is active and its progress is positive. */
  predicate DotLit(active: bool, scrollProgress: real, index: nat)
  {
    active && DotProgress(scrollProgress, index) > 0.0
  }

  /** Dot `index` lights up exactly when the page has scrolled past `0.1 index` while scrolling. */
  lemma DotLitIff(active: bool, scrollProgress: real, index: nat)
    ensures DotLit(active, scrollProgress, index) <==> active && scrollProgress > index as real * 0.1
  {
    var raw := (scrollProgress - index as real * 0.1) * 1.5;
    assert raw > 0.0 <==> scrollProgress > index as real * 0.1;
  }

  /** The opacity `animateDot` gives a dot. */
  function DotOpacity(active: bool, scrollProgress: real, index: nat): (o: real)
    ensures o == 1.0 <==> DotLit(active, scrollProgress, index)
    ensures o == 0.0 <==> !DotLit(active, scrollProgress, index)
  {
    if DotLit(active, scrollProgress, index) then 1.0 else 0.0
  }

  /** A later dot never lights before an earlier one. */
  lemma DotsLightInOrder(active: bool, scrollProgress: real, i: nat, j: nat)
    requires i <= j
    ensures DotLit(active, scrollProgress, j) ==> DotLit(active, scrollProgress, i)
  {
    DotLitIff(active, scrollProgress, i);
    DotLitIff(active, scrollProgress, j);
  }

  /** `animateRay`'s progress: `1.2 progress`, clamped to `[0, 1]`. */
  function RayProgress(scrollProgress: real): (p: real)
    ensures 0.0 <= p <= 1.0
    ensures p > 0.0 <==> scrollProgress > 0.0
  {
    Clamp(0.0, 1.0, scrollProgress * 1.2)
  }

  /** A ray is lit while scrolling is active and the page has left the top. */
  predicate RayLit(active: bool, scrollProgress: real)
  {
    active && RayProgress(scrollProgress) > 0.0
  }

  /** The label's opacity: shown only at rest on an asteroid wider than 70 pixels. */
  function LabelOpacity(active: bool, width: real): (o: real)
    ensures o == 1.0 <==> !active && width > 70.0
    ensures o == 0.0 <==> active || width <= 70.0
  {
    if !active && width > 70.0 then 1.0 else 0.0
  }
}
