/**
 * The sphere of circles of `PranaSphere`: four fans of 31 concentric circles
 * that grow in, pulse and fade out with the scroll, stroked with gradients
 * whose stops are rebuilt on every update.
 *
 * The sine waves, the random colours and the stop opacities are parameters;
 * the tween of each circle is represented by its target.
 */
module PranaSphere {
  import opened Common

  /** The polynomial of `smoothstep`: `x^2 (3 - 2x)`. */
  function SmoothPoly(x: real): real
  {
    x * x * (3.0 - 2.0 * x)
  }

  /** On `[0, 1]` the polynomial stays in `[0, 1]`, is 0 only at 0 and 1 only at 1. */
  lemma SmoothPolyBounds(x: real)
    requires 0.0 <= x <= 1.0
    ensures 0.0 <= SmoothPoly(x) <= 1.0
    ensures 0.0 < x ==> 0.0 < SmoothPoly(x)
    ensures x < 1.0 ==> SmoothPoly(x) < 1.0
  {
    SmoothPolyComplement(x);
    var sx, sy := x * x, (1.0 - x) * (1.0 - x);
    SquareSign(x, sx);
    SquareSign(1.0 - x, sy);
    ProductSign(SmoothPoly(x), sx, 3.0 - 2.0 * x);
    ProductSign(1.0 - SmoothPoly(x), sy, 1.0 + 2.0 * x);
  }

  /** `1 - x^2 (3 - 2x) = (1 - x)^2 (1 + 2x)`. */
  lemma SmoothPolyComplement(x: real)
    ensures 1.0 - SmoothPoly(x) == (1.0 - x) * (1.0 - x) * (1.0 + 2.0 * x)
  {
    var y := 1.0 - x;
    assert y * y == 1.0 - 2.0 * x + x * x;
    assert (1.0 - 2.0 * x + x * x) * (1.0 + 2.0 * x) == 1.0 - 3.0 * (x * x) + 2.0 * (x * x) * x;
    assert SmoothPoly(x) == 3.0 * (x * x) - 2.0 * (x * x) * x;
  }

  /** The sign of `p = a b` for a non-negative `a` and a positive `b`. */
  lemma ProductSign(p: real, a: real, b: real)
    requires p == a * b && a >= 0.0 && b > 0.0
    ensures p >= 0.0
    ensures a > 0.0 ==> p > 0.0
  {
  }

  /** The square `s` of a non-negative `x` is non-negative, and positive when `x` is. */
  lemma SquareSign(x: real, s: real)
    requires x >= 0.0 && s == x * x
    ensures s >= 0.0
    ensures x > 0.0 ==> s > 0.0
  {
    if x > 0.0 {
      ProductSign(s, x, x);
    }
  }

  /** `p = a b` is at most `a` when `0 <= b <= 1` and `a >= 0`. */
  lemma ProductBelow(p: real, a: real, b: real)
    requires p == a * b && a >= 0.0 && 0.0 <= b <= 1.0
    ensures 0.0 <= p <= a
  {
    assert a * b <= a * 1.0;
  }

  /** `x^2 (3 - 2x)` rises by `(y - x) (3 (x + y) - 2 (x^2 + xy + y^2))` from `x` to `y`. */
  lemma SmoothPolyDifference(x: real, y: real)
    ensures SmoothPoly(y) - SmoothPoly(x) == (y - x) * (3.0 * (x + y) - 2.0 * (x * x + x * y + y * y))
  {
    assert (y - x) * (x + y) == y * y - x * x;
    assert (y - x) * (x * x + x * y + y * y) == y * y * y - x * x * x;
  }

  /** On `[0, 1]` the polynomial is non-decreasing. */
  lemma SmoothPolyMonotone(x: real, y: real)
    requires 0.0 <= x <= y <= 1.0
    ensures SmoothPoly(x) <= SmoothPoly(y)
  {
    SmoothPolyDifference(x, y);
    var xx, xy, yy := x * x, x * y, y * y;
    ProductBelow(xx, x, x);
    ProductBelow(xy, x, y);
    ProductBelow(yy, y, y);
    assert xy == y * x;
    ProductBelow(xy, y, x);
    var f := 3.0 * (x + y) - 2.0 * (xx + xy + yy);
    assert f >= 0.0;
    if x < y {
      ProductSign(SmoothPoly(y) - SmoothPoly(x), f, y - x);
    }
  }

  /** The polynomial is symmetric about `(1/2, 1/2)`. */
  lemma SmoothPolyMirror(x: real)
    ensures SmoothPoly(1.0 - x) == 1.0 - SmoothPoly(x)
  {
    var y := 1.0 - x;
    assert SmoothPoly(y) == y * y * (1.0 + 2.0 * x);
  }

  /** `smoothstep(min, max, value)`; the division needs `min != max`. */
  function Smoothstep(min: real, max: real, value: real): (r: real)
    requires min != max
    ensures 0.0 <= r <= 1.0
  {
    var x := Clamp(0.0, 1.0, (value - min) / (max - min));
    SmoothPolyBounds(x);
    SmoothPoly(x)
  }

  /** `smoothstep(0, 1, ·)`: 0 at or below 0, 1 at or above 1, strictly between in between. */
  lemma SmoothstepEnds(e: real)
    ensures e <= 0.0 ==> Smoothstep(0.0, 1.0, e) == 0.0
    ensures e >= 1.0 ==> Smoothstep(0.0, 1.0, e) == 1.0
    ensures 0.0 < e ==> 0.0 < Smoothstep(0.0, 1.0, e)
    ensures e < 1.0 ==> Smoothstep(0.0, 1.0, e) < 1.0
  {
    SmoothPolyBounds(Clamp(0.0, 1.0, e));
  }

  /** `smoothstep(0, 1, ·)` is non-decreasing. */
  lemma SmoothstepMonotone(a: real, b: real)
    requires a <= b
    ensures Smoothstep(0.0, 1.0, a) <= Smoothstep(0.0, 1.0, b)
  {
    SmoothPolyMonotone(Clamp(0.0, 1.0, a), Clamp(0.0, 1.0, b));
  }

  /** Reversing the edges mirrors the curve: `smoothstep(1, 0, e) = 1 - smoothstep(0, 1, e)`. */
  lemma SmoothstepMirror(e: real)
    ensures Smoothstep(1.0, 0.0, e) == 1.0 - Smoothstep(0.0, 1.0, e)
  {
    assert (e - 1.0) / (0.0 - 1.0) == 1.0 - e;
    assert Clamp(0.0, 1.0, 1.0 - e) == 1.0 - Clamp(0.0, 1.0, e);
    SmoothPolyMirror(Clamp(0.0, 1.0, e));
  }

  /** The number of circles in each fan. */
  const CircleCount: nat := 31
  /** The radius of the outermost circle. */
  const MaxRadius: real := 800.0

  /** One entry of `circleData`. */
  datatype Circle = Circle(radius: real, index: nat, total: nat, reverseIndex: int, normalizedIndex: real)

  /** Circle `i`: the radius drops by `800 / 31` per circle. */
  function CircleAt(i: nat): Circle
  {
    Circle(MaxRadius - i as real * (MaxRadius / CircleCount as real), i, CircleCount,
           CircleCount - 1 - i, i as real / CircleCount as real)
  }

  /** `circleData`: the 31 circles, outermost first. */
  function CircleData(): seq<Circle>
  {
    seq(CircleCount, i requires 0 <= i < CircleCount => CircleAt(i))
  }

  /**
   * 31 circles, radius `800 - 800 i / 31`: all positive and strictly
   * decreasing; the reverse index counts from the innermost circle.
   */
  lemma CircleTable()
    ensures |CircleData()| == 31
    ensures forall i :: 0 <= i < 31 ==>
      CircleData()[i].radius == 800.0 - 800.0 * i as real / 31.0 &&
      CircleData()[i].radius > 0.0 &&
      CircleData()[i].index == i && CircleData()[i].total == 31 &&
      CircleData()[i].reverseIndex == 30 - i &&
      0.0 <= CircleData()[i].normalizedIndex < 1.0
    ensures forall i, j :: 0 <= i < j < 31 ==> CircleData()[j].radius < CircleData()[i].radius
  {
  }

  /** The svg's opacity: 1 up to 0.8, falling linearly to 0 at 1. */
  function ComponentOpacity(progress: real): (o: real)
    ensures 0.0 <= o <= 1.0
    ensures progress <= 0.8 ==> o == 1.0
    ensures progress >= 1.0 ==> o == 0.0
    ensures 0.8 < progress < 1.0 ==> o == 1.0 - (progress - 0.8) * 5.0
  {
    Clamp(0.0, 1.0, 1.0 - Max(0.0, (progress - 0.8) * 5.0))
  }

  /** How far a circle has grown in: it starts `0.02` of its normalised index late. */
  function Visibility(progress: real, c: Circle): (v: real)
    ensures 0.0 <= v <= 1.0
  {
    Clamp(0.0, 1.0, (progress - c.normalizedIndex * 0.02) * 4.0)
  }

  /** How far a circle has faded out, starting at 0.7. */
  function Exit(progress: real, c: Circle): (x: real)
    ensures 0.0 <= x <= 1.0
  {
    Clamp(0.0, 1.0, (progress - 0.7 - c.normalizedIndex * 0.02) * 5.0)
  }

  /** A circle is tweened only while it is partly visible and not fully exited. */
  predicate Animated(progress: real, c: Circle)
  {
    Visibility(progress, c) > 0.0 && Exit(progress, c) < 1.0
  }

  /** A circle is animated exactly on the window `(0.02 n, 0.9 + 0.02 n)` of its normalised index `n`. */
  lemma AnimatedWindow(progress: real, c: Circle)
    ensures Animated(progress, c) <==>
      c.normalizedIndex * 0.02 < progress < 0.9 + c.normalizedIndex * 0.02
  {
  }

  /**
   * The circle tween's opacity for the circle `reverseIndex` places from the
   * innermost: its base opacity, eased in by visibility and out by exit.
   */
  function Opacity(reverseIndex: int, visibility: real, exit: real): real
  {
    BaseOpacity(reverseIndex) * Smoothstep(0.0, 1.0, visibility) * Smoothstep(1.0, 0.0, exit)
  }

  /** For a circle of the table that is animated, the opacity is positive and at most 1. */
  lemma OpacityRange(reverseIndex: int, visibility: real, exit: real)
    requires 0 <= reverseIndex < CircleCount
    requires visibility > 0.0 && exit < 1.0
    ensures 0.0 < Opacity(reverseIndex, visibility, exit) <= 1.0
  {
    BaseOpacityRange(reverseIndex);
    EasingsPositive(visibility, exit);
    UnitProduct(Opacity(reverseIndex, visibility, exit), BaseOpacity(reverseIndex),
                Smoothstep(0.0, 1.0, visibility), Smoothstep(1.0, 0.0, exit));
  }

  /** Easing in from a positive visibility and out from an unfinished exit both give a positive factor. */
  lemma EasingsPositive(v: real, e: real)
    requires 0.0 < v && e < 1.0
    ensures 0.0 < Smoothstep(0.0, 1.0, v) <= 1.0
    ensures 0.0 < Smoothstep(1.0, 0.0, e) <= 1.0
  {
    SmoothstepEnds(v);
    SmoothstepEnds(e);
    SmoothstepMirror(e);
  }

  /** Opacity before easing: 1 for the innermost circle, down to `1 - 0.75 r / 31`. */
  function BaseOpacity(reverseIndex: int): real
  {
    1.0 - (reverseIndex as real / CircleCount as real) * 0.75
  }

  lemma BaseOpacityRange(reverseIndex: int)
    requires 0 <= reverseIndex < CircleCount
    ensures 0.25 < BaseOpacity(reverseIndex) <= 1.0
  {
  }

  /** A product `p` of three numbers in `(0, 1]` is in `(0, 1]`. */
  lemma UnitProduct(p: real, a: real, b: real, c: real)
    requires p == a * b * c
    requires 0.0 < a <= 1.0 && 0.0 < b <= 1.0 && 0.0 < c <= 1.0
    ensures 0.0 < p <= 1.0
  {
    var ab := a * b;
    ProductSign(ab, a, b);
    ProductBelow(ab, b, a);
    ProductSign(p, ab, c);
    ProductBelow(p, c, ab);
  }

  /**
   * The circle tween's scale; the wave (a sum of sines) is added only once
   * the circle is more than 0.6 visible.
   */
  function TargetScale(progress: real, c: Circle, wave: real): real
  {
    var v := Visibility(progress, c);
    (0.1 + v * 1.6 + (if v > 0.6 then wave else 0.0)) * (1.0 - Exit(progress, c) * 0.9)
  }

  /** Until a circle is 0.6 visible its scale ignores the wave and lies in `[0.01, 1.06]`. */
  lemma ScaleBeforeWave(progress: real, c: Circle, wave: real)
    requires Visibility(progress, c) <= 0.6
    ensures TargetScale(progress, c, wave) == TargetScale(progress, c, 0.0)
    ensures 0.01 <= TargetScale(progress, c, wave) <= 1.06
  {
    var v := Visibility(progress, c);
    var g := 0.1 + v * 1.6;
    var k := 1.0 - Exit(progress, c) * 0.9;
    assert 0.1 <= g <= 1.06 && 0.1 <= k <= 1.0;
    assert 0.01 <= g * k by {
      assert 0.1 * 0.1 <= g * 0.1 <= g * k;
    }
    assert g * k <= 1.06 by {
      assert g * k <= g * 1.0;
    }
  }

  /** A dash pattern: dash length and gap length. */
  datatype Dash = Solid | Dashed(dash: real, gap: real)

  /** The stroke pattern of the circle `reverseIndex` places from the innermost. */
  function DashFor(reverseIndex: int): Dash
  {
    if reverseIndex < 10 then Solid
    else
      var d := (reverseIndex as real / CircleCount as real) * (reverseIndex as real / CircleCount as real) * 100.0;
      Dashed(d, d * 0.5)
  }

  /**
   * The ten innermost circles are solid; every other circle of the table has
   * a dash of `(r / 31)^2 * 100`, between 10 and 100, and a gap half as long.
   */
  lemma DashPattern(i: nat)
    requires i < CircleCount
    ensures CircleAt(i).reverseIndex < 10 <==> DashFor(CircleAt(i).reverseIndex) == Solid
    ensures DashFor(CircleAt(i).reverseIndex).Dashed? ==>
      var d := DashFor(CircleAt(i).reverseIndex);
      d.gap * 2.0 == d.dash && 10.0 < d.dash < 100.0
  {
    var r := CircleAt(i).reverseIndex;
    if r >= 10 {
      var q := r as real / 31.0;
      assert DashFor(r).dash == q * q * 100.0;
      assert 10.0 / 31.0 <= q < 1.0;
      assert q * q < 1.0 by {
        assert q * q <= q * 1.0;
      }
      assert q * q >= (10.0 / 31.0) * (10.0 / 31.0) by {
        assert q * q >= q * (10.0 / 31.0) >= (10.0 / 31.0) * (10.0 / 31.0);
      }
    }
  }

  /**
   * A circle tween planned by one update: which circle, and the visibility
   * and exit progress its closure captures.
   */
  datatype CircleTween = CircleTween(index: nat, visibility: real, exit: real)

  /** The opacity a planned tween sets when its closure runs. */
  function TweenOpacity(t: CircleTween): real
  {
    Opacity(CircleCount - 1 - t.index, t.visibility, t.exit)
  }

  /**
   * The tweens planned for circles `0..n` of one fan: one for every circle
   * that has an element and is animated, in index order.
   */
  function PlannedTweens(progress: real, present: seq<bool>, n: nat): seq<CircleTween>
    requires n <= |present| && n <= CircleCount
  {
    if n == 0 then []
    else
      var rest := PlannedTweens(progress, present, n - 1);
      var c := CircleAt(n - 1);
      if present[n - 1] && Animated(progress, c) then rest + [CircleTween(n - 1, Visibility(progress, c), Exit(progress, c))]
      else rest
  }

  /** `t` is the tween of a present, animated circle, capturing its visibility and exit. */
  predicate TweenFor(progress: real, present: seq<bool>, t: CircleTween)
  {
    t.index < |present| && t.index < CircleCount && present[t.index] &&
    Animated(progress, CircleAt(t.index)) &&
    t.visibility == Visibility(progress, CircleAt(t.index)) &&
    t.exit == Exit(progress, CircleAt(t.index))
  }

  /**
   * Every tween of `ts` names an animated, present circle below `n`, with
   * strictly increasing indices, and captures that circle's visibility and exit.
   */
  predicate TweensMatch(progress: real, present: seq<bool>, n: nat, ts: seq<CircleTween>)
  {
    (forall k :: 0 <= k < |ts| ==> ts[k].index < n && TweenFor(progress, present, ts[k])) &&
    (forall k, l :: 0 <= k < l < |ts| ==> ts[k].index < ts[l].index)
  }

  lemma {:induction false} PlannedTweensValid(progress: real, present: seq<bool>, n: nat)
    requires n <= |present| && n <= CircleCount
    ensures TweensMatch(progress, present, n, PlannedTweens(progress, present, n))
  {
    if n > 0 {
      PlannedTweensValid(progress, present, n - 1);
      var rest := PlannedTweens(progress, present, n - 1);
      var c := CircleAt(n - 1);
      if present[n - 1] && Animated(progress, c) {
        var t := CircleTween(n - 1, Visibility(progress, c), Exit(progress, c));
        assert TweenFor(progress, present, t);
        MatchExtend(progress, present, n - 1, rest, t);
      } else {
        assert TweensMatch(progress, present, n, rest);
      }
    }
  }

  /** Appending the tween of circle `m` to tweens of circles below `m` keeps them matched. */
  lemma MatchExtend(progress: real, present: seq<bool>, m: nat, ts: seq<CircleTween>, t: CircleTween)
    requires TweensMatch(progress, present, m, ts)
    requires t.index == m && TweenFor(progress, present, t)
    ensures TweensMatch(progress, present, m + 1, ts + [t])
  {
    var ts' := ts + [t];
    assert forall k :: 0 <= k < |ts| ==> ts'[k] == ts[k];
  }

  /** The tween of an animated circle sets an opacity that is positive and at most 1. */
  lemma TweenOpacityRange(progress: real, present: seq<bool>, t: CircleTween)
    requires TweenFor(progress, present, t)
    ensures 0.0 < TweenOpacity(t)
    ensures TweenOpacity(t) <= 1.0
  {
    OpacityRange(CircleCount - 1 - t.index, t.visibility, t.exit);
  }

  /** Every planned tween sets an opacity that is positive and at most 1. */
  lemma PlannedOpacities(progress: real, present: seq<bool>, n: nat)
    requires n <= |present| && n <= CircleCount
    ensures var ts := PlannedTweens(progress, present, n);
      forall k :: 0 <= k < |ts| ==> 0.0 < TweenOpacity(ts[k]) <= 1.0
  {
    var ts := PlannedTweens(progress, present, n);
    PlannedTweensValid(progress, present, n);
    forall k | 0 <= k < |ts|
      ensures 0.0 < TweenOpacity(ts[k]) <= 1.0
    {
      assert TweenFor(progress, present, ts[k]);
      TweenOpacityRange(progress, present, ts[k]);
    }
  }

  /** A circle that has an element and is animated gets a tween. */
  lemma {:induction false} PlannedTweensComplete(progress: real, present: seq<bool>, n: nat, i: nat)
    requires n <= |present| && n <= CircleCount
    requires i < n && present[i] && Animated(progress, CircleAt(i))
    ensures exists k :: 0 <= k < |PlannedTweens(progress, present, n)| &&
                        PlannedTweens(progress, present, n)[k].index == i
  {
    var ts := PlannedTweens(progress, present, n);
    if i == n - 1 {
      assert ts[|ts| - 1].index == i;
    } else {
      PlannedTweensComplete(progress, present, n - 1, i);
      var prev := PlannedTweens(progress, present, n - 1);
      var k :| 0 <= k < |prev| && prev[k].index == i;
      assert ts[k] == prev[k];
    }
  }

  /**
   * One fan's pass of the update frame: the `forEach` over `circleData`
   * pushes a tween for each animated circle that has an element.
   */
  method PlanFan(progress: real, present: seq<bool>) returns (updates: seq<CircleTween>)
    requires |present| == CircleCount
    ensures updates == PlannedTweens(progress, present, CircleCount)
  {
    updates := [];
    var idx := 0;
    while idx < CircleCount
      invariant 0 <= idx <= CircleCount
      invariant updates == PlannedTweens(progress, present, idx)
    {
      var data := CircleAt(idx);
      if present[idx] && Animated(progress, data) {
        updates := updates + [CircleTween(idx, Visibility(progress, data), Exit(progress, data))];
      }
      idx := idx + 1;
    }
  }

  /** One `<stop>` of a sphere gradient: offset in percent, colour, opacity. */
  datatype GradientStop = GradientStop(offset: real, color: string, opacity: real)

  /** The stops a refresh appends: offsets `0, 25, 50, 75, 100` with the given colours and opacities. */
  function RefreshedStops(colors: seq<string>, opacities: seq<real>): (stops: seq<GradientStop>)
    requires |colors| == 5 && |opacities| == 5
    ensures |stops| == 5
    ensures forall i :: 0 <= i < 5 ==> stops[i].offset == 25.0 * i as real
    ensures forall i, j :: 0 <= i < j < 5 ==> stops[i].offset < stops[j].offset
    ensures stops[0].offset == 0.0 && stops[4].offset == 100.0
  {
    seq(5, i requires 0 <= i < 5 => GradientStop(25.0 * i as real, colors[i], opacities[i]))
  }

  /** The rotation a refresh gives gradient `index`; `wave` is `sin(2 pi progress)`. */
  function GradientRotation(progress: real, index: nat, wave: real): real
  {
    progress * 540.0 + index as real * 90.0 + wave * 45.0
  }

  /** One of the four `linearGradient` elements, as the update frame rewrites it. */
  class SphereGradient {
    /** Its `<stop>` children, in document order. */
    var stops: seq<GradientStop>
    /** The angle of its `gradientTransform`. */
    var rotation: real

    constructor (initial: seq<GradientStop>, angle: real)
      ensures stops == initial && rotation == angle
    {
      stops := initial;
      rotation := angle;
    }

    /**
     * The refresh: remove children until none is left, append the five new
     * stops, and set the rotation. Nothing of the old stops survives.
     */
    method Refresh(progress: real, index: nat, colors: seq<string>, opacities: seq<real>, wave: real)
      requires |colors| == 5 && |opacities| == 5
      modifies this
      ensures stops == RefreshedStops(colors, opacities)
      ensures rotation == GradientRotation(progress, index, wave)
    {
      while |stops| > 0
        decreases |stops|
      {
        stops := stops[1..];
      }
      for i := 0 to 5
        invariant |stops| == i
        invariant forall k :: 0 <= k < i ==> stops[k] == GradientStop(25.0 * k as real, colors[k], opacities[k])
      {
        var offset := (i as real / 4.0) * 100.0;
        stops := stops + [GradientStop(offset, colors[i], opacities[i])];
      }
      rotation := progress * 540.0 + index as real * 90.0 + wave * 45.0;
    }
  }

  /** What the sphere's update writes directly: the svg's opacity. */
  class SphereView {
    /** The svg's opacity. */
    var svgOpacity: real
    /** Every circle is at opacity 0 and scale 0.1 (`hideAll`). */
    var circlesHidden: bool
    /** The timeline and its ScrollTrigger are alive. */
    var live: bool

    /** The setup: `hideAll`, then the timeline is created. */
    constructor ()
      ensures svgOpacity == 0.0 && circlesHidden && live
    {
      svgOpacity := 0.0;
      circlesHidden := true;
      live := true;
    }

    /** `onUpdate`: the svg's opacity follows the progress while the timeline lives. */
    method OnUpdate(progress: real)
      modifies this`svgOpacity
      ensures live ==> svgOpacity == ComponentOpacity(progress)
      ensures !live ==> svgOpacity == old(svgOpacity)
    {
      if live {
        svgOpacity := Clamp(0.0, 1.0, 1.0 - Max(0.0, (progress - 0.8) * 5.0));
      }
    }

    /** The circle tweens of a frame run: the circles are no longer all hidden. */
    method ApplyTweens(updates: seq<CircleTween>)
      modifies this`circlesHidden
      ensures circlesHidden == (old(circlesHidden) && updates == [])
    {
      if updates != [] {
        circlesHidden := false;
      }
    }

    /** The cleanup: kill the timeline and `hideAll` again. */
    method Teardown()
      modifies this
      ensures !live && svgOpacity == 0.0 && circlesHidden
    {
      live := false;
      svgOpacity := 0.0;
      circlesHidden := true;
    }
  }
}
