/**
 * The scroll scene of `pranaSphere.jsx`: the same sphere of circles as
 * `PranaSphere`, gated so that nothing is drawn above the start of the
 * trigger, plus a word-by-word text reveal and the colour-harmony hues.
 *
 * The circle and gradient pass of its update frame is the one modelled by
 * `PranaSphere.PlanFan` and `PranaSphere.SphereGradient.Refresh`.
 */
module PranaSphereScene {
  import opened Common
  import PranaSphere

  /** `calculateEasing`: the smoothstep polynomial of the clamped ratio. */
  function CalculateEasing(min: real, max: real, value: real): (r: real)
    requires min != max
    ensures 0.0 <= r <= 1.0
  {
    var x := Max(0.0, Min(1.0, (value - min) / (max - min)));
    PranaSphere.SmoothPolyBounds(x);
    x * x * (3.0 - 2.0 * x)
  }

  /** `calculateEasing` is the sphere's `smoothstep` under another name. */
  lemma CalculateEasingIsSmoothstep(min: real, max: real, value: real)
    requires min != max
    ensures CalculateEasing(min, max, value) == PranaSphere.Smoothstep(min, max, value)
  {
  }

  /** The complementary scheme: half a turn round the colour wheel. */
  function Complementary(hue: real): real
  {
    JsRem(hue + 180.0, 360.0)
  }

  /** The triadic scheme: a third of a turn. */
  function Triadic(hue: real): real
  {
    JsRem(hue + 120.0, 360.0)
  }

  /** The split-complementary scheme: 150 or 210 degrees, as the coin falls. */
  function SplitComplementary(hue: real, coin: bool): real
  {
    JsRem(hue + (if coin then 150.0 else 210.0), 360.0)
  }

  /** For a non-negative hue every scheme lands in `[0, 360)`. */
  lemma HarmonyRange(hue: real, coin: bool)
    requires hue >= 0.0
    ensures 0.0 <= Complementary(hue) < 360.0
    ensures 0.0 <= Triadic(hue) < 360.0
    ensures 0.0 <= SplitComplementary(hue, coin) < 360.0
  {
    JsRemRange(hue + 180.0, 360.0);
    JsRemRange(hue + 120.0, 360.0);
    JsRemRange(hue + (if coin then 150.0 else 210.0), 360.0);
  }

  /** On the wheel `[0, 360)`, the complement of the complement is the hue itself. */
  lemma ComplementInvolution(hue: real)
    requires 0.0 <= hue < 360.0
    ensures Complementary(Complementary(hue)) == hue
  {
    JsRemWrapOnce(hue + 180.0, 360.0);
    JsRemWrapOnce(Complementary(hue) + 180.0, 360.0);
  }

  /** On the wheel `[0, 360)`, three triadic steps come back to the hue. */
  lemma TriadicCycle(hue: real)
    requires 0.0 <= hue < 360.0
    ensures Triadic(Triadic(Triadic(hue))) == hue
    ensures Triadic(hue) != hue
  {
    JsRemWrapOnce(hue + 120.0, 360.0);
    JsRemWrapOnce(Triadic(hue) + 120.0, 360.0);
    JsRemWrapOnce(Triadic(Triadic(hue)) + 120.0, 360.0);
  }

  /** The timing of one line of text, or of one word: start, peak and end progress. */
  datatype Timing = Timing(start: real, peak: real, end: real)

  /** The four configured lines. */
  const Lines: seq<Timing> := [
    Timing(0.2, 0.3, 0.6),
    Timing(0.3, 0.4, 0.7),
    Timing(0.4, 0.5, 0.8),
    Timing(0.5, 0.6, 0.9)
  ]

  /** Words per line. */
  const WordsPerLine: nat := 5

  /** The line word `i` belongs to, if it is configured. */
  function LineOf(i: nat): (line: Option<Timing>)
    ensures line.Some? <==> i < |Lines| * WordsPerLine
  {
    if i / WordsPerLine < |Lines| then Some(Lines[i / WordsPerLine]) else None
  }

  /** A word starts, peaks and ends 0.02 later per position in its line. */
  function WordTiming(line: Timing, position: nat): Timing
  {
    var delay := position as real * 0.02;
    Timing(line.start + delay, line.peak + delay, line.end + delay)
  }

  predicate Ordered(t: Timing)
  {
    t.start < t.peak < t.end
  }

  /** Every configured line, and every word of it, has start < peak < end. */
  lemma TimingsOrdered(i: nat)
    requires i < |Lines| * WordsPerLine
    ensures forall k :: 0 <= k < |Lines| ==> Ordered(Lines[k])
    ensures LineOf(i).Some? && Ordered(WordTiming(LineOf(i).value, i % WordsPerLine))
  {
  }

  /** What one word tween targets. */
  datatype WordPose = WordPose(opacity: real, y: real, rotationX: real)

  /** Before its start a word is invisible, 50 below, turned back 90 degrees: the setup's pose. */
  const Hidden: WordPose := WordPose(0.0, 50.0, -90.0)

  /** Between its peak and its end a word is fully shown. */
  const Shown: WordPose := WordPose(1.0, 0.0, 0.0)

  /** The entry: rising and turning up, proportionally to the progress from start to peak. */
  function EntryPose(progress: real, t: Timing): WordPose
    requires t.start < t.peak
  {
    var e := (progress - t.start) / (t.peak - t.start);
    WordPose(e, 50.0 * (1.0 - e), -90.0 * (1.0 - e))
  }

  /** The exit: fading and turning away at a rate of 1 per 0.1 of progress, with no clamp. */
  function ExitPose(progress: real, t: Timing): WordPose
  {
    var x := (progress - t.end) / 0.1;
    WordPose(1.0 - x, -50.0 * x, 90.0 * x)
  }

  /** The pose of a word with timing `t` at `progress`. */
  function WordPoseAt(progress: real, t: Timing): WordPose
  {
    if progress < t.start then Hidden
    else if progress < t.peak then EntryPose(progress, t)
    else if progress < t.end then Shown
    else ExitPose(progress, t)
  }

  /** The reveal has no jumps: each formula meets its neighbour at start, peak and end. */
  lemma RevealContinuous(t: Timing)
    requires Ordered(t)
    ensures EntryPose(t.start, t) == Hidden == WordPoseAt(t.start, t)
    ensures EntryPose(t.peak, t) == Shown == WordPoseAt(t.peak, t)
    ensures ExitPose(t.end, t) == Shown == WordPoseAt(t.end, t)
  {
    var d := t.peak - t.start;
    DivideMonotone(d, d, d);
  }

  /** During the entry the opacity rises strictly from 0 toward 1. */
  lemma EntryRises(t: Timing, p: real, q: real)
    requires Ordered(t) && t.start <= p < q < t.peak
    ensures 0.0 <= WordPoseAt(p, t).opacity < WordPoseAt(q, t).opacity < 1.0
  {
    var d := t.peak - t.start;
    assert (p - t.start) / d < (q - t.start) / d by {
      assert p - t.start < q - t.start;
      DivideMonotone(p - t.start, q - t.start, d);
    }
    DivideMonotone(q - t.start, d, d);
    DivideMonotone(0.0, p - t.start, d);
  }

  /** Dividing by a positive `d` keeps a strict order, and a non-strict one from 0. */
  lemma DivideMonotone(a: real, b: real, d: real)
    requires d > 0.0 && a <= b
    ensures a / d <= b / d
    ensures a < b ==> a / d < b / d
    ensures b == d ==> b / d == 1.0
  {
    assert a / d * d == a && b / d * d == b;
    if a / d > b / d {
      ScaleMonotone(b / d, a / d, d);
    }
  }

  /** The exit is not clamped: more than 0.1 after its end, a word's opacity is negative. */
  lemma ExitGoesNegative(t: Timing, progress: real)
    requires Ordered(t) && progress > t.end + 0.1
    ensures WordPoseAt(progress, t).opacity < 0.0
  {
  }

  /** From the start up to 0.1 after the end, the opacity stays in `[0, 1]`. */
  lemma OpacityInRange(t: Timing, progress: real)
    requires Ordered(t) && progress <= t.end + 0.1
    ensures 0.0 <= WordPoseAt(progress, t).opacity <= 1.0
  {
    if t.start <= progress < t.peak {
      var d := t.peak - t.start;
      DivideMonotone(0.0, progress - t.start, d);
      DivideMonotone(progress - t.start, d, d);
    }
  }

  /** One word tween: the word's index and its target pose. */
  datatype WordTween = WordTween(word: nat, pose: WordPose)

  /** The tween word `i` gets at `progress`, when its line is configured. */
  function WordTweenAt(progress: real, i: nat): WordTween
    requires LineOf(i).Some?
  {
    WordTween(i, WordPoseAt(progress, WordTiming(LineOf(i).value, i % WordsPerLine)))
  }

  /**
   * The text trigger's `onUpdate`: every word whose line is configured gets
   * a tween toward its pose, in order; the others are skipped.
   */
  method RevealWords(progress: real, wordCount: nat) returns (tweens: seq<WordTween>)
    ensures |tweens| == if wordCount < |Lines| * WordsPerLine then wordCount else |Lines| * WordsPerLine
    ensures forall k :: 0 <= k < |tweens| ==> LineOf(k).Some? && tweens[k] == WordTweenAt(progress, k)
  {
    tweens := [];
    var i := 0;
    while i < wordCount
      invariant 0 <= i <= wordCount
      invariant |tweens| == if i < |Lines| * WordsPerLine then i else |Lines| * WordsPerLine
      invariant forall k :: 0 <= k < |tweens| ==> LineOf(k).Some? && tweens[k] == WordTweenAt(progress, k)
    {
      var lineIndex := i / WordsPerLine;
      var wordInLineIndex := i % WordsPerLine;
      if lineIndex < |Lines| {
        var line := Lines[lineIndex];
        var pose := WordPoseAt(progress, WordTiming(line, wordInLineIndex));
        tweens := tweens + [WordTween(i, pose)];
      }
      i := i + 1;
    }
  }

  /** What the scene's update writes directly, and the frames it has requested. */
  class SceneView {
    /** The svg's opacity. */
    var svgOpacity: real
    /** Every circle is at opacity 0 and scale 0.1 (`hideAll`). */
    var circlesHidden: bool
    /** The update frames requested so far; none is ever cancelled. */
    var framesRequested: nat
    /** The timeline and its ScrollTrigger are alive. */
    var live: bool

    /** The setup: `hideAll`, then the timeline is created. */
    constructor ()
      ensures svgOpacity == 0.0 && circlesHidden && framesRequested == 0 && live
    {
      svgOpacity := 0.0;
      circlesHidden := true;
      framesRequested := 0;
      live := true;
    }

    /**
     * `onUpdate`. At or above the start everything is hidden and the update
     * returns before any frame is requested; otherwise the svg's opacity
     * follows the progress and one more frame is requested.
     */
    method OnUpdate(progress: real)
      modifies this`svgOpacity, this`circlesHidden, this`framesRequested
      ensures !live ==>
        svgOpacity == old(svgOpacity) && circlesHidden == old(circlesHidden) &&
        framesRequested == old(framesRequested)
      ensures live && progress <= 0.0 ==>
        svgOpacity == 0.0 && circlesHidden && framesRequested == old(framesRequested)
      ensures live && progress > 0.0 ==>
        svgOpacity == PranaSphere.ComponentOpacity(progress) && circlesHidden == old(circlesHidden) &&
        framesRequested == old(framesRequested) + 1
    {
      if !live {
        return;
      }
      if progress <= 0.0 {
        HideAll();
        return;
      }
      svgOpacity := Clamp(0.0, 1.0, 1.0 - Max(0.0, (progress - 0.8) * 5.0));
      framesRequested := framesRequested + 1;
    }

    /** `hideAll`: the svg and every circle are hidden. */
    method HideAll()
      modifies this`svgOpacity, this`circlesHidden
      ensures svgOpacity == 0.0 && circlesHidden
    {
      svgOpacity := 0.0;
      circlesHidden := true;
    }

    /** `onEnterBack`: the svg is made fully opaque again. */
    method OnEnterBack()
      modifies this`svgOpacity
      ensures svgOpacity == 1.0
    {
      svgOpacity := 1.0;
    }

    /** The circle tweens of a frame run: the circles are no longer all hidden. */
    method ApplyTweens(updates: seq<PranaSphere.CircleTween>)
      modifies this`circlesHidden
      ensures circlesHidden == (old(circlesHidden) && updates == [])
    {
      if updates != [] {
        circlesHidden := false;
      }
    }

    /** The cleanup: kill the timeline and `hideAll` again. */
    method Teardown()
      modifies this
      ensures !live && svgOpacity == 0.0 && circlesHidden
      ensures framesRequested == old(framesRequested)
    {
      live := false;
      HideAll();
    }
  }

  /** Scrolled back above the start, the scene is hidden and no frame is requested. */
  method AboveStartStaysHidden() returns (opacity: real, frames: nat)
    ensures opacity == 0.0 && frames == 1
  {
    var view := new SceneView();
    view.OnUpdate(0.5);
    view.OnUpdate(0.0);
    opacity, frames := view.svgOpacity, view.framesRequested;
  }
}
