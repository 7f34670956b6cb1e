/**
 * The opening spiral of `SpiralIntro`: 22 concentric dashed circles whose
 * tables are fixed at mount, a visibility switch over the whole scroll
 * range, a name and a title that slide in and out in three phases, and a
 * stroke hue that turns with the progress.
 *
 * GSAP only receives the values computed here; the breathing radius and
 * stroke width (sine waves) and the random initial colours are not part of
 * this model.
 */
module SpiralIntro {
  import opened Common

  /** The number of circles in the spiral. */
  const CircleCount: nat := 22

  /** The radius table as written out in the component. */
  const Radii: seq<real> := [
    16.5, 33.0, 49.5, 66.0, 82.5, 99.0, 115.5, 132.0, 148.5, 165.0, 181.5, 198.0, 214.5,
    231.0, 247.5, 264.0, 280.5, 297.0, 313.5, 330.0, 346.5, 363.0
  ]

  /** The dash and gap of each circle's `strokeDasharray`, as written out. */
  const DashArrays: seq<(int, int)> := [
    (0, 104), (8, 207), (25, 311), (50, 415), (84, 518), (126, 622), (176, 726),
    (235, 829), (302, 933), (378, 1037), (462, 1140), (554, 1244), (655, 1348),
    (764, 1451), (881, 1555), (1007, 1659), (1141, 1762), (1284, 1866),
    (1435, 1970), (1595, 2073), (1762, 2177), (1939, 2281)
  ]

  /** Each circle's rotation: 17 degrees more than the previous one. */
  const Transforms: seq<real> := seq(CircleCount, i => i as real * 17.0)

  /** Each circle's fade-in opacity: 0.05, rising by 0.045 per circle. */
  const Opacities: seq<real> := seq(CircleCount, i => 0.05 + i as real * 0.045)

  /** The radius of circle `i`: 16.5 per ring. */
  function RadiusOf(i: nat): real
  {
    16.5 * (i as real + 1.0)
  }

  /**
   * The written-out table holds 22 radii, each 16.5 times its ring number,
   * so they are positive and strictly increasing.
   */
  lemma RadiiTable()
    ensures |Radii| == CircleCount
    ensures forall i :: 0 <= i < |Radii| ==> Radii[i] == RadiusOf(i)
    ensures forall i, j :: 0 <= i < j < |Radii| ==> 0.0 < Radii[i] < Radii[j]
  {
    assert forall i :: 0 <= i < |Radii| ==> Radii[i] == RadiusOf(i) by {
      forall i | 0 <= i < |Radii|
        ensures Radii[i] == RadiusOf(i)
      {
        RadiusEntry(i);
      }
    }
  }

  lemma RadiusEntry(i: nat)
    requires i < |Radii|
    ensures Radii[i] == RadiusOf(i)
  {
  }

  /** One entry per circle, each dash shorter than its gap, and the dashes never shrink outward. */
  lemma DashArraysTable()
    ensures |DashArrays| == CircleCount
    ensures forall i :: 0 <= i < |DashArrays| ==> 0 <= DashArrays[i].0 < DashArrays[i].1
    ensures forall i :: 0 <= i < |DashArrays| - 1 ==>
      DashArrays[i].0 < DashArrays[i + 1].0 && DashArrays[i].1 < DashArrays[i + 1].1
  {
  }

  /**
   * The rotations are 0, 17, ..., 357 degrees, all within one turn; the
   * opacities rise from 0.05 to 0.995 and all lie strictly inside (0, 1).
   */
  lemma TransformsAndOpacities()
    ensures |Transforms| == CircleCount && |Opacities| == CircleCount
    ensures forall i :: 0 <= i < CircleCount ==> 0.0 <= Transforms[i] < 360.0
    ensures forall i :: 0 <= i < CircleCount ==> 0.0 < Opacities[i] < 1.0
    ensures forall i, j :: 0 <= i < j < CircleCount ==> Transforms[i] < Transforms[j] && Opacities[i] < Opacities[j]
    ensures Opacities[0] == 0.05 && Opacities[CircleCount - 1] == 0.995
  {
  }

  /** Where circle `i`'s fade-in sits on the fade-in timeline. */
  function FadeInOffset(i: nat): real
  {
    i as real * 0.05
  }

  /**
   * Where circle `i`'s fade-out sits on the fade-out timeline. The circles
   * are walked in reverse, so the outermost one comes first.
   */
  function FadeOutOffset(i: nat): (offset: real)
    requires i < CircleCount
  {
    var reversedPosition := CircleCount - 1 - i;
    reversedPosition as real * 0.05
  }

  /**
   * The spiral fades in from the centre outward and out from the rim
   * inward: a circle's two offsets always add up to 1.05.
   */
  lemma FadeOrder(i: nat, j: nat)
    requires i < j < CircleCount
    ensures FadeInOffset(i) < FadeInOffset(j)
    ensures FadeOutOffset(j) < FadeOutOffset(i)
    ensures FadeInOffset(i) + FadeOutOffset(i) == 1.05
  {
  }

  /** The visibility trigger's test. */
  predicate Visible(progress: real)
  {
    progress > 0.0 && progress < 1.0
  }

  /** The group's opacity: 0.8 while visible. */
  function GroupOpacity(progress: real): (o: real)
    ensures o == 0.8 <==> Visible(progress)
    ensures o == 0.0 <==> !Visible(progress)
  {
    if Visible(progress) then 0.8 else 0.0
  }

  /** The text container's opacity: 1 while visible. */
  function TextContainerOpacity(progress: real): (o: real)
    ensures o == 1.0 <==> 0.0 < progress < 1.0
    ensures o == 0.0 <==> progress <= 0.0 || progress >= 1.0
  {
    if Visible(progress) then 1.0 else 0.0
  }

  /** The text trigger's target: an opacity and a vertical offset. */
  datatype TextPhase = TextPhase(opacity: real, yPos: real)

  /** The fade-in: over the first fifth of the range the text rises 100 pixels into place. */
  function FadeIn(progress: real): TextPhase
  {
    var t := progress / 0.2;
    TextPhase(Clamp(0.0, 1.0, t), (1.0 - t) * 100.0)
  }

  /** The fade-out: over the last fifth of the range the text moves 100 pixels on. */
  function FadeOut(progress: real): TextPhase
  {
    var t := (progress - 0.8) / 0.2;
    TextPhase(Clamp(0.0, 1.0, 1.0 - t), -t * 100.0)
  }

  /** The hold: fully shown, in place. */
  const Hold: TextPhase := TextPhase(1.0, 0.0)

  /** The text trigger's phase for `progress`. */
  function TextPhaseAt(progress: real): TextPhase
  {
    if progress < 0.2 then FadeIn(progress)
    else if progress > 0.8 then FadeOut(progress)
    else Hold
  }

  /**
   * The opacity stays in [0, 1] at every progress; the phases meet at 0.2
   * and 0.8; the text starts 100 pixels off and invisible at 0 and ends
   * 100 pixels off the other way and invisible at 1.
   */
  lemma TextPhasesMeet()
    ensures forall p :: 0.0 <= TextPhaseAt(p).opacity <= 1.0
    ensures FadeIn(0.2) == Hold == TextPhaseAt(0.2)
    ensures FadeOut(0.8) == Hold == TextPhaseAt(0.8)
    ensures TextPhaseAt(0.0) == TextPhase(0.0, 100.0)
    ensures TextPhaseAt(1.0) == TextPhase(0.0, -100.0)
  {
  }

  /** The text grows more opaque and closer to its place through the fade-in. */
  lemma FadeInMonotone(p: real, q: real)
    requires 0.0 <= p <= q < 0.2
    ensures TextPhaseAt(p).opacity <= TextPhaseAt(q).opacity
    ensures TextPhaseAt(q).yPos <= TextPhaseAt(p).yPos
    ensures 0.0 <= TextPhaseAt(q).yPos <= 100.0
  {
    assert p / 0.2 <= q / 0.2;
  }

  /** The text grows fainter and moves further on through the fade-out. */
  lemma FadeOutMonotone(p: real, q: real)
    requires 0.8 < p <= q <= 1.0
    ensures TextPhaseAt(q).opacity <= TextPhaseAt(p).opacity
    ensures TextPhaseAt(q).yPos <= TextPhaseAt(p).yPos
    ensures -100.0 <= TextPhaseAt(q).yPos <= 0.0
  {
    assert (p - 0.8) / 0.2 <= (q - 0.8) / 0.2;
  }

  /** The targets of one text update: the name and the title share an opacity and move in mirror. */
  datatype TextTargets = TextTargets(nameOpacity: real, nameY: real, titleOpacity: real, titleY: real)

  /** The text trigger's `onUpdate`: the name goes to `-yPos`, the title to `+yPos`. */
  function TextUpdate(progress: real): (targets: TextTargets)
    ensures targets.nameOpacity == targets.titleOpacity == TextPhaseAt(progress).opacity
    ensures targets.nameY == -targets.titleY
    ensures targets.titleY == TextPhaseAt(progress).yPos
  {
    var phase := TextPhaseAt(progress);
    TextTargets(phase.opacity, -phase.yPos, phase.opacity, phase.yPos)
  }

  /**
   * The mount sets both texts to opacity 0 at offset -100. The name's
   * first target at progress 0 is that same place; the title's is the
   * opposite offset, so the title is the one that jumps.
   */
  lemma InitialTextPlacement()
    ensures TextUpdate(0.0).nameY == -100.0 && TextUpdate(0.0).nameOpacity == 0.0
    ensures TextUpdate(0.0).titleY == 100.0
  {
  }

  /** `getShiningColor`'s hue for circle `index`: 15 degrees apart, three turns per unit of progress. */
  function Hue(index: nat, progress: real): real
  {
    JsRem(index as real * 15.0 + progress * 1080.0, 360.0)
  }

  /**
   * For a non-negative progress the hue is in [0, 360); it repeats every
   * third of the progress range and every 24 circles.
   */
  lemma HueRange(index: nat, progress: real)
    requires progress >= 0.0
    ensures 0.0 <= Hue(index, progress) < 360.0
    ensures Hue(index, progress + 1.0 / 3.0) == Hue(index, progress)
    ensures Hue(index + 24, progress) == Hue(index, progress)
  {
    var x := index as real * 15.0 + progress * 1080.0;
    JsRemRange(x, 360.0);
    JsRemPeriodic(x, 360.0, 1);
    assert index as real * 15.0 + (progress + 1.0 / 3.0) * 1080.0 == x + 1.0 * 360.0;
    assert (index + 24) as real * 15.0 + progress * 1080.0 == x + 1.0 * 360.0;
  }

  /**
   * The main trigger's `onUpdate`: nothing at a progress of 0 or less;
   * otherwise one frame that sets every circle's hue.
   */
  function MainUpdate(progress: real): (frame: Option<seq<real>>)
    ensures frame.None? <==> progress <= 0.0
    ensures frame.Some? ==> |frame.value| == CircleCount
    ensures frame.Some? ==>
      forall i :: 0 <= i < CircleCount ==> frame.value[i] == Hue(i, progress) && 0.0 <= frame.value[i] < 360.0
  {
    if progress <= 0.0 then None
    else
      var hues := seq(CircleCount, i requires 0 <= i => Hue(i, progress));
      assert forall i :: 0 <= i < CircleCount ==> 0.0 <= hues[i] < 360.0 by {
        forall i | 0 <= i < CircleCount
          ensures 0.0 <= hues[i] < 360.0
        {
          HueRange(i, progress);
        }
      }
      Some(hues)
  }
}
