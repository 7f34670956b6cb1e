# Scroll choreography of an animated portfolio, in Dafny

The portfolio is a single scrolling page of SVG scenes driven by an animation
library. Underneath the choreography sit a few small pieces of deterministic
logic. This project models that logic and proves what it promises:

- **two scroll smoothers**:
  - `useSmoothScroll` closes a fixed fraction of the gap to the last
    reported scroll offset on every animation frame;
  - `useScrollSmooth` maps a progress ratio to a target offset and jumps
    there when the target moves more than one pixel;
- **small state machines**:
  - the music button (play, then music and mute alternating, guarded by
    the player's readiness);
  - the direction and activity tracking of the asteroid scene;
  - the spaceship's rotation, pose and engine fire;
  - the per-ray gradient cache of an asteroid;
  - the mobile-landscape blocker and its listeners;
- **progress-to-visual mappings**:
  - `smoothstep` / `calculateEasing`;
  - the circle tables of the two spheres and the spiral;
  - the circle opacity and exit gating;
  - the staged word reveal;
  - the spiral's text phases;
  - the hues of the shining colours and the colour-harmony schemes.

All arithmetic is over `real`:

- `Math.round(x)` is `Round(x)`, the floor of `x + 0.5`;
- `a % m` is `JsRem(a, m)`, the remainder truncated toward zero, so its sign
  follows `a`;
- the clamps of the library and of `Math.max`/`Math.min` are `Clamp`.

Each component with state is a `class`:

- its fields are the component's refs, closure variables and React state,
  together with the part of the page it writes (the window's scroll offset,
  the SVG's gradients, the issued tweens);
- its methods are the callbacks, with `modifies` clauses and postconditions
  stating the whole new state;
- a tween of the animation library is represented only by the target it is
  given.

The pure formulas are functions with lemmas about them. A method that
computes in a loop is proved against the function that specifies it.

One module per source file:

| module | file |
|---|---|
| `Common` | helpers for `Math.round`, `%`, clamps and powers |
| `SmoothScroll` | `src/hooks/useSmoothScroll.js` |
| `ScrollSmooth` | `src/hooks/useScrollSmooth.js` |
| `MusicIndicator` | `src/components/MusicIndicator.jsx` |
| `StellarSkills` | `src/components/StellarSkills.jsx` |
| `StarCruise` | `src/components/StarCruise/index.jsx` |
| `SkillAsteroid` | `src/components/SkillAsteroid.jsx` |
| `PranaSphere` | `src/components/PranaSphere/index.jsx` |
| `PranaSphereScene` | `src/components/pranaSphere.jsx` |
| `SpiralIntro` | `src/components/SpiralIntro/index.jsx` |
| `LandscapeBlocker` | `src/components/LandscapeBlocker.jsx` |

## Notes on the code's behaviour

- **Initial offsets.** Both refs of the frame smoother start at 0,
  whatever the page's scroll offset (`SmoothScroll.Smoother.constructor`).
- **Writes at rest.** The frame reschedules itself unconditionally, and
  every frame writes the rounded offset, also once the smoother is at rest
  (`SmoothScroll.Smoother.Frame`).
- **Negative scrollable distance.** The target is the progress times the
  scrollable distance, so a page shorter than the window gives a negative
  target (`ScrollSmooth.TargetOffset`).
- **What the deadband compares against.** The target is compared with
  `lastY`, the last target acted on, not with the current offset
  (`ScrollSmooth.DeadbandSmoother.OnUpdate`).
- **Strictly shrinking gap.** The gap strictly shrinks at every step only
  while the target stays put (`SmoothScroll.GapShrinks`). The smoother's
  own rounded writes are read back as the new target
  (`SmoothScroll.OwnWriteFeedsBack`).

## Model

| member | source | states |
|---|---|---|
| `Common.Round` | src/hooks/useSmoothScroll.js:23 | `Math.round`: the result is the integer within half a unit of `x`, halves rounded up |
| `Common.Clamp` | src/components/PranaSphere/index.jsx:141-145 | the clamp lies in `[lo, hi]`, is `x` inside it and the nearer bound outside it |
| `Common.JsRemRange` | src/components/MusicIndicator.jsx:114 | JavaScript's `%` on a non-negative dividend is the floored modulus in `[0, m)`; on a negative one it lies in `(-m, 0]` |
| `Common.JsRemPeriodic` | src/components/SpiralIntro/index.jsx:18 | adding whole multiples of `m` to a non-negative dividend does not change `%` |
| `Common.JsRemWrapOnce` | src/components/pranaSphere.jsx:35-36 | a dividend in `[0, 2m)` is reduced by at most one `m` |
| `Common.PowBounds` | src/hooks/useSmoothScroll.js:17-20 | every power of a base in `[0, 1]` stays in `[0, 1]`, and is positive for a positive base |
| `SmoothScroll.StepGap` | src/hooks/useSmoothScroll.js:17-20 | one step leaves exactly the fraction `1 - s` of the gap to the target |
| `SmoothScroll.GapAfterSteps` | src/hooks/useSmoothScroll.js:17-20 | convergence: after `n` frames toward a fixed target the gap is `(1 - s)^n` times the first gap |
| `SmoothScroll.NoOvershoot` | src/hooks/useSmoothScroll.js:17-20 | with `0 < s <= 1` every position lies between the start and the target; the approach never crosses the target |
| `SmoothScroll.GapShrinks` | src/hooks/useSmoothScroll.js:17-20 | with `0 < s < 1` the gap never closes, keeps its sign and strictly shrinks at every step |
| `SmoothScroll.GapNeverCloses` | src/hooks/useSmoothScroll.js:17-20 | with `0 < s < 1` a non-zero first gap stays non-zero after any number of steps |
| `SmoothScroll.StepShrinks` | src/hooks/useSmoothScroll.js:17-20 | one step from any offset moves strictly toward the target and neither reaches nor passes it |
| `SmoothScroll.LandsWithFullSmoothness` | src/hooks/useSmoothScroll.js:17-20 | with `s = 1` the first step lands on the target and every later one stays there |
| `SmoothScroll.HalfwayScenario` | src/hooks/useSmoothScroll.js:17-23 | at `s = 0.5` from 0 toward 100 the positions are 50, 75, 87.5 and their rounded writes 50, 75, 88 |
| `SmoothScroll.Smoother.constructor` | src/hooks/useSmoothScroll.js:4-5 | both refs start at 0, whatever the page's scroll offset; nothing is written or scheduled yet |
| `SmoothScroll.Smoother.Start` | src/hooks/useSmoothScroll.js:30-31 | the effect requests the first frame and registers the listener, changing no offset |
| `SmoothScroll.Smoother.DeliverScroll` | src/hooks/useSmoothScroll.js:10-12 | a delivered scroll notification copies the window's offset into `targetY` and touches nothing else |
| `SmoothScroll.Smoother.Frame` | src/hooks/useSmoothScroll.js:15-27 | a pending frame moves `currentY` one step (unrounded), writes exactly `Math.round(currentY)` once, and requests the next frame even at rest; with no frame pending nothing happens |
| `SmoothScroll.Smoother.Teardown` | src/hooks/useSmoothScroll.js:34-39 | the cleanup removes the listener and cancels the pending frame |
| `SmoothScroll.Smoother.Replay` | src/hooks/useSmoothScroll.js:34-39 | after teardown no sequence of window events writes or moves either offset |
| `SmoothScroll.HalfwayFrames` | src/hooks/useSmoothScroll.js:17-23 | three frames of the class at `s = 0.5` give positions 50, 75, 87.5 and writes 50, 75, 88 |
| `SmoothScroll.OwnWriteFeedsBack` | src/hooks/useSmoothScroll.js:10-23 | the smoother's own write is read back as the target: a 4-pixel scroll at the default smoothness is written as 0 and undone |
| `ScrollSmooth.TargetOffset` | src/hooks/useScrollSmooth.js:15-17 | the target is 0 at progress 0 or with no scrollable distance, within the distance for a progress in `[0, 1]`, and negative for content shorter than the window |
| `ScrollSmooth.DeadbandScenario` | src/hooks/useScrollSmooth.js:15-19 | with 1000 pixels to scroll, 0.37 gives 370, which a `lastY` of 369.4 absorbs; 0.40 gives 400, which starts a write |
| `ScrollSmooth.DeadbandSmoother.constructor` | src/hooks/useScrollSmooth.js:9-11 | `lastY` starts at the window's offset and the hook's trigger joins those already on the page |
| `ScrollSmooth.DeadbandSmoother.OnUpdate` | src/hooks/useScrollSmooth.js:14-33 | while its trigger is alive, a target more than one pixel from `lastY` replaces any running tween and becomes `lastY`; otherwise nothing changes |
| `ScrollSmooth.DeadbandSmoother.TweenUpdate` | src/hooks/useScrollSmooth.js:23-28 | every tween update jumps to exactly the tween's target with behavior "auto" |
| `ScrollSmooth.DeadbandSmoother.TweenComplete` | src/hooks/useScrollSmooth.js:20-22 | when its duration runs out the tween is gone |
| `ScrollSmooth.DeadbandSmoother.Teardown` | src/hooks/useScrollSmooth.js:36-38 | the cleanup kills every trigger on the page, not only its own |
| `ScrollSmooth.DeadbandSmoother.RunTween` | src/hooks/useScrollSmooth.js:20-28 | however many updates a tween gets, each appends one write of exactly its target; no intermediate offset is written |
| `ScrollSmooth.SmallChangeIgnored` | src/hooks/useScrollSmooth.js:19 | a target within a pixel of `lastY` starts nothing and leaves `lastY` unchanged |
| `ScrollSmooth.SilentAfterTeardown` | src/hooks/useScrollSmooth.js:36-38 | after teardown even a far target starts nothing |
| `MusicIndicator.NextIcon` | src/components/MusicIndicator.jsx:121-131 | a click never shows "play", and shows "mute" exactly when coming from "music" |
| `MusicIndicator.ClickCalls` | src/components/MusicIndicator.jsx:121-131 | a click always calls the player; it plays exactly from "play" and mutes exactly from "music" |
| `MusicIndicator.ClicksAlternate` | src/components/MusicIndicator.jsx:121-131 | from "play", odd click counts show "music" and even ones "mute"; "play" is never re-entered |
| `MusicIndicator.ShiningHueRange` | src/components/MusicIndicator.jsx:113-116 | the hue is `1080 p` reduced into `[0, 360)` for a non-negative progress |
| `MusicIndicator.ScrollHue` | src/components/MusicIndicator.jsx:134-141 | the scroll callback passes 0 as the only parameter, so the hue it sets is always 0 |
| `MusicIndicator.FrameHueRange` | src/components/MusicIndicator.jsx:99-111 | the colour loop's hue, from the elapsed seconds modulo 1, lies in `[0, 360)` |
| `MusicIndicator.MusicButton.constructor` | src/components/MusicIndicator.jsx:17-18 | the icon starts at "play", the player is not ready and nothing is called |
| `MusicIndicator.MusicButton.PlayerCreated` | src/components/MusicIndicator.jsx:29-31 | creating the player gives a player that is not yet ready |
| `MusicIndicator.MusicButton.OnReady` | src/components/MusicIndicator.jsx:43-45 | `onReady` is what makes the player ready |
| `MusicIndicator.MusicButton.HandleClick` | src/components/MusicIndicator.jsx:118-132 | without a ready player nothing changes and nothing is called; otherwise the icon advances and exactly the matching calls are made |
| `MusicIndicator.MusicButton.OnScroll` | src/components/MusicIndicator.jsx:136-139 | every scroll update sets the ellipse's hue to 0 |
| `MusicIndicator.MusicButton.OnFrame` | src/components/MusicIndicator.jsx:102-108 | every frame sets exactly the hue of the elapsed seconds modulo 1, which lies in `[0, 360)` |
| `MusicIndicator.ClicksBeforeAndAfterReady` | src/components/MusicIndicator.jsx:118-132 | two clicks before readiness do nothing; two after it call unMute, playVideo, then mute |
| `StellarSkills.TechProgress` | src/components/StellarSkills.jsx:82 | an asteroid's progress is the progress past its delay, never negative |
| `StellarSkills.AsteroidBounds` | src/components/StellarSkills.jsx:82-91 | until its delay an asteroid keeps its start offsets and size 0; below the end of the range its size is at most its largest size plus rounding |
| `StellarSkills.SizesForExactly` | src/components/StellarSkills.jsx:74-106 | the size map holds exactly the mounted asteroids, each with its own rounded size |
| `StellarSkills.RenderedSize` | src/components/StellarSkills.jsx:208 | an asteroid with no size entry is drawn at size 0 |
| `StellarSkills.ComputeFrame` | src/components/StellarSkills.jsx:73-107 | the frame's loop builds exactly the size map and the placements the table specifies |
| `StellarSkills.SkillsTracker.constructor` | src/components/StellarSkills.jsx:15-21 | progress 0, forward, inactive, no timer, no frame and no sizes |
| `StellarSkills.SkillsTracker.HandleScrollUpdate` | src/components/StellarSkills.jsx:36-71 | records the progress, sets the direction (left unchanged on equal progress), marks scrolling active and re-arms the 100 ms timer; only a progress inside `(0, 1)` replaces the pending frame |
| `StellarSkills.SkillsTracker.TimerTick` | src/components/StellarSkills.jsx:60-63 | a due timer marks scrolling inactive; scrolling is active exactly while a timer is armed |
| `StellarSkills.SkillsTracker.RunFrame` | src/components/StellarSkills.jsx:73-107 | the pending frame replaces the size map and the placements wholesale, for the progress it was requested with |
| `StellarSkills.SkillsTracker.Unmount` | src/components/StellarSkills.jsx:182-191 | the cleanup clears the timer and cancels the frame |
| `StellarSkills.ActivityDebounce` | src/components/StellarSkills.jsx:55-63 | scrolling stays active until 100 ms after the last update, not the first |
| `StellarSkills.EndOfRangeSkipsLayout` | src/components/StellarSkills.jsx:41-66 | progress 1 skips the layout but still records progress, direction and activity |
| `StarCruise.RotationFor` | src/components/StarCruise/index.jsx:54 | 270 degrees exactly for direction -1, 90 otherwise |
| `StarCruise.ShipPoseBounds` | src/components/StarCruise/index.jsx:61-86 | over `[0, 1]` scale and opacity are equal and in `[0, 1]`; the ship is left of centre only in the entry and right of it only in the exit |
| `StarCruise.PhasesAgree` | src/components/StarCruise/index.jsx:39-108 | the three phases meet at 0.01 and 0.99; the entry starts at the initial set position and the exit ends at the leave position |
| `StarCruise.Cruise.constructor` | src/components/StarCruise/index.jsx:36-48 | `lastDirection` starts at 1, the ship is off the left edge at scale 0 and the fire is hidden |
| `StarCruise.Cruise.OnUpdate` | src/components/StarCruise/index.jsx:95-101 | while the triggers live, a new update replaces the pending frame's progress and direction; a killed trigger changes nothing |
| `StarCruise.Cruise.HandleScroll` | src/components/StarCruise/index.jsx:50-87 | a change of direction issues one rotation and is remembered; the ship is tweened to the pose of the progress |
| `StarCruise.Cruise.RunFrame` | src/components/StarCruise/index.jsx:96-100 | the frame handles only the latest update |
| `StarCruise.Cruise.OnLeave` | src/components/StarCruise/index.jsx:102-109 | while the triggers live, leaving sends the ship off the right edge at scale and opacity 0 |
| `StarCruise.Cruise.OnEnterBack` | src/components/StarCruise/index.jsx:110-118 | while the triggers live, coming back gives the cruise pose |
| `StarCruise.Cruise.OnScrollActivity` | src/components/StarCruise/index.jsx:147-175 | while the triggers live, an update notes the time, shows the fire and restarts colour cycling and polling |
| `StarCruise.Cruise.CheckScrolling` | src/components/StarCruise/index.jsx:127-141 | more than 50 ms after the last update the fire is hidden and cycling and polling stop; otherwise polling goes on |
| `StarCruise.LatestUpdateWins` | src/components/StarCruise/index.jsx:50-101 | of two updates before a frame only the second is handled; a repeated direction does not rotate again |
| `StarCruise.Cruise.Teardown` | src/components/StarCruise/index.jsx:179-183 | the cleanup stops the colour interval and the polling and kills the triggers, but leaves a pending `handleScroll` frame in place |
| `StarCruise.FrameAfterTeardown` | src/components/StarCruise/index.jsx:95-101 | an update queued before the cleanup still moves the ship; an update after it is never delivered |
| `StarCruise.FireGoesOut` | src/components/StarCruise/index.jsx:127-141 | the fire is still lit exactly 50 ms after the last update and out 51 ms after it |
| `SkillAsteroid.FlowStops` | src/components/SkillAsteroid.jsx:86-91 | a lit ray's gradient has four stops: the colour at 0 and the flow position, transparent at the flow position and 100; in order for a flow position in `[0, 100]` |
| `SkillAsteroid.FadeOutStops` | src/components/SkillAsteroid.jsx:141-149 | a fading ray's gradient has four stops `i * 33.33` percent |
| `SkillAsteroid.FadeOutDiffersFromFlow` | src/components/SkillAsteroid.jsx:86-149 | the fade-out stops are all transparent, end at 99.99, and differ from every lit gradient |
| `SkillAsteroid.RayGradients.constructor` | src/components/SkillAsteroid.jsx:28 | the cache starts empty |
| `SkillAsteroid.RayGradients.CreateGradient` | src/components/SkillAsteroid.jsx:47-109 | a hit on equal colour and flow position changes nothing; a miss inside an SVG replaces the gradient and caches it; outside an SVG nothing is cached; the reference is always the ray's id |
| `SkillAsteroid.RayGradients.CreateFadeOutGradient` | src/components/SkillAsteroid.jsx:112-153 | writes the transparent stops without touching the cache, so a cached ray no longer matches the SVG |
| `SkillAsteroid.RayGradients.Clear` | src/components/SkillAsteroid.jsx:264-268 | the unmount empties the cache |
| `SkillAsteroid.RayGradients.AnimateRay` | src/components/SkillAsteroid.jsx:185-212 | a lit ray gets the colour gradient, any other ray the fade-out gradient |
| `SkillAsteroid.StaleCacheAfterFadeOut` | src/components/SkillAsteroid.jsx:47-153 | lit, faded and lit again alike, a ray stays transparent while the cache describes its colour |
| `SkillAsteroid.DotProgress` | src/components/SkillAsteroid.jsx:160-163 | the dot progress lies in `[0, 1]` |
| `SkillAsteroid.DotLitIff` | src/components/SkillAsteroid.jsx:160-165 | dot `i` is lit exactly while scrolling past `0.1 i` |
| `SkillAsteroid.DotOpacity` | src/components/SkillAsteroid.jsx:165-172 | opacity 1 exactly for a lit dot, 0 otherwise |
| `SkillAsteroid.DotsLightInOrder` | src/components/SkillAsteroid.jsx:160-165 | a later dot is never lit before an earlier one |
| `SkillAsteroid.RayProgress` | src/components/SkillAsteroid.jsx:189 | the ray progress lies in `[0, 1]` and is positive exactly for a positive scroll progress |
| `SkillAsteroid.LabelOpacity` | src/components/SkillAsteroid.jsx:340 | the label is opaque exactly when not scrolling and wider than 70 |
| `PranaSphere.SmoothPolyBounds` | src/components/PranaSphere/index.jsx:11 | on `[0, 1]` the polynomial stays in `[0, 1]`, and is 0 only at 0 and 1 only at 1 |
| `PranaSphere.SmoothPolyMonotone` | src/components/PranaSphere/index.jsx:11 | the polynomial is non-decreasing on `[0, 1]` |
| `PranaSphere.SmoothPolyMirror` | src/components/PranaSphere/index.jsx:11 | the polynomial is symmetric about `(1/2, 1/2)` |
| `PranaSphere.Smoothstep` | src/components/PranaSphere/index.jsx:9-12 | needs `min != max`, and lies in `[0, 1]` |
| `PranaSphere.SmoothstepEnds` | src/components/PranaSphere/index.jsx:9-12 | `smoothstep(0, 1, e)` is 0 at or below 0, 1 at or above 1, strictly between in between |
| `PranaSphere.SmoothstepMonotone` | src/components/PranaSphere/index.jsx:9-12 | `smoothstep(0, 1, ·)` is non-decreasing |
| `PranaSphere.SmoothstepMirror` | src/components/PranaSphere/index.jsx:9-12 | `smoothstep(1, 0, e) = 1 - smoothstep(0, 1, e)` for every `e` |
| `PranaSphere.CircleTable` | src/components/PranaSphere/index.jsx:78-89 | 31 circles of radius `800 - 800 i / 31`, positive and strictly decreasing, reverse index `30 - i` |
| `PranaSphere.ComponentOpacity` | src/components/PranaSphere/index.jsx:141-145 | 1 up to 0.8, 0 from 1, linear in between, always in `[0, 1]` |
| `PranaSphere.Visibility` | src/components/PranaSphere/index.jsx:206-210 | a circle's visibility lies in `[0, 1]` |
| `PranaSphere.Exit` | src/components/PranaSphere/index.jsx:211-215 | a circle's exit lies in `[0, 1]` |
| `PranaSphere.AnimatedWindow` | src/components/PranaSphere/index.jsx:217 | a circle is animated exactly for progress in `(0.02 n, 0.9 + 0.02 n)` |
| `PranaSphere.OpacityRange` | src/components/PranaSphere/index.jsx:231-234 | an animated circle's target opacity is positive and at most 1 |
| `PranaSphere.BaseOpacityRange` | src/components/PranaSphere/index.jsx:344 | the base opacity is in `(0.25, 1]` |
| `PranaSphere.ScaleBeforeWave` | src/components/PranaSphere/index.jsx:235-239 | until 0.6 visible the scale ignores the wave and lies in `[0.01, 1.06]` |
| `PranaSphere.DashPattern` | src/components/PranaSphere/index.jsx:336-341 | reverse index below 10 is solid; the others have a dash in `(10, 100)` and a gap half of it |
| `PranaSphere.PlannedTweensValid` | src/components/PranaSphere/index.jsx:198-249 | every planned tween names a present, animated circle, in strictly increasing order, with its own visibility and exit |
| `PranaSphere.PlannedTweensComplete` | src/components/PranaSphere/index.jsx:201-249 | every present, animated circle gets a tween |
| `PranaSphere.PlannedOpacities` | src/components/PranaSphere/index.jsx:229-247 | every planned tween sets an opacity in `(0, 1]` |
| `PranaSphere.PlanFan` | src/components/PranaSphere/index.jsx:198-249 | the `forEach` over one fan pushes exactly the planned tweens |
| `PranaSphere.RefreshedStops` | src/components/PranaSphere/index.jsx:161-185 | five stops at 0, 25, 50, 75, 100 percent, strictly increasing |
| `PranaSphere.SphereGradient.Refresh` | src/components/PranaSphere/index.jsx:156-194 | the refresh removes every old stop, appends exactly the five new ones and sets the rotation |
| `PranaSphere.SphereView.constructor` | src/components/PranaSphere/index.jsx:115-128 | the setup hides the svg and every circle |
| `PranaSphere.SphereView.OnUpdate` | src/components/PranaSphere/index.jsx:137-146 | while the timeline lives the svg's opacity is the component opacity |
| `PranaSphere.SphereView.ApplyTweens` | src/components/PranaSphere/index.jsx:252-257 | the circles stay all hidden only if the frame ran no tween |
| `PranaSphere.SphereView.Teardown` | src/components/PranaSphere/index.jsx:265-268 | the cleanup kills the timeline and hides everything |
| `PranaSphereScene.CalculateEasing` | src/components/pranaSphere.jsx:49-52 | lies in `[0, 1]` |
| `PranaSphereScene.CalculateEasingIsSmoothstep` | src/components/pranaSphere.jsx:49-52 | `calculateEasing` equals the sphere's `smoothstep` |
| `PranaSphereScene.HarmonyRange` | src/components/pranaSphere.jsx:34-38 | for a non-negative hue every scheme lands in `[0, 360)` |
| `PranaSphereScene.ComplementInvolution` | src/components/pranaSphere.jsx:35 | on `[0, 360)` the complement of the complement is the hue |
| `PranaSphereScene.TriadicCycle` | src/components/pranaSphere.jsx:36 | on `[0, 360)` three triadic steps return to the hue, and one never does |
| `PranaSphereScene.LineOf` | src/components/pranaSphere.jsx:338-342 | a word has a line exactly when it is among the first 20 |
| `PranaSphereScene.TimingsOrdered` | src/components/pranaSphere.jsx:13-18 | every configured line, and every word of it, has start < peak < end |
| `PranaSphereScene.RevealContinuous` | src/components/pranaSphere.jsx:349-372 | the reveal has no jump at start, peak or end |
| `PranaSphereScene.EntryRises` | src/components/pranaSphere.jsx:357-362 | during the entry the opacity rises strictly from 0 toward 1 |
| `PranaSphereScene.ExitGoesNegative` | src/components/pranaSphere.jsx:367-369 | more than 0.1 after its end a word's opacity is negative |
| `PranaSphereScene.OpacityInRange` | src/components/pranaSphere.jsx:349-372 | up to 0.1 after its end a word's opacity is in `[0, 1]` |
| `PranaSphereScene.RevealWords` | src/components/pranaSphere.jsx:337-380 | every configured word gets one tween toward its pose, in order; the rest are skipped |
| `PranaSphereScene.SceneView.constructor` | src/components/pranaSphere.jsx:149-163 | the setup hides the svg and every circle |
| `PranaSphereScene.SceneView.OnUpdate` | src/components/pranaSphere.jsx:172-190 | at or above the start everything is hidden and no frame is requested; otherwise the svg's opacity follows the progress and one frame is requested |
| `PranaSphereScene.SceneView.HideAll` | src/components/pranaSphere.jsx:149-160 | hides the svg and every circle |
| `PranaSphereScene.SceneView.OnEnterBack` | src/components/pranaSphere.jsx:304-307 | the svg is made opaque again |
| `PranaSphereScene.SceneView.ApplyTweens` | src/components/pranaSphere.jsx:292-299 | the circles stay all hidden only if the frame ran no tween |
| `PranaSphereScene.SceneView.Teardown` | src/components/pranaSphere.jsx:311-314 | the cleanup kills the timeline and hides everything |
| `PranaSphereScene.AboveStartStaysHidden` | src/components/pranaSphere.jsx:176-179 | scrolled back above the start, the scene is hidden and requests no frame |
| `SpiralIntro.RadiiTable` | src/components/SpiralIntro/index.jsx:34-37 | 22 radii, each `16.5 (i + 1)`, positive and strictly increasing |
| `SpiralIntro.DashArraysTable` | src/components/SpiralIntro/index.jsx:38-61 | 22 dash pairs, each dash shorter than its gap, both growing outward |
| `SpiralIntro.TransformsAndOpacities` | src/components/SpiralIntro/index.jsx:62-63 | rotations `17 i` within one turn; opacities `0.05 + 0.045 i`, increasing and inside `(0, 1)` |
| `SpiralIntro.FadeOrder` | src/components/SpiralIntro/index.jsx:183-197 | circles fade in from the centre outward and out from the rim inward |
| `SpiralIntro.GroupOpacity` | src/components/SpiralIntro/index.jsx:76-80 | the group is at 0.8 exactly when `0 < p < 1`, at 0 otherwise |
| `SpiralIntro.TextContainerOpacity` | src/components/SpiralIntro/index.jsx:81-83 | the text is at 1 exactly when `0 < p < 1`, at 0 otherwise |
| `SpiralIntro.TextPhasesMeet` | src/components/SpiralIntro/index.jsx:149-160 | the text opacity stays in `[0, 1]`; the phases meet at 0.2 and 0.8 |
| `SpiralIntro.FadeInMonotone` | src/components/SpiralIntro/index.jsx:149-152 | through the fade-in the text grows more opaque and closer to its place |
| `SpiralIntro.FadeOutMonotone` | src/components/SpiralIntro/index.jsx:153-156 | through the fade-out the text grows fainter and moves further on |
| `SpiralIntro.TextUpdate` | src/components/SpiralIntro/index.jsx:162-176 | the name and the title share an opacity; the name goes to `-yPos`, the title to `+yPos` |
| `SpiralIntro.InitialTextPlacement` | src/components/SpiralIntro/index.jsx:205-209 | the title's first target is the opposite of where the mount placed it |
| `SpiralIntro.HueRange` | src/components/SpiralIntro/index.jsx:17-18 | the hue is in `[0, 360)` for a non-negative progress, and repeats every third of the range and every 24 circles |
| `SpiralIntro.MainUpdate` | src/components/SpiralIntro/index.jsx:105-123 | no frame at progress 0 or less; otherwise every circle gets its hue |
| `LandscapeBlocker.Lower` | src/components/LandscapeBlocker.jsx:9-12 | lowering keeps the length and changes only ASCII capitals |
| `LandscapeBlocker.LowerIdempotent` | src/components/LandscapeBlocker.jsx:9-12 | lowering twice is lowering once |
| `LandscapeBlocker.ContainsIff` | src/components/LandscapeBlocker.jsx:9-12 | the search succeeds exactly when the needle occurs somewhere in the agent |
| `LandscapeBlocker.AnyFromIff` | src/components/LandscapeBlocker.jsx:9-12 | the walk over the alternatives succeeds exactly when one of them occurs |
| `LandscapeBlocker.MobileIff` | src/components/LandscapeBlocker.jsx:9-12 | mobile exactly when one of the six names occurs ignoring ASCII case; the agent's case never matters |
| `LandscapeBlocker.ShouldBlock` | src/components/LandscapeBlocker.jsx:9-22 | block exactly a mobile agent with the window strictly wider than tall; never a square window |
| `LandscapeBlocker.AgentExamples` | src/components/LandscapeBlocker.jsx:9-12 | an iPhone agent and "OPERA MINI" are mobile; "iPad" and the empty agent are not |
| `LandscapeBlocker.Blocker.constructor` | src/components/LandscapeBlocker.jsx:4 | the state starts false with nothing registered |
| `LandscapeBlocker.Blocker.CheckOrientation` | src/components/LandscapeBlocker.jsx:7-23 | the state becomes the verdict for the agent and the window |
| `LandscapeBlocker.Blocker.Mount` | src/components/LandscapeBlocker.jsx:25-41 | one check, both listeners added, and one lock request exactly for a mobile agent with a lock |
| `LandscapeBlocker.Blocker.Dispatch` | src/components/LandscapeBlocker.jsx:29-30 | a resize or orientation change re-runs the check only while its listener is registered |
| `LandscapeBlocker.Blocker.Unmount` | src/components/LandscapeBlocker.jsx:44-47 | the cleanup removes both listeners |
| `LandscapeBlocker.TurnThePhone` | src/components/LandscapeBlocker.jsx:7-50 | a phone turned sideways is blocked, upright let through, and after unmounting never blocked again |

## Left out

- **The animation library.** Tween interpolation, easing curves,
  durations, `scrub`, `overwrite` internals and trigger start and end
  strings are not modelled. A tween is its target; a trigger is the
  progress it reports.
- **Browser primitives and clocks.** `requestAnimationFrame`,
  `setTimeout`, `setInterval` and `Date.now` become explicit events (a
  method per callback) and clock values passed in as parameters.
- **Trigonometry and randomness.** These are not modelled:
  - the sine waves: the circle `calculateWaves`, the breathing radius and
    stroke width of the spiral, the shimmer and stop opacities, and the
    ray's `cycleProgress`;
  - the circle rotation formula, which adds the wave.

  The wave, the stop colours and opacities, the ray colour and the flow
  position are parameters instead. `PranaSphereScene.SplitComplementary`
  takes its coin as a parameter. The random HSL colours of the play icon,
  the spiral and the fire are not modelled.
- **Strings.** HSL and CSS formatting, and the text gradient
  `createGradientStyle`, are not modelled; only the hue arithmetic is kept.
- **The YouTube player.** The iframe API, the script injection and the
  readiness polling are not modelled. Creating the player and its
  `onReady` are events of `MusicIndicator.MusicButton`.
- **Scroll bounds and rendering.** The browser's clamping of `scrollTo`
  to the document's range is not modelled. Neither are React rendering,
  hook ordering, SVG markup, the order of a new gradient inside `<defs>`,
  and the random initial fill of dots and rays.
- **Visibility tweens to constants.** These are plain tweens toward fixed
  opacities, and are not modelled:
  - the scene's `onEnter`/`onLeave` tweens in `StellarSkills`;
  - the ship's `onToggle` in `StarCruise`;
  - the per-circle fade timelines of `SpiralIntro`, whose offsets are
    modelled by `SpiralIntro.FadeOrder`.
- **Missing configuration.** `src/components/asteroidConfigs.jsx` is not
  part of this model: the asteroid table is a parameter of
  `StellarSkills`.
- **The orientation lock.** The lock's promise is not modelled. Its
  rejection is caught and ignored, so `LandscapeBlocker.Blocker.Mount`
  counts lock requests only.
- **Numbers.** JavaScript numbers are IEEE doubles. The model computes
  exactly over `real`, so rounding error in the products and sums is not
  captured.
- `SmoothScroll.StepValue`: carries no contract of its own. Its relation
  to the gap is stated by `SmoothScroll.StepGap`.
- `MusicIndicator.MusicButton.OnFrame`: assumes the clock does not go
  backwards (`now >= start`), which `Date.now` does not promise.
- `PranaSphere.SphereView.ApplyTweens`, `PranaSphereScene.SceneView.ApplyTweens`:
  the views track only whether every circle is still hidden. The opacity
  and scale each tween gives its circle, across the four fans, are stated
  on the plan (`PranaSphere.PlannedTweens`, `PranaSphere.TweenOpacity`,
  `PranaSphere.TargetScale`) and are not recorded per circle in the views.
- `SkillAsteroid.RayGradients.CreateGradient`: models one asteroid's cache and defs. Every
  asteroid names its gradients `rayGradient{index}`, so the ids repeat
  across asteroids, and a `url(#rayGradientN)` resolves to the first such
  element in the document. That sharing between instances is not modelled.
- `SpiralIntro.MainUpdate`, `StarCruise.Cruise.OnUpdate`: the frame is
  modelled with the progress of the update that requested it. The frame
  callbacks read `self.progress` when they run, so they see the trigger's
  latest progress. `SpiralIntro` never cancels an earlier frame, so several
  frames queued before a repaint all paint with that latest progress.
