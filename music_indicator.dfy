/**
 * The music button of `MusicIndicator`: an icon state machine over a YouTube
 * player, and the hue of its shining ellipse.
 */
module MusicIndicator {
  import opened Common

  datatype Icon = Play | Music | Mute

  /** A call into the YouTube player. */
  datatype PlayerCall = UnMute | PlayVideo | MuteCall

  /** The icon a click moves to once the player is ready. */
  function NextIcon(icon: Icon): (next: Icon)
    ensures next != Play
    ensures icon == Music <==> next == Mute
  {
    match icon
    case Play => Music
    case Music => Mute
    case Mute => Music
  }

  /** The player calls a click makes from `icon` once the player is ready. */
  function ClickCalls(icon: Icon): (calls: seq<PlayerCall>)
    ensures |calls| >= 1
    ensures PlayVideo in calls <==> icon == Play
    ensures MuteCall in calls <==> icon == Music
  {
    match icon
    case Play => [UnMute, PlayVideo]
    case Music => [MuteCall]
    case Mute => [UnMute]
  }

  /** The icon after `n` clicks on a ready player, starting from `icon`. */
  function IconAfter(icon: Icon, n: nat): Icon
  {
    if n == 0 then icon else NextIcon(IconAfter(icon, n - 1))
  }

  /**
   * From "play", the first click shows "music" and the icon then alternates:
   * "music" after an odd number of clicks, "mute" after an even one. "play"
   * is never shown again.
   */
  lemma {:induction false} ClicksAlternate(n: nat)
    requires n >= 1
    ensures IconAfter(Play, n) == if n % 2 == 1 then Music else Mute
    ensures IconAfter(Play, n) != Play
  {
    if n > 1 {
      ClicksAlternate(n - 1);
    }
  }

  /** `getShiningColor`'s hue: three turns of the colour wheel per unit of progress. */
  function ShiningHue(progress: real): real
  {
    JsRem(progress * 1080.0, 360.0)
  }

  /** For a non-negative progress the hue is `1080 * progress` reduced into `[0, 360)`. */
  lemma ShiningHueRange(progress: real)
    requires progress >= 0.0
    ensures 0.0 <= ShiningHue(progress) < 360.0
    ensures ShiningHue(progress) == progress * 1080.0 - 360.0 * ((progress * 3.0).Floor as real)
  {
    JsRemRange(progress * 1080.0, 360.0);
    assert progress * 1080.0 / 360.0 == progress * 3.0;
  }

  /**
   * The scroll callback calls `getShiningColor(0, progress)`, which binds 0
   * to the one parameter: the hue it sets is 0 at every progress.
   */
  function ScrollHue(progress: real): (hue: real)
    ensures hue == 0.0
  {
    ShiningHue(0.0)
  }

  /** The animation loop's hue: the elapsed time in seconds, taken modulo 1. */
  function FrameHue(now: real, start: real): real
  {
    ShiningHue(JsRem((now - start) / 1000.0, 1.0))
  }

  lemma FrameHueRange(now: real, start: real)
    requires now >= start
    ensures 0.0 <= FrameHue(now, start) < 360.0
  {
    var elapsed := (now - start) / 1000.0;
    JsRemRange(elapsed, 1.0);
    ShiningHueRange(JsRem(elapsed, 1.0));
  }

  /** The component's state and the player it drives. */
  class MusicButton {
    /** The `icon` state. */
    var icon: Icon
    /** The `playerReady` state. */
    var playerReady: bool
    /** `playerRef.current` holds a player. */
    var hasPlayer: bool
    /** Every call made into the player, oldest first. */
    var calls: seq<PlayerCall>
    /** The hue last written to the shining ellipse. */
    var ellipseHue: Option<real>

    constructor ()
      ensures icon == Play && !playerReady && !hasPlayer
      ensures calls == [] && ellipseHue == None
    {
      icon := Play;
      playerReady := false;
      hasPlayer := false;
      calls := [];
      ellipseHue := None;
    }

    /** `createPlayer` succeeded: the player exists but is not ready yet. */
    method PlayerCreated()
      modifies this`hasPlayer
      ensures hasPlayer
    {
      hasPlayer := true;
    }

    /** The player's `onReady` callback: the only place `playerReady` becomes true. */
    method OnReady()
      modifies this`playerReady
      ensures playerReady
    {
      playerReady := true;
    }

    /**
     * A click. Without a ready player nothing changes and nothing is called;
     * otherwise the icon advances and the matching player calls are made.
     */
    method HandleClick()
      modifies this`icon, this`calls
      ensures !(playerReady && hasPlayer) ==> icon == old(icon) && calls == old(calls)
      ensures playerReady && hasPlayer ==>
        icon == NextIcon(old(icon)) && calls == old(calls) + ClickCalls(old(icon))
    {
      if !playerReady || !hasPlayer {
        return;
      }
      if icon == Play {
        calls := calls + [UnMute];
        calls := calls + [PlayVideo];
        icon := Music;
      } else if icon == Music {
        calls := calls + [MuteCall];
        icon := Mute;
      } else if icon == Mute {
        calls := calls + [UnMute];
        icon := Music;
      }
    }

    /** The ScrollTrigger's `onUpdate`. */
    method OnScroll(progress: real)
      modifies this`ellipseHue
      ensures ellipseHue == Some(0.0)
    {
      ellipseHue := Some(ScrollHue(progress));
    }

    /** One step of the colour loop. */
    method OnFrame(now: real, start: real)
      requires now >= start
      modifies this`ellipseHue
      ensures ellipseHue == Some(FrameHue(now, start))
      ensures ellipseHue.Some? && 0.0 <= ellipseHue.value < 360.0
    {
      FrameHueRange(now, start);
      ellipseHue := Some(FrameHue(now, start));
    }
  }

  /** Two clicks before the player is ready do nothing; two after it play, then mute. */
  method ClicksBeforeAndAfterReady() returns (icon: Icon, calls: seq<PlayerCall>)
    ensures icon == Mute && calls == [UnMute, PlayVideo, MuteCall]
  {
    var b := new MusicButton();
    b.PlayerCreated();
    b.HandleClick();
    b.HandleClick();
    b.OnReady();
    b.HandleClick();
    b.HandleClick();
    icon, calls := b.icon, b.calls;
  }
}
