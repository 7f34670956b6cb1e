/**
 * `LandscapeBlocker`: on a mobile agent held sideways, a full-screen notice
 * asks for portrait mode. The orientation check runs at mount and on every
 * `resize` and `orientationchange`, until the listeners are removed.
 *
 * The user agent and the window's size are parameters of each check. The
 * agent test is the regular expression
 * `iPhone|Android|webOS|BlackBerry|IEMobile|Opera Mini` with the `i` flag.
 * Without the `u` flag JavaScript folds case only between ASCII letters
 * (no character of 128 or above is folded onto an ASCII one), so lowering
 * the ASCII capitals of the agent and matching lower-case alternatives is
 * exactly that test.
 */
module LandscapeBlocker {

  /** A character with its ASCII capital lowered. */
  function LowerChar(c: char): char
  {
    if 'A' <= c <= 'Z' then (c as int + 32) as char else c
  }

  /** A string with every ASCII capital lowered, and nothing else changed. */
  function Lower(s: string): (r: string)
    ensures |r| == |s|
    ensures forall i :: 0 <= i < |s| ==> r[i] == LowerChar(s[i])
    ensures forall i :: 0 <= i < |s| ==> ('A' <= s[i] <= 'Z' || r[i] == s[i])
  {
    seq(|s|, i requires 0 <= i < |s| => LowerChar(s[i]))
  }

  /** Lowering twice is lowering once. */
  lemma LowerIdempotent(s: string)
    ensures Lower(Lower(s)) == Lower(s)
  {
    assert forall i :: 0 <= i < |s| ==> LowerChar(LowerChar(s[i])) == LowerChar(s[i]);
  }

  /** `needle` occurs in `hay` starting at `i`. */
  predicate OccursAt(hay: string, needle: string, i: int)
  {
    0 <= i <= |hay| - |needle| && hay[i..i + |needle|] == needle
  }

  /** The substring search: try every start from the left. */
  function Contains(hay: string, needle: string): bool
    decreases |hay|
  {
    if |needle| > |hay| then false
    else if hay[..|needle|] == needle then true
    else Contains(hay[1..], needle)
  }

  /** The search finds `needle` exactly when it occurs somewhere in `hay`. */
  lemma {:induction false} ContainsIff(hay: string, needle: string)
    ensures Contains(hay, needle) <==> exists i :: OccursAt(hay, needle, i)
    decreases |hay|
  {
    if |needle| > |hay| {
    } else if hay[..|needle|] == needle {
      assert OccursAt(hay, needle, 0);
    } else {
      var tail := hay[1..];
      ContainsIff(tail, needle);
      if Contains(tail, needle) {
        var j :| OccursAt(tail, needle, j);
        assert hay[j + 1..j + 1 + |needle|] == tail[j..j + |needle|];
        assert OccursAt(hay, needle, j + 1);
      }
      if i :| OccursAt(hay, needle, i) {
        assert i != 0;
        assert tail[i - 1..i - 1 + |needle|] == hay[i..i + |needle|];
        assert OccursAt(tail, needle, i - 1);
      }
    }
  }

  /** The alternatives of the mobile pattern, lower-cased. */
  const MobileAgents: seq<string> := ["iphone", "android", "webos", "blackberry", "iemobile", "opera mini"]

  /** Some alternative from `k` on occurs in `hay`. */
  function AnyFrom(hay: string, k: nat): bool
    decreases |MobileAgents| - k
  {
    if k >= |MobileAgents| then false
    else Contains(hay, MobileAgents[k]) || AnyFrom(hay, k + 1)
  }

  /** The agent test: the lowered agent contains one of the alternatives. */
  predicate IsMobile(userAgent: string)
  {
    AnyFrom(Lower(userAgent), 0)
  }

  lemma {:induction false} AnyFromIff(hay: string, k: nat)
    ensures AnyFrom(hay, k) <==> exists a, i :: k <= a < |MobileAgents| && OccursAt(hay, MobileAgents[a], i)
    decreases |MobileAgents| - k
  {
    if k < |MobileAgents| {
      ContainsIff(hay, MobileAgents[k]);
      AnyFromIff(hay, k + 1);
    }
  }

  /**
   * An agent is mobile exactly when one of the six names occurs in it,
   * ignoring the case of ASCII letters; changing that case never changes the answer.
   */
  lemma MobileIff(userAgent: string)
    ensures IsMobile(userAgent) <==>
      exists a, i :: 0 <= a < |MobileAgents| && OccursAt(Lower(userAgent), MobileAgents[a], i)
    ensures IsMobile(Lower(userAgent)) == IsMobile(userAgent)
  {
    AnyFromIff(Lower(userAgent), 0);
    LowerIdempotent(userAgent);
  }

  /** Landscape is strictly wider than tall: a square window is not landscape. */
  predicate IsLandscape(width: real, height: real)
  {
    width > height
  }

  /** `checkOrientation`'s verdict: block a mobile agent held in landscape. */
  function ShouldBlock(userAgent: string, width: real, height: real): (block: bool)
    ensures block <==> IsMobile(userAgent) && width > height
    ensures width == height ==> !block
  {
    IsMobile(userAgent) && IsLandscape(width, height)
  }

  /** Some agents, in the case they arrive in. */
  lemma AgentExamples()
    ensures IsMobile("Mozilla/5.0 (iPhone)")
    ensures IsMobile("OPERA MINI")
    ensures !IsMobile("iPad")
    ensures !IsMobile("")
  {
    var ua := Lower("Mozilla/5.0 (iPhone)");
    assert ua[13..19] == "iphone";
    ContainsIff(ua, "iphone");
    assert OccursAt(ua, "iphone", 13);
    assert Lower("OPERA MINI") == "opera mini";
    assert Lower("iPad") == "ipad";
  }

  /** The two window events that re-run the check. */
  datatype WindowEvent = Resize | OrientationChange

  /** The component's state and what it has registered with the window. */
  class Blocker {
    /** The `isLandscape` state: the notice is rendered exactly while it holds. */
    var isLandscape: bool
    /** The events `checkOrientation` is listening to. */
    var listeners: set<WindowEvent>
    /** Portrait locks requested so far. */
    var lockRequests: nat

    /** The initial render: the state is false and nothing is registered. */
    constructor ()
      ensures !isLandscape && listeners == {} && lockRequests == 0
    {
      isLandscape := false;
      listeners := {};
      lockRequests := 0;
    }

    /** The component renders the notice, or nothing. */
    predicate Renders()
      reads this
    {
      isLandscape
    }

    /** `checkOrientation`: the state becomes the verdict for this agent and window. */
    method CheckOrientation(userAgent: string, width: real, height: real)
      modifies this`isLandscape
      ensures isLandscape == ShouldBlock(userAgent, width, height)
    {
      var isMobileDevice := IsMobile(userAgent);
      var isLandscapeMode := width > height;
      if isMobileDevice && isLandscapeMode {
        isLandscape := true;
      } else {
        isLandscape := false;
      }
    }

    /**
     * The effect: one check, both listeners added, and one portrait lock
     * requested when the agent is mobile and the screen offers a lock. A
     * refused lock is caught and ignored, so it changes nothing here.
     */
    method Mount(userAgent: string, width: real, height: real, lockAvailable: bool)
      modifies this
      ensures isLandscape == ShouldBlock(userAgent, width, height)
      ensures listeners == old(listeners) + {Resize, OrientationChange}
      ensures lockRequests == old(lockRequests) + (if IsMobile(userAgent) && lockAvailable then 1 else 0)
    {
      CheckOrientation(userAgent, width, height);
      listeners := listeners + {Resize, OrientationChange};
      if IsMobile(userAgent) && lockAvailable {
        lockRequests := lockRequests + 1;
      }
    }

    /** A window event: the check runs again only while its listener is registered. */
    method Dispatch(event: WindowEvent, userAgent: string, width: real, height: real)
      modifies this`isLandscape
      ensures event in listeners ==> isLandscape == ShouldBlock(userAgent, width, height)
      ensures event !in listeners ==> isLandscape == old(isLandscape)
    {
      if event in listeners {
        CheckOrientation(userAgent, width, height);
      }
    }

    /** The cleanup removes both listeners. */
    method Unmount()
      modifies this`listeners
      ensures listeners == old(listeners) - {Resize, OrientationChange}
    {
      listeners := listeners - {Resize, OrientationChange};
    }
  }

  /**
   * A phone turned sideways is blocked, turned upright again is let through,
   * and once unmounted a further turn no longer shows the notice.
   */
  method TurnThePhone() returns (sideways: bool, upright: bool, afterUnmount: bool, locks: nat)
    ensures sideways && !upright && !afterUnmount && locks == 1
  {
    var ua := "Mozilla/5.0 (iPhone)";
    AgentExamples();
    var b := new Blocker();
    b.Mount(ua, 800.0, 400.0, true);
    sideways := b.Renders();
    b.Dispatch(OrientationChange, ua, 400.0, 800.0);
    upright := b.Renders();
    b.Unmount();
    b.Dispatch(Resize, ua, 800.0, 400.0);
    afterUnmount := b.Renders();
    locks := b.lockRequests;
  }
}
