/**
 * The slingshot animation (SlingshotAnimObject): a two-field state machine.
 * A hit on the slingshot sets timeReset; the next animation step pulls the
 * slingshot in (iframe) when animations are enabled, and a later step
 * releases it once the clock has passed timeReset, clearing timeReset.
 */
module Slingshot {

  /** The three public fields of the animation object, as one value. */
  datatype Sling = Sling(timeReset: int, animations: bool, iframe: bool)

  /** A pulled-in slingshot always has a reset time pending (0 means "reset"). */
  predicate Pending(s: Sling) {
    s.iframe ==> s.timeReset != 0
  }

  /**
   * animate: a slingshot at rest with a pending reset time and animations on is
   * pulled in; a pulled-in slingshot whose reset time has passed is released
   * and its reset time cleared; in every other case nothing changes.
   */
  function Animated(s: Sling, now: int): (r: Sling)
    ensures r.animations == s.animations
    ensures !s.iframe && (s.timeReset == 0 || !s.animations) ==> r == s
    ensures !s.iframe && s.timeReset != 0 && s.animations ==> r.iframe && r.timeReset == s.timeReset
    ensures s.iframe && s.timeReset < now ==> !r.iframe && r.timeReset == 0
    ensures s.iframe && now <= s.timeReset ==> r == s
    ensures Pending(s) ==> Pending(r)
  {
    if !s.iframe && s.timeReset != 0 && s.animations then s.(iframe := true)
    else if s.iframe && s.timeReset < now then s.(iframe := false, timeReset := 0)
    else s
  }

  /** The slingshot after one animation step at each of the given times. */
  function AnimateAll(s: Sling, times: seq<int>): Sling
    decreases |times|
  {
    if times == [] then s else AnimateAll(Animated(s, times[0]), times[1..])
  }

  /** Any run of animation steps keeps the pull-in invariant and never touches animations. */
  lemma {:induction false} AnimateAllKeepsPending(s: Sling, times: seq<int>)
    requires Pending(s)
    ensures Pending(AnimateAll(s, times))
    ensures AnimateAll(s, times).animations == s.animations
    decreases |times|
  {
    if times != [] {
      AnimateAllKeepsPending(Animated(s, times[0]), times[1..]);
    }
  }

  /** A slingshot at rest with no reset pending, or with animations off, stays as it is for good. */
  lemma {:induction false} IdleSlingshotStaysIdle(s: Sling, times: seq<int>)
    requires !s.iframe && (s.timeReset == 0 || !s.animations)
    ensures AnimateAll(s, times) == s
    decreases |times|
  {
    if times != [] {
      IdleSlingshotStaysIdle(s, times[1..]);
    }
  }

  /**
   * A pending pull-in with animations on plays out in two steps: the first
   * pulls the slingshot in, one after the reset time releases it.
   */
  lemma PullInThenRelease(s: Sling, t1: int, t2: int)
    requires !s.iframe && s.timeReset != 0 && s.animations
    requires s.timeReset < t2
    ensures AnimateAll(s, [t1, t2]) == s.(timeReset := 0)
  {
    var s1 := Animated(s, t1);
    assert s1 == s.(iframe := true);
    assert [t1, t2][1..] == [t2];
    assert AnimateAll(s, [t1, t2]) == AnimateAll(s1, [t2]);
    assert [t2][1..] == [];
    assert AnimateAll(s1, [t2]) == AnimateAll(Animated(s1, t2), []);
  }

  class SlingshotAnimObject {
    /** Time at which to pull in the slingshot; 0 means it is currently reset. */
    var timeReset: int
    var animations: bool
    var iframe: bool

    constructor ()
      ensures View() == Sling(0, false, false)
    {
      timeReset := 0;
      animations := false;
      iframe := false;
    }

    function View(): Sling
      reads this
    {
      Sling(timeReset, animations, iframe)
    }

    method Animate(now: int)
      modifies this
      ensures View() == Animated(old(View()), now)
    {
      if !iframe && timeReset != 0 && animations {
        iframe := true;
      } else if iframe && timeReset < now {
        iframe := false;
        timeReset := 0;
      }
    }
  }
}
