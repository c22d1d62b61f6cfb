/**
 * The light animation of a table light (LightAnimation): a discrete state
 * (Off, On, Blinking), a timed "start state, duration, final state" override
 * that clears itself when it runs out, a blink-pattern cursor stepped once per
 * blink interval, and an intensity that fades toward its target.
 *
 * The value-level functions After* say what each operation does to the whole
 * animation state; the class LightAnimation performs the same updates field by
 * field, as the source does, and is proved to agree with them.
 */
module Light {
  import opened Geometry

  /** Enums.LightStatus */
  datatype LightStatus = Off | On | Blinking

  /** The part of the immutable LightData the animation reads. */
  datatype LightData = LightData(
    state: LightStatus,        // state the light starts in
    isVisible: bool,
    blinkInterval: int,        // milliseconds between two pattern frames
    rgBlinkPattern: string,    // one character per frame, '1' means lit
    intensity: real,
    fadeSpeedUp: real,         // intensity gained per millisecond
    fadeSpeedDown: real)       // intensity lost per millisecond

  /**
   * Everything the animation reads and writes: its own fields and the
   * intensity of the shared LightState.
   */
  datatype Animation = Animation(
    realState: LightStatus,
    finalState: LightStatus,
    timeNextBlink: int,
    intensityScale: real,
    timeMsec: int,
    timerDurationEndTime: int,
    duration: int,
    iBlinkFrame: nat,
    intensity: real)

  /** The animation as the constructor leaves it, over an existing LightState intensity. */
  function Initial(d: LightData, intensity: real): Animation {
    Animation(d.state, Off, 0, 1.0, 0, 0, 0, 0, intensity)
  }

  /**
   * The blink cursor points into the pattern; 0 is also allowed, which is
   * where the cursor sits when the pattern is empty.
   */
  predicate FrameInRange(d: LightData, a: Animation) {
    a.iBlinkFrame == 0 || a.iBlinkFrame < |d.rgBlinkPattern|
  }

  /** The intensity the light fades toward when it is on. */
  function Target(d: LightData, a: Animation): real {
    d.intensity * a.intensityScale
  }

  /** The string s.substr(i, 1) of JavaScript, for a start index that is not negative. */
  function Substr1(s: string, i: nat): string {
    if i < |s| then s[i..i + 1] else ""
  }

  /** isBlinkOn: the pattern character under the cursor is '1'. */
  function IsBlinkOn(d: LightData, a: Animation): (on: bool)
    ensures on <==> a.iBlinkFrame < |d.rgBlinkPattern| && d.rgBlinkPattern[a.iBlinkFrame] == '1'
  {
    var c := Substr1(d.rgBlinkPattern, a.iBlinkFrame);
    assert |c| == 1 ==> c[0] == d.rgBlinkPattern[a.iBlinkFrame];
    c == "1"
  }

  /** isOn: a blinking light follows its pattern, any other light is on unless it is Off. */
  function IsOn(d: LightData, a: Animation): (on: bool)
    ensures a.realState == Off ==> !on
    ensures a.realState == On ==> on
    ensures a.realState == Blinking ==>
      (on <==> a.iBlinkFrame < |d.rgBlinkPattern| && d.rgBlinkPattern[a.iBlinkFrame] == '1')
  {
    if a.realState == Blinking then IsBlinkOn(d, a) else a.realState != Off
  }

  /**
   * setState: a request for the current state changes nothing; any other
   * state is taken at once, cancels a pending timed override, and when it is
   * Blinking starts the pattern from its first frame right away.
   */
  function AfterSetState(d: LightData, a: Animation, newVal: LightStatus, now: int): (r: Animation)
    ensures newVal == a.realState ==> r == a
    ensures newVal != a.realState ==> r.realState == newVal && r.duration <= 0
    ensures newVal != a.realState && a.duration > 0 ==> r.duration == 0
    ensures a.duration <= 0 ==> r.duration == a.duration
    ensures newVal != a.realState && newVal == Blinking ==> r.iBlinkFrame == 0 && r.timeNextBlink == now
    ensures newVal != Blinking ==> r.iBlinkFrame == a.iBlinkFrame && r.timeNextBlink == a.timeNextBlink
    ensures r.finalState == a.finalState && r.timerDurationEndTime == a.timerDurationEndTime
    ensures r.timeMsec == a.timeMsec && r.intensity == a.intensity && r.intensityScale == a.intensityScale
    ensures FrameInRange(d, a) ==> FrameInRange(d, r)
  {
    if newVal == a.realState then a
    else
      var b := if newVal == Blinking then a.(realState := newVal, timeNextBlink := now, iBlinkFrame := 0)
               else a.(realState := newVal);
      if b.duration > 0 then b.(duration := 0) else b
  }

  /** restartBlinker: first frame, next blink one interval from now, override end re-timed from now. */
  function AfterRestartBlinker(d: LightData, a: Animation, now: int): (r: Animation)
    ensures r.iBlinkFrame == 0 && FrameInRange(d, r)
    ensures r.timeNextBlink == now + d.blinkInterval
    ensures r.timerDurationEndTime == now + a.duration
    ensures r.realState == a.realState && r.finalState == a.finalState && r.duration == a.duration
    ensures r.timeMsec == a.timeMsec && r.intensity == a.intensity && r.intensityScale == a.intensityScale
  {
    a.(iBlinkFrame := 0, timeNextBlink := now + d.blinkInterval, timerDurationEndTime := now + a.duration)
  }

  /** The frame after f in a pattern of length n: one further, back to 0 at the end. */
  function NextFrame(f: nat, n: nat): (g: nat)
    ensures f < n ==> g == (f + 1) % n
    ensures g == 0 || g < n
  {
    if f + 1 >= n then 0 else f + 1
  }

  /**
   * updateBlinker: once the next blink is due, the cursor moves one frame
   * (wrapping at the pattern length) and the next blink is one interval later;
   * before that nothing changes.
   */
  function AfterUpdateBlinker(d: LightData, a: Animation, now: int): (r: Animation)
    ensures now < a.timeNextBlink ==> r == a
    ensures a.timeNextBlink <= now ==> r.timeNextBlink == a.timeNextBlink + d.blinkInterval
    ensures a.timeNextBlink <= now && a.iBlinkFrame < |d.rgBlinkPattern| ==>
      r.iBlinkFrame == (a.iBlinkFrame + 1) % |d.rgBlinkPattern|
    ensures a.timeNextBlink <= now && |d.rgBlinkPattern| == 0 ==> r.iBlinkFrame == 0
    ensures r == a.(iBlinkFrame := r.iBlinkFrame, timeNextBlink := r.timeNextBlink)
    ensures FrameInRange(d, a) ==> FrameInRange(d, r)
  {
    if a.timeNextBlink <= now then
      a.(iBlinkFrame := NextFrame(a.iBlinkFrame, |d.rgBlinkPattern|),
         timeNextBlink := a.timeNextBlink + d.blinkInterval)
    else a
  }

  /** The milliseconds updateAnimation fades by: time gone by since the last call, never negative. */
  function Elapsed(last: int, now: int): (diff: nat)
    ensures last <= now ==> diff == now - last
    ensures now <= last ==> diff == 0
  {
    now - (if last < now then last else now)
  }

  /**
   * The intensity after fading for diff milliseconds: an on-light rises toward
   * target and never beyond it, an off-light falls toward 0 and never below it.
   */
  function Fade(on: bool, intensity: real, target: real, up: real, down: real, diff: nat): (r: real)
    ensures on && intensity < target ==>
      r == if intensity + up * diff as real > target then target else intensity + up * diff as real
    ensures !on && 0.0 < intensity ==>
      r == if intensity - down * diff as real < 0.0 then 0.0 else intensity - down * diff as real
    ensures on && intensity < target ==> r <= target
    ensures on && target <= intensity ==> r == intensity
    ensures on && up >= 0.0 ==> intensity <= r
    ensures !on && 0.0 < intensity ==> 0.0 <= r
    ensures !on && intensity <= 0.0 ==> r == intensity
    ensures !on && down >= 0.0 ==> r <= intensity
  {
    if on then
      if intensity < target then
        var i := intensity + up * diff as real;
        if i > target then target else i
      else intensity
    else
      if intensity > 0.0 then
        var i := intensity - down * diff as real;
        if i < 0.0 then 0.0 else i
      else intensity
  }

  /** The last step of updateAnimation: the intensity fades for diff milliseconds. */
  function AfterFade(d: LightData, a: Animation, diff: nat): (r: Animation)
    ensures r == a.(intensity := r.intensity)
    ensures d.fadeSpeedUp >= 0.0 && d.fadeSpeedDown >= 0.0 && 0.0 <= a.intensity <= Target(d, a) ==>
      0.0 <= r.intensity <= Target(d, r)
    ensures IsOn(d, a) && d.fadeSpeedUp >= 0.0 ==> a.intensity <= r.intensity
    ensures !IsOn(d, a) && d.fadeSpeedDown >= 0.0 ==> r.intensity <= a.intensity
    ensures IsOn(d, a) && Target(d, a) <= a.intensity ==> r.intensity == a.intensity
    ensures !IsOn(d, a) && a.intensity <= 0.0 ==> r.intensity == a.intensity
    ensures IsOn(d, a) && a.intensity < Target(d, a) ==>
      r.intensity == Min(Target(d, a), a.intensity + d.fadeSpeedUp * diff as real)
    ensures !IsOn(d, a) && 0.0 < a.intensity ==>
      r.intensity == Max(0.0, a.intensity - d.fadeSpeedDown * diff as real)
  {
    a.(intensity := Fade(IsOn(d, a), a.intensity, Target(d, a), d.fadeSpeedUp, d.fadeSpeedDown, diff))
  }

  /** The timed override runs out at this update. */
  predicate Expires(a: Animation, now: int) {
    a.duration > 0 && a.timerDurationEndTime < now
  }

  /** The first step of updateAnimation: an expired override hands over to its final state. */
  function AfterExpiry(d: LightData, a: Animation, now: int): (r: Animation)
    ensures !Expires(a, now) ==> r == a
    ensures Expires(a, now) ==> r.realState == a.finalState && r.duration == 0
    ensures Expires(a, now) && a.finalState == Blinking ==>
      r == a.(realState := Blinking, duration := 0, iBlinkFrame := 0,
              timeNextBlink := now + d.blinkInterval, timerDurationEndTime := now)
    ensures Expires(a, now) && a.finalState != Blinking ==> r == a.(realState := a.finalState, duration := 0)
  {
    if Expires(a, now) then
      var e := a.(realState := a.finalState, duration := 0);
      if e.realState == Blinking then AfterRestartBlinker(d, e, now) else e
    else a
  }

  /**
   * updateAnimation: an invisible light is left alone. Otherwise the clock
   * moves to now, an expired override hands over to its final state (and
   * restarts the blinker when that is Blinking), a blinking light steps its
   * pattern, and the intensity fades by the time gone by.
   */
  function AfterUpdateAnimation(d: LightData, a: Animation, now: int): (r: Animation)
    ensures !d.isVisible ==> r == a
    ensures d.isVisible ==> r.timeMsec == now
    ensures d.isVisible && Expires(a, now) ==> r.realState == a.finalState && r.duration == 0
    ensures d.isVisible && Expires(a, now) ==>
      r.timerDurationEndTime == if a.finalState == Blinking then now else a.timerDurationEndTime
    ensures d.isVisible && Expires(a, now) && a.finalState == Blinking && d.blinkInterval > 0 ==>
      r.iBlinkFrame == 0 && r.timeNextBlink == now + d.blinkInterval
    ensures d.isVisible && Expires(a, now) && a.finalState == Blinking && d.blinkInterval <= 0 ==>
      r.iBlinkFrame == NextFrame(0, |d.rgBlinkPattern|) && r.timeNextBlink == now + 2 * d.blinkInterval
    ensures !Expires(a, now) ==>
      r.realState == a.realState && r.duration == a.duration && r.timerDurationEndTime == a.timerDurationEndTime
    ensures r.realState != Blinking ==> r.iBlinkFrame == a.iBlinkFrame && r.timeNextBlink == a.timeNextBlink
    ensures r.finalState == a.finalState && r.intensityScale == a.intensityScale
    ensures d.isVisible && !Expires(a, now) && a.realState == Blinking ==>
      r.iBlinkFrame == AfterUpdateBlinker(d, a, now).iBlinkFrame &&
      r.timeNextBlink == AfterUpdateBlinker(d, a, now).timeNextBlink
    ensures d.isVisible ==>
      r.intensity == Fade(IsOn(d, r), a.intensity, Target(d, a), d.fadeSpeedUp, d.fadeSpeedDown,
                          Elapsed(a.timeMsec, now))
    ensures FrameInRange(d, a) ==> FrameInRange(d, r)
  {
    if !d.isVisible then a
    else
      var diff := Elapsed(a.timeMsec, now);
      var a1 := a.(timeMsec := now);
      var a2 := AfterExpiry(d, a1, now);
      var a3 := if a2.realState == Blinking then AfterUpdateBlinker(d, a2, now) else a2;
      var r := AfterFade(d, a3, diff);
      assert IsOn(d, r) == IsOn(d, a3) && Target(d, a3) == Target(d, a);
      assert !Expires(a, now) ==> a2 == a1;
      r
  }

  /**
   * setDuration: take startState now, and have endState take over once
   * duration milliseconds have passed; a blinking startState starts its
   * pattern one interval from now.
   */
  function AfterSetDuration(d: LightData, a: Animation, startState: LightStatus, duration: int,
                            endState: LightStatus, now: int): (r: Animation)
    ensures r.realState == startState && r.finalState == endState
    ensures r.duration == duration && r.timerDurationEndTime == now + duration
    ensures startState == Blinking ==> r.iBlinkFrame == 0 && r.timeNextBlink == now + d.blinkInterval
    ensures startState != Blinking ==> r.iBlinkFrame == a.iBlinkFrame && r.timeNextBlink == a.timeNextBlink
    ensures r.timeMsec == a.timeMsec && r.intensity == a.intensity && r.intensityScale == a.intensityScale
    ensures FrameInRange(d, a) ==> FrameInRange(d, r)
  {
    var b := a.(realState := startState, duration := duration, finalState := endState,
                timerDurationEndTime := now + duration);
    if startState == Blinking then b.(iBlinkFrame := 0, timeNextBlink := now + d.blinkInterval) else b
  }

  /** updateIntensity: a light that is on jumps to its target intensity; nothing else changes. */
  function AfterUpdateIntensity(d: LightData, a: Animation): (r: Animation)
    ensures IsOn(d, a) ==> r.intensity == d.intensity * a.intensityScale
    ensures !IsOn(d, a) ==> r == a
    ensures r == a.(intensity := r.intensity)
  {
    if IsOn(d, a) then a.(intensity := Target(d, a)) else a
  }

  // ---------------------------------------------------------------------------
  // Properties across several operations

  /** An update never moves the intensity out of [0, target] when the fade speeds are not negative. */
  lemma UpdateKeepsIntensityInRange(d: LightData, a: Animation, now: int)
    requires d.fadeSpeedUp >= 0.0 && d.fadeSpeedDown >= 0.0
    requires 0.0 <= a.intensity <= Target(d, a)
    ensures var r := AfterUpdateAnimation(d, a, now); 0.0 <= r.intensity <= Target(d, r)
  {
  }

  /**
   * A state set with setState is not undone by the override it cancelled:
   * no later update hands over to the old final state.
   */
  lemma SetStateCancelsOverride(d: LightData, a: Animation, newVal: LightStatus, now: int, later: int)
    requires newVal != a.realState
    ensures AfterUpdateAnimation(d, AfterSetState(d, a, newVal, now), later).realState == newVal
  {
  }

  /** The override installed by setDuration holds until its end time and hands over right after it. */
  lemma OverrideRunsItsDuration(d: LightData, a: Animation, startState: LightStatus, duration: int,
                                endState: LightStatus, now: int, later: int)
    requires d.isVisible && duration > 0
    ensures var r := AfterUpdateAnimation(d, AfterSetDuration(d, a, startState, duration, endState, now), later);
      && (later <= now + duration ==> r.realState == startState && r.duration == duration)
      && (later > now + duration ==> r.realState == endState && r.duration == 0)
  {
  }

  /** The blinker called n times, each time exactly when the next blink falls due. */
  function BlinkAt(d: LightData, a: Animation, n: nat): Animation
    decreases n
  {
    if n == 0 then a else BlinkAt(d, AfterUpdateBlinker(d, a, a.timeNextBlink), n - 1)
  }

  /**
   * n due blinks move the cursor n frames around the pattern and the next blink
   * n intervals later.
   */
  lemma {:induction false} BlinkAdvances(d: LightData, a: Animation, n: nat)
    requires a.iBlinkFrame < |d.rgBlinkPattern|
    ensures BlinkAt(d, a, n).iBlinkFrame == (a.iBlinkFrame + n) % |d.rgBlinkPattern|
    ensures BlinkAt(d, a, n).timeNextBlink == a.timeNextBlink + n * d.blinkInterval
    decreases n
  {
    if n > 0 {
      var len := |d.rgBlinkPattern|;
      var b := AfterUpdateBlinker(d, a, a.timeNextBlink);
      BlinkAdvances(d, b, n - 1);
      if a.iBlinkFrame + 1 == len {
        ModShift(n - 1, len);
      }
    }
  }

  lemma MulAtLeast(a: int, b: int)
    requires a >= 1 && b > 0
    ensures a * b >= b
  {
  }

  /** Euclidean division has one remainder per divisor. */
  lemma ModUnique(x: int, len: int, q: int, r: int)
    requires len > 0 && 0 <= r < len && x == q * len + r
    ensures x % len == r
  {
    var q', r' := x / len, x % len;
    assert x == q' * len + r';
    if q' < q {
      assert (q - q') * len == r' - r;
      MulAtLeast(q - q', len);
    } else if q' > q {
      assert (q' - q) * len == r - r';
      MulAtLeast(q' - q, len);
    } else {
      assert q' * len == q * len;
    }
  }

  lemma ModShift(k: nat, len: nat)
    requires len > 0
    ensures (len + k) % len == k % len
  {
    assert k == (k / len) * len + k % len;
    assert len + k == (k / len + 1) * len + k % len;
    ModUnique(len + k, len, k / len + 1, k % len);
  }

  /** A pattern of length N is back on its starting frame after N due blinks. */
  lemma BlinkPatternCycles(d: LightData, a: Animation)
    requires a.iBlinkFrame < |d.rgBlinkPattern|
    ensures BlinkAt(d, a, |d.rgBlinkPattern|).iBlinkFrame == a.iBlinkFrame
  {
    var len := |d.rgBlinkPattern|;
    BlinkAdvances(d, a, len);
    assert a.iBlinkFrame + len == 1 * len + a.iBlinkFrame;
    ModUnique(a.iBlinkFrame + len, len, 1, a.iBlinkFrame);
  }

  // ---------------------------------------------------------------------------
  // The animation object

  /** LightState: the render-facing state the animation writes its intensity into. */
  class LightState {
    var intensity: real

    constructor (intensity: real)
      ensures this.intensity == intensity
    {
      this.intensity := intensity;
    }
  }

  class LightAnimation {
    const data: LightData
    const state: LightState

    var realState: LightStatus
    var finalState: LightStatus
    var timeNextBlink: int
    var intensityScale: real

    var timeMsec: int
    var timerDurationEndTime: int
    var duration: int
    var iBlinkFrame: nat

    /** The whole animation state as a value. */
    function View(): Animation
      reads this, state
    {
      Animation(realState, finalState, timeNextBlink, intensityScale, timeMsec,
                timerDurationEndTime, duration, iBlinkFrame, state.intensity)
    }

    predicate Valid()
      reads this, state
    {
      FrameInRange(data, View())
    }

    constructor (data: LightData, state: LightState)
      ensures this.data == data && this.state == state
      ensures View() == Initial(data, state.intensity) && Valid()
    {
      this.data := data;
      this.state := state;
      realState := data.state;
      finalState := Off;
      timeNextBlink := 0;
      intensityScale := 1.0;
      timeMsec := 0;
      timerDurationEndTime := 0;
      duration := 0;
      iBlinkFrame := 0;
    }

    method SetState(newVal: LightStatus, now: int)
      requires Valid()
      modifies this
      ensures Valid()
      ensures View() == AfterSetState(data, old(View()), newVal, now)
    {
      if newVal != realState {
        realState := newVal;
        if realState == Blinking {
          timeNextBlink := now;
          iBlinkFrame := 0;
        }
        if duration > 0 {
          duration := 0;
        }
      }
    }

    method RestartBlinker(now: int)
      modifies this
      ensures Valid()
      ensures View() == AfterRestartBlinker(data, old(View()), now)
    {
      iBlinkFrame := 0;
      timeNextBlink := now + data.blinkInterval;
      timerDurationEndTime := now + duration;
    }

    method UpdateAnimation(newTimeMsec: int)
      requires Valid()
      modifies this, state
      ensures Valid()
      ensures View() == AfterUpdateAnimation(data, old(View()), newTimeMsec)
    {
      if !data.isVisible {
        return;
      }
      ghost var a1 := old(View()).(timeMsec := newTimeMsec);
      var oldTimeMsec := if timeMsec < newTimeMsec then timeMsec else newTimeMsec;
      timeMsec := newTimeMsec;
      var diffTimeMsec := newTimeMsec - oldTimeMsec;
      assert diffTimeMsec == Elapsed(old(timeMsec), newTimeMsec);
      assert View() == a1;

      if duration > 0 && timerDurationEndTime < timeMsec {
        realState := finalState;
        duration := 0;
        if realState == Blinking {
          RestartBlinker(newTimeMsec);
        }
      }
      ghost var a2 := View();
      assert a2 == AfterExpiry(data, a1, newTimeMsec);
      if realState == Blinking {
        UpdateBlinker(newTimeMsec);
      }
      ghost var a3 := View();
      assert a3 == if a2.realState == Blinking then AfterUpdateBlinker(data, a2, newTimeMsec) else a2;
      FadeIntensity(diffTimeMsec);
    }

    /** The fading part of updateAnimation, over diffTimeMsec milliseconds. */
    method FadeIntensity(diffTimeMsec: nat)
      modifies state
      ensures View() == AfterFade(data, old(View()), diffTimeMsec)
    {
      ghost var a := View();
      var target := data.intensity * intensityScale;
      assert target == Target(data, a);
      if IsOn(data, View()) {
        if state.intensity < target {
          state.intensity := state.intensity + data.fadeSpeedUp * diffTimeMsec as real;
          if state.intensity > target {
            state.intensity := target;
          }
        }
      } else {
        if state.intensity > 0.0 {
          state.intensity := state.intensity - data.fadeSpeedDown * diffTimeMsec as real;
          if state.intensity < 0.0 {
            state.intensity := 0.0;
          }
        }
      }
      assert View() == a.(intensity := state.intensity);
    }

    method UpdateBlinker(now: int)
      requires Valid()
      modifies this
      ensures Valid()
      ensures View() == AfterUpdateBlinker(data, old(View()), now)
    {
      if timeNextBlink <= now {
        iBlinkFrame := iBlinkFrame + 1;
        if iBlinkFrame >= |data.rgBlinkPattern| {
          iBlinkFrame := 0;
        }
        timeNextBlink := timeNextBlink + data.blinkInterval;
      }
    }

    method SetDuration(startState: LightStatus, duration: int, endState: LightStatus, now: int)
      requires Valid()
      modifies this
      ensures Valid()
      ensures View() == AfterSetDuration(data, old(View()), startState, duration, endState, now)
    {
      realState := startState;
      this.duration := duration;
      finalState := endState;
      timerDurationEndTime := now + this.duration;
      if realState == Blinking {
        iBlinkFrame := 0;
        timeNextBlink := now + data.blinkInterval;
      }
    }

    method UpdateIntensity()
      modifies state
      ensures View() == AfterUpdateIntensity(data, old(View()))
    {
      if IsOn(data, View()) {
        state.intensity := data.intensity * intensityScale;
      }
    }
  }
}
