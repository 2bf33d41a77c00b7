/** The countdown timer of the game: one-shot or looping, advanced by the frame
    delta, firing its callback once per expiry. */
module Timers {
  import opened Lists

  /** The callback a timer was created with. The timer reports a firing through the
      result of Update; its owner then performs the callback. */
  datatype Callback = NoCallback | CreateMeteor | ActivateDiscard

  /** The two fields of a timer that update, activate and deactivate change. */
  datatype TimerState = TimerState(time: real, active: bool)

  /** The step in which update reaches its duration. */
  predicate Expires(s: TimerState, duration: real, dt: real) {
    s.active && s.time + dt >= duration
  }

  /** One call of update, as a function of the mutable fields. */
  function Step(s: TimerState, duration: real, loop: bool, dt: real): TimerState {
    if !s.active then s
    else if s.time + dt >= duration then
      (if loop then TimerState(0.0, true) else TimerState(s.time + dt, false))
    else TimerState(s.time + dt, true)
  }

  /** The state after one update per frame delta in dts. */
  function Run(s: TimerState, duration: real, loop: bool, dts: seq<real>): TimerState
    decreases |dts|
  {
    if dts == [] then s else Run(Step(s, duration, loop, dts[0]), duration, loop, dts[1..])
  }

  /** How many of those updates expire. */
  function Fires(s: TimerState, duration: real, loop: bool, dts: seq<real>): nat
    decreases |dts|
  {
    if dts == [] then 0
    else (if Expires(s, duration, dts[0]) then 1 else 0)
         + Fires(Step(s, duration, loop, dts[0]), duration, loop, dts[1..])
  }

  /** An inactive timer neither changes nor fires, however many updates it gets. */
  lemma {:induction false} IdleWhileInactive(s: TimerState, duration: real, loop: bool, dts: seq<real>)
    requires !s.active
    ensures Run(s, duration, loop, dts) == s
    ensures Fires(s, duration, loop, dts) == 0
    decreases |dts|
  {
    if dts != [] {
      IdleWhileInactive(s, duration, loop, dts[1..]);
    }
  }

  /** A one-shot timer fires at most once over any run of updates, and once it has
      fired it is inactive: only activate makes it fire again. */
  lemma {:induction false} OneShotFiresAtMostOnce(s: TimerState, duration: real, dts: seq<real>)
    ensures Fires(s, duration, false, dts) <= 1
    ensures Fires(s, duration, false, dts) == 1 ==> !Run(s, duration, false, dts).active
    decreases |dts|
  {
    if dts != [] {
      var next := Step(s, duration, false, dts[0]);
      if Expires(s, duration, dts[0]) {
        IdleWhileInactive(next, duration, false, dts[1..]);
      } else {
        OneShotFiresAtMostOnce(next, duration, dts[1..]);
      }
    }
  }

  /** A running one-shot timer fires within a run of non-negative frame deltas
      exactly when the accumulated time reaches its duration; until then it is
      still active with the deltas added to its time. */
  lemma {:induction false} OneShotFiresWhenElapsed(s: TimerState, duration: real, dts: seq<real>)
    requires s.active && s.time < duration && NonNegative(dts)
    ensures Fires(s, duration, false, dts) == (if s.time + Sum(dts) >= duration then 1 else 0)
    ensures s.time + Sum(dts) < duration
        ==> Run(s, duration, false, dts) == TimerState(s.time + Sum(dts), true)
    decreases |dts|
  {
    if dts != [] {
      var rest := dts[1..];
      assert NonNegative(rest) by {
        forall i | 0 <= i < |rest| ensures rest[i] >= 0.0 {
          assert rest[i] == dts[i + 1];
        }
      }
      var next := Step(s, duration, false, dts[0]);
      if Expires(s, duration, dts[0]) {
        IdleWhileInactive(next, duration, false, rest);
        SumNonNegative(rest);
      } else {
        OneShotFiresWhenElapsed(next, duration, rest);
      }
    }
  }

  /** A running looping timer with a positive duration stays active and keeps its
      time in [0, duration) over any run of non-negative frame deltas. */
  lemma {:induction false} LoopingStaysRunning(s: TimerState, duration: real, dts: seq<real>)
    requires s.active && 0.0 <= s.time < duration && NonNegative(dts)
    ensures Run(s, duration, true, dts).active
    ensures 0.0 <= Run(s, duration, true, dts).time < duration
    decreases |dts|
  {
    if dts != [] {
      var rest := dts[1..];
      assert NonNegative(rest) by {
        forall i | 0 <= i < |rest| ensures rest[i] >= 0.0 {
          assert rest[i] == dts[i + 1];
        }
      }
      LoopingStaysRunning(Step(s, duration, true, dts[0]), duration, rest);
    }
  }

  class Timer {
    const duration: real
    const loop: bool
    const callback: Callback
    var time: real
    var active: bool

    function State(): TimerState
      reads this
    {
      TimerState(time, active)
    }

    /** A new timer with the given duration, start flag, looping flag and callback. */
    constructor (duration: real, autostart: bool, loop: bool, callback: Callback)
      ensures this.duration == duration && this.loop == loop && this.callback == callback
      ensures time == 0.0 && active == autostart
    {
      this.duration := duration;
      this.loop := loop;
      this.callback := callback;
      time := 0.0;
      active := autostart;
    }

    /** update: dt is the frame time the source reads from the graphics library.
        fired reports that the callback was invoked. */
    method Update(dt: real) returns (fired: bool)
      modifies this
      ensures State() == Step(old(State()), duration, loop, dt)
      ensures fired <==> Expires(old(State()), duration, dt) && callback != NoCallback
      ensures !old(active) ==> time == old(time) && !active
      ensures old(active) && old(time) + dt < duration ==> time == old(time) + dt && active
      ensures Expires(old(State()), duration, dt) && loop ==> time == 0.0 && active
      ensures Expires(old(State()), duration, dt) && !loop
          ==> time == old(time) + dt && time >= duration && !active
    {
      fired := false;
      if !active {
        return;
      }
      time := time + dt;
      if time >= duration {
        if callback != NoCallback {
          fired := true;
        }
        if loop {
          time := 0.0;
        } else {
          active := false;
        }
      }
    }

    method Activate()
      modifies this
      ensures time == 0.0 && active
    {
      time := 0.0;
      active := true;
    }

    method Deactivate()
      modifies this
      ensures !active && time == old(time)
    {
      active := false;
    }

    method IsActive() returns (r: bool)
      ensures r == active
    {
      r := active;
    }
  }
}
