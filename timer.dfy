/** The countdown timer of Utility/Timer.cs.

    The source declares `Timer` as a C# struct: a value type that its owners keep in fields and
    update in place. It is modelled as a datatype; each mutating operation returns the updated
    value, which the owner stores back into its field. */
module Timers {
  import opened Wrappers

  datatype Timer = Timer(
    curTime: real,                   // remaining time; finished once it is <= 0
    startTime: real,                 // the duration last given to SetTime
    updateAction: Option<ActionId>,  // invoked on every running tick
    endAction: Option<ActionId>)     // invoked on the tick the countdown runs out

  /** The value of a timer field nobody has set yet (C# `default(Timer)`). */
  const Default := Timer(0.0, 0.0, None, None)

  /** A timer with no time left; `Default` and every timer armed with a non-positive time are. */
  predicate IsFinished(t: Timer)
    ensures IsFinished(t) <==> !(t.curTime > 0.0)
    ensures t == Default ==> IsFinished(t)
  {
    t.curTime <= 0.0
  }

  /** What one Tick produced: the new timer value, the returned flag, and which callbacks ran. */
  datatype TickResult = TickResult(timer: Timer, finished: bool, ranUpdate: bool, ranEnd: bool)

  /** One countdown step of `dt` seconds. A finished timer reports true and does nothing else.
      A running timer counts down, runs its update callback and reports false, also on the
      tick on which it runs out; that tick alone runs the end callback. */
  function Tick(t: Timer, dt: real): (r: TickResult)
    ensures IsFinished(t) ==> r == TickResult(t, true, false, false)
    ensures !IsFinished(t) ==> !r.finished && r.timer.curTime == t.curTime - dt
    ensures r.timer.startTime == t.startTime
    ensures r.timer.updateAction == t.updateAction && r.timer.endAction == t.endAction
    ensures r.ranUpdate <==> !IsFinished(t) && t.updateAction.Some?
    ensures r.ranEnd <==> !IsFinished(t) && IsFinished(r.timer) && t.endAction.Some?
  {
    if IsFinished(t) then TickResult(t, true, false, false)
    else
      var next := t.(curTime := t.curTime - dt);
      TickResult(next, false, t.updateAction.Some?, IsFinished(next) && t.endAction.Some?)
  }

  /** The callbacks one tick invokes, in the order the source invokes them. */
  function TickCalls(t: Timer, dt: real): (r: seq<ActionId>)
    ensures IsFinished(t) ==> r == []
    ensures !IsFinished(t) && t.curTime - dt > 0.0 ==> r == Invoked(t.updateAction)
    ensures !IsFinished(t) && t.curTime - dt <= 0.0 ==> r == Invoked(t.updateAction) + Invoked(t.endAction)
  {
    var res := Tick(t, dt);
    (if res.ranUpdate then Invoked(t.updateAction) else []) + (if res.ranEnd then Invoked(t.endAction) else [])
  }

  /** Arms the timer for `newTime` seconds; a non-positive time leaves it finished. */
  function SetTime(t: Timer, newTime: real): (r: Timer)
    ensures r.curTime == newTime && r.startTime == newTime
    ensures IsFinished(r) <==> newTime <= 0.0
    ensures r.updateAction == t.updateAction && r.endAction == t.endAction
  {
    t.(curTime := newTime, startTime := newTime)
  }

  /** Forces the timer to finish without running its end callback. */
  function Stop(t: Timer): (r: Timer)
    ensures IsFinished(r) && r.curTime == 0.0
    ensures r.startTime == t.startTime && r.updateAction == t.updateAction && r.endAction == t.endAction
  {
    t.(curTime := 0.0)
  }

  /** `Mathf.Clamp(v, 0, 1)`. */
  function Clamp01(v: real): (r: real)
    ensures 0.0 <= r <= 1.0
    ensures 0.0 <= v <= 1.0 ==> r == v
  {
    if v < 0.0 then 0.0 else if v > 1.0 then 1.0 else v
  }

  /** The elapsed fraction `Clamp(1 - curTime / startTime, 0, 1)`. With a zero start time the
      float division gives an infinity (clamped to an end of the interval), or NaN when the
      remaining time is zero as well, which `Mathf.Clamp` passes through; None stands for NaN. */
  function Comp(t: Timer): (r: Option<real>)
    ensures r.None? <==> t.curTime == 0.0 && t.startTime == 0.0
    ensures r.Some? ==> 0.0 <= r.value <= 1.0
    ensures t.startTime > 0.0 && t.curTime <= 0.0 ==> r == Some(1.0)
  {
    if t.startTime != 0.0 then Some(Clamp01(1.0 - t.curTime / t.startTime))
    else if t.curTime > 0.0 then Some(0.0)
    else if t.curTime < 0.0 then Some(1.0)
    else None
  }

  /** The remaining fraction `Clamp(curTime / startTime, 0, 1)`, with the same treatment of a
      zero start time as Comp. */
  function InvComp(t: Timer): (r: Option<real>)
    ensures r.None? <==> t.curTime == 0.0 && t.startTime == 0.0
    ensures r.Some? ==> 0.0 <= r.value <= 1.0
    ensures t.startTime > 0.0 && t.curTime <= 0.0 ==> r == Some(0.0)
  {
    if t.startTime != 0.0 then Some(Clamp01(t.curTime / t.startTime))
    else if t.curTime > 0.0 then Some(1.0)
    else if t.curTime < 0.0 then Some(0.0)
    else None
  }

  /** While a positively armed timer counts down, the two fractions are complementary. */
  lemma CompInvCompSumToOne(t: Timer)
    requires t.startTime > 0.0 && 0.0 <= t.curTime <= t.startTime
    ensures Comp(t).Some? && InvComp(t).Some?
    ensures Comp(t).value + InvComp(t).value == 1.0
  {
    var q := t.curTime / t.startTime;
    assert 0.0 <= q <= 1.0 by {
      assert q * t.startTime == t.curTime;
    }
  }

  /** The timer after a sequence of ticks of the given lengths. */
  function Run(t: Timer, dts: seq<real>): (r: Timer)
    decreases |dts|
  {
    if dts == [] then t else Run(Tick(t, dts[0]).timer, dts[1..])
  }

  /** How many of those ticks ran the end callback. */
  function EndRuns(t: Timer, dts: seq<real>): nat
    decreases |dts|
  {
    if dts == [] then 0
    else (if Tick(t, dts[0]).ranEnd then 1 else 0) + EndRuns(Tick(t, dts[0]).timer, dts[1..])
  }

  function Sum(dts: seq<real>): real
    decreases |dts|
  {
    if dts == [] then 0.0 else dts[0] + Sum(dts[1..])
  }

  /** A finished timer stays finished and silent, whatever the ticks. */
  lemma {:induction false} FinishedIsFrozen(t: Timer, dts: seq<real>)
    requires IsFinished(t)
    ensures Run(t, dts) == t && EndRuns(t, dts) == 0
    decreases |dts|
  {
    if dts != [] {
      FinishedIsFrozen(t, dts[1..]);
    }
  }

  /** The end callback runs at most once however the timer is ticked: after it runs the timer
      is finished, and a finished timer ignores ticks until it is armed again. */
  lemma {:induction false} EndRunsAtMostOnce(t: Timer, dts: seq<real>)
    ensures EndRuns(t, dts) <= 1
    ensures IsFinished(t) ==> EndRuns(t, dts) == 0
    decreases |dts|
  {
    if dts != [] {
      var step := Tick(t, dts[0]);
      EndRunsAtMostOnce(step.timer, dts[1..]);
      if step.ranEnd {
        FinishedIsFrozen(step.timer, dts[1..]);
      }
    }
  }

  /** Arming with a non-positive time never runs the end callback; neither does a stopped timer. */
  lemma NoEndAfterNonPositiveSetOrStop(t: Timer, newTime: real, dts: seq<real>)
    requires newTime <= 0.0
    ensures EndRuns(SetTime(t, newTime), dts) == 0
    ensures EndRuns(Stop(t), dts) == 0
  {
    FinishedIsFrozen(SetTime(t, newTime), dts);
    FinishedIsFrozen(Stop(t), dts);
  }

  /** With non-negative ticks, a running timer runs its end callback exactly once if the ticks
      add up to at least its remaining time, and never if they fall short. */
  lemma {:induction false} EndRunsIffTimeElapses(t: Timer, dts: seq<real>)
    requires !IsFinished(t) && t.endAction.Some?
    requires forall i :: 0 <= i < |dts| ==> dts[i] >= 0.0
    ensures EndRuns(t, dts) == (if Sum(dts) >= t.curTime then 1 else 0)
    decreases |dts|
  {
    if dts != [] {
      var step := Tick(t, dts[0]);
      if step.ranEnd {
        FinishedIsFrozen(step.timer, dts[1..]);
        SumNonNegative(dts[1..]);
      } else {
        assert forall i :: 0 <= i < |dts[1..]| ==> dts[1..][i] >= 0.0 by {
          forall i | 0 <= i < |dts[1..]| ensures dts[1..][i] >= 0.0 {
            assert dts[1..][i] == dts[i + 1];
          }
        }
        EndRunsIffTimeElapses(step.timer, dts[1..]);
      }
    }
  }

  lemma {:induction false} SumNonNegative(dts: seq<real>)
    requires forall i :: 0 <= i < |dts| ==> dts[i] >= 0.0
    ensures Sum(dts) >= 0.0
    decreases |dts|
  {
    if dts != [] {
      assert forall i :: 0 <= i < |dts[1..]| ==> dts[1..][i] >= 0.0 by {
        forall i | 0 <= i < |dts[1..]| ensures dts[1..][i] >= 0.0 {
          assert dts[1..][i] == dts[i + 1];
        }
      }
      SumNonNegative(dts[1..]);
    }
  }
}
