/** The timed-transition state machine of FSM/Transition.cs, FSM/State.cs and
    FSM/StateMachine.cs.

    The source's callbacks are delegates whose bodies belong to the clients. Here an action is
    known by its identity (`ActionId`) and a guard by its identity (`GuardId`); the verdict of
    every guard at the moment of a tick is given by an oracle `guards: GuardId -> bool`. The
    machine records, in `log`, each guard it consults and each action it invokes, in the order
    the source does so, so that clients can see which hooks ran. */
module FSM {
  import opened Wrappers

  /** One observable effect of the machine. */
  datatype Event = Ask(guard: GuardId) | Run(action: ActionId)

  /** The event of `slot?.Invoke()`. */
  function Runs(slot: Option<ActionId>): (r: seq<Event>)
    ensures slot.None? ==> r == []
    ensures slot.Some? ==> r == [Run(slot.value)]
  {
    match slot
    case Some(a) => [Run(a)]
    case None => []
  }

  class Transition {
    /** The target, fixed when the transition is made. */
    const nextState: State
    /** The minimum time in the current state before the transition may fire. */
    var seconds: real
    /** The guard, if one has been set. */
    var condition: Option<GuardId>

    constructor (nextState: State)
      ensures this.nextState == nextState
      ensures seconds == 0.0 && condition == None
    {
      this.nextState := nextState;
      seconds := 0.0;
      condition := None;
    }

    /** A transition without a guard always agrees to fire; otherwise its guard decides. */
    function EvaluateTransition(guards: GuardId -> bool): (r: bool)
      reads this
      ensures condition.None? ==> r
      ensures condition.Some? ==> r == guards(condition.value)
    {
      match condition
      case None => true
      case Some(g) => guards(g)
    }

    /** Sets the guard, replacing any earlier one. */
    method When(guard: GuardId)
      modifies this`condition
      ensures condition == Some(guard)
    {
      condition := Some(guard);
    }

    /** Sets the dwell time and returns the transition itself, for chaining. */
    method AfterSeconds(seconds: real) returns (t: Transition)
      modifies this`seconds
      ensures t == this && this.seconds == seconds
    {
      this.seconds := seconds;
      t := this;
    }
  }

  class State {
    /** The outgoing transitions, in the order they were added. */
    var transitions: seq<Transition>
    /** The three action slots; the source never reassigns them after construction. */
    const onUpdate: Option<ActionId>
    const onEnter: Option<ActionId>
    const onExit: Option<ActionId>

    constructor (update: Option<ActionId>, enter: Option<ActionId>, exit: Option<ActionId>)
      ensures onUpdate == update && onEnter == enter && onExit == exit
      ensures transitions == []
    {
      onUpdate, onEnter, onExit := update, enter, exit;
      transitions := [];
    }

    /** Adds one unguarded, zero-dwell transition to `target` (possibly this very state) at
        the end of the list. */
    method To(target: State) returns (t: Transition)
      modifies this`transitions
      ensures fresh(t)
      ensures t.nextState == target && t.seconds == 0.0 && t.condition == None
      ensures transitions == old(transitions) + [t]
    {
      t := new Transition(target);
      transitions := transitions + [t];
    }
  }

  /** Whether a transition fires after `elapsed` seconds in the current state: its dwell time
      has passed and then its guard (if any) holds. */
  predicate Fires(t: Transition, elapsed: real, guards: GuardId -> bool)
    reads t
  {
    elapsed >= t.seconds && t.EvaluateTransition(guards)
  }

  /** The guard consultation one entry of a scan makes: none when the dwell test fails (the
      source's `&&` short-circuits) or when there is no guard. */
  function Consults(t: Transition, elapsed: real): (r: seq<Event>)
    reads t
    ensures |r| <= 1
    ensures elapsed < t.seconds ==> r == []
  {
    if elapsed >= t.seconds && t.condition.Some? then [Ask(t.condition.value)] else []
  }

  /** The consultations of a whole list of entries, in order. */
  function ConsultsAll(ts: seq<Transition>, elapsed: real): seq<Event>
    reads ts
    decreases |ts|
  {
    if ts == [] then [] else Consults(ts[0], elapsed) + ConsultsAll(ts[1..], elapsed)
  }

  datatype Scan = Scan(fired: Option<nat>, asked: seq<Event>)

  /** The `foreach ... break` loop of UpdateState from entry `i` on: the index of the first
      entry that fires, and the guards consulted on the way. */
  function ScanFrom(ts: seq<Transition>, i: nat, elapsed: real, guards: GuardId -> bool): (r: Scan)
    reads ts
    requires i <= |ts|
    ensures r.fired.Some? ==> i <= r.fired.value < |ts| && Fires(ts[r.fired.value], elapsed, guards)
    decreases |ts| - i
  {
    if i == |ts| then Scan(None, [])
    else if Fires(ts[i], elapsed, guards) then Scan(Some(i), Consults(ts[i], elapsed))
    else
      var rest := ScanFrom(ts, i + 1, elapsed, guards);
      Scan(rest.fired, Consults(ts[i], elapsed) + rest.asked)
  }

  /** The entry the scan stops at is the first one from `i` on that fires; when none is
      found, no entry from `i` on fires. */
  lemma {:induction false} ScanFindsFirst(ts: seq<Transition>, i: nat, elapsed: real, guards: GuardId -> bool)
    requires i <= |ts|
    ensures var r := ScanFrom(ts, i, elapsed, guards);
            && (r.fired.Some? ==> forall j :: i <= j < r.fired.value ==> !Fires(ts[j], elapsed, guards))
            && (r.fired.None? ==> forall j :: i <= j < |ts| ==> !Fires(ts[j], elapsed, guards))
    decreases |ts| - i
  {
    if i < |ts| && !Fires(ts[i], elapsed, guards) {
      ScanFindsFirst(ts, i + 1, elapsed, guards);
    }
  }

  /** The scan consults exactly the guards of the entries up to and including the one that
      fires, skipping those whose dwell time has not passed; no later entry is examined. */
  lemma {:induction false} ScanConsultsPrefix(ts: seq<Transition>, i: nat, elapsed: real, guards: GuardId -> bool)
    requires i <= |ts|
    ensures var r := ScanFrom(ts, i, elapsed, guards);
            var stop := if r.fired.Some? then r.fired.value + 1 else |ts|;
            r.asked == ConsultsAll(ts[i..stop], elapsed)
    decreases |ts| - i
  {
    if i < |ts| {
      var r := ScanFrom(ts, i, elapsed, guards);
      var stop := if r.fired.Some? then r.fired.value + 1 else |ts|;
      ConsultsAllSlice(ts, i, stop, elapsed);
      if Fires(ts[i], elapsed, guards) {
        assert ConsultsAll(ts[i + 1..stop], elapsed) == [];
      } else {
        ScanConsultsPrefix(ts, i + 1, elapsed, guards);
      }
    }
  }

  /** The consultations of a non-empty slice: those of its first entry, then of the rest. */
  lemma ConsultsAllSlice(ts: seq<Transition>, i: nat, stop: nat, elapsed: real)
    requires i < stop <= |ts|
    ensures ConsultsAll(ts[i..stop], elapsed) == Consults(ts[i], elapsed) + ConsultsAll(ts[i + 1..stop], elapsed)
  {
    assert ts[i..stop][0] == ts[i] && ts[i..stop][1..] == ts[i + 1..stop];
  }

  /** Only the consulted guards matter: two guard oracles that agree on them give the same scan. */
  lemma {:induction false} ScanDependsOnlyOnConsulted(ts: seq<Transition>, i: nat, elapsed: real,
                                                      g1: GuardId -> bool, g2: GuardId -> bool)
    requires i <= |ts|
    requires forall g :: Ask(g) in ScanFrom(ts, i, elapsed, g1).asked ==> g1(g) == g2(g)
    ensures ScanFrom(ts, i, elapsed, g1) == ScanFrom(ts, i, elapsed, g2)
    decreases |ts| - i
  {
    if i < |ts| {
      var c := Consults(ts[i], elapsed);
      assert forall e :: e in c ==> e in ScanFrom(ts, i, elapsed, g1).asked;
      assert Fires(ts[i], elapsed, g1) == Fires(ts[i], elapsed, g2) by {
        if elapsed >= ts[i].seconds && ts[i].condition.Some? {
          assert Ask(ts[i].condition.value) in c;
        }
      }
      if !Fires(ts[i], elapsed, g1) {
        var rest := ScanFrom(ts, i + 1, elapsed, g1);
        assert forall e :: e in rest.asked ==> e in ScanFrom(ts, i, elapsed, g1).asked;
        ScanDependsOnlyOnConsulted(ts, i + 1, elapsed, g1, g2);
      }
    }
  }

  /** The part of the machine's state that a transition changes. */
  datatype Config = Config(cur: State, prev: State?, elapsed: real, log: seq<Event>)

  /** One UpdateState over `ts`: if an entry fires, the machine switches to its target, which
      records the old state as previous, runs the old state's exit action and then the new
      state's enter action, and restarts the clock. */
  function Resolve(c: Config, ts: seq<Transition>, guards: GuardId -> bool): (r: Config)
    reads ts
    ensures ScanFrom(ts, 0, c.elapsed, guards).fired.None? ==> r == c.(log := r.log)
    ensures ScanFrom(ts, 0, c.elapsed, guards).fired.Some? ==>
              r.prev == c.cur && r.elapsed == 0.0 &&
              r.cur == ts[ScanFrom(ts, 0, c.elapsed, guards).fired.value].nextState
    ensures var s := ScanFrom(ts, 0, c.elapsed, guards);
            r.log == c.log + s.asked + (if s.fired.Some? then Runs(c.cur.onExit) + Runs(r.cur.onEnter) else [])
  {
    var s := ScanFrom(ts, 0, c.elapsed, guards);
    match s.fired
    case None => c.(log := c.log + s.asked)
    case Some(j) =>
      var target := ts[j].nextState;
      Config(target, c.cur, 0.0, c.log + s.asked + Runs(c.cur.onExit) + Runs(target.onEnter))
  }

  lemma AppendAssoc<T>(a: seq<T>, b: seq<T>, c: seq<T>)
    ensures (a + b) + c == a + (b + c)
  {
  }

  /** One entry of the scan: it either fires, ending the scan, or hands over to the next. */
  lemma ScanStep(ts: seq<Transition>, i: nat, elapsed: real, guards: GuardId -> bool)
    requires i < |ts|
    ensures Fires(ts[i], elapsed, guards) ==> ScanFrom(ts, i, elapsed, guards) == Scan(Some(i), Consults(ts[i], elapsed))
    ensures !Fires(ts[i], elapsed, guards) ==>
              ScanFrom(ts, i, elapsed, guards).fired == ScanFrom(ts, i + 1, elapsed, guards).fired &&
              ScanFrom(ts, i, elapsed, guards).asked == Consults(ts[i], elapsed) + ScanFrom(ts, i + 1, elapsed, guards).asked
  {
  }

  lemma ResolveFiring(c: Config, ts: seq<Transition>, guards: GuardId -> bool, j: nat)
    requires ScanFrom(ts, 0, c.elapsed, guards).fired == Some(j)
    ensures j < |ts|
    ensures Resolve(c, ts, guards) ==
      Config(ts[j].nextState, c.cur, 0.0,
             c.log + ScanFrom(ts, 0, c.elapsed, guards).asked + Runs(c.cur.onExit) + Runs(ts[j].nextState.onEnter))
  {
  }

  lemma ResolveQuiet(c: Config, ts: seq<Transition>, guards: GuardId -> bool)
    requires ScanFrom(ts, 0, c.elapsed, guards).fired.None?
    ensures Resolve(c, ts, guards) == c.(log := c.log + ScanFrom(ts, 0, c.elapsed, guards).asked)
  {
  }

  /** The `foreach` loop of UpdateState up to its `break`: walks the entries in order, tests
      the dwell time first and consults the guard only when it has passed, and stops at the
      first entry that fires. Returns that entry's index and the guards consulted. */
  method FirstFiring(ts: seq<Transition>, elapsed: real, guards: GuardId -> bool)
    returns (fired: Option<nat>, asked: seq<Event>)
    ensures Scan(fired, asked) == ScanFrom(ts, 0, elapsed, guards)
  {
    ghost var scan := ScanFrom(ts, 0, elapsed, guards);
    asked := [];
    var i := 0;
    while i < |ts|
      invariant 0 <= i <= |ts|
      invariant ScanFrom(ts, i, elapsed, guards).fired == scan.fired
      invariant scan.asked == asked + ScanFrom(ts, i, elapsed, guards).asked
    {
      var transition := ts[i];
      ghost var before := asked;
      ScanStep(ts, i, elapsed, guards);
      if elapsed >= transition.seconds {
        if transition.condition.Some? {
          asked := asked + [Ask(transition.condition.value)];
        }
        if transition.EvaluateTransition(guards) {
          return Some(i), asked;
        }
      }
      assert asked == before + Consults(transition, elapsed);
      AppendAssoc(before, Consults(transition, elapsed), ScanFrom(ts, i + 1, elapsed, guards).asked);
      i := i + 1;
    }
    return None, asked;
  }

  class StateMachine {
    var curState: State?
    var prevState: State?
    var states: seq<State>
    var anyStateTransitions: seq<Transition>
    var timeSinceStateStart: real
    /** The guards consulted and actions invoked so far. */
    var log: seq<Event>

    /** There is a current (and a previous) state exactly when a state has been created. */
    ghost predicate Valid()
      reads this
    {
      (curState == null <==> states == []) && (prevState == null <==> curState == null)
    }

    function Cfg(): Config
      reads this
      requires curState != null
    {
      Config(curState, prevState, timeSinceStateStart, log)
    }

    constructor ()
      ensures Valid()
      ensures states == [] && anyStateTransitions == [] && log == [] && timeSinceStateStart == 0.0
    {
      curState, prevState := null, null;
      states, anyStateTransitions := [], [];
      timeSinceStateStart := 0.0;
      log := [];
    }

    /** Registers a new state. The first one becomes both the current and the previous state,
        and its enter action runs at once; later ones leave the machine where it is. */
    method CreateState(update: Option<ActionId>, enter: Option<ActionId>, exit: Option<ActionId>) returns (s: State)
      requires Valid()
      modifies this`curState, this`prevState, this`states, this`log
      ensures Valid() && fresh(s)
      ensures s.onUpdate == update && s.onEnter == enter && s.onExit == exit && s.transitions == []
      ensures states == old(states) + [s]
      ensures old(states) == [] ==> curState == s && prevState == s && log == old(log) + Runs(enter)
      ensures old(states) != [] ==> curState == old(curState) && prevState == old(prevState) && log == old(log)
    {
      s := new State(update, enter, exit);
      if |states| == 0 {
        curState := s;
        prevState := s;
        log := log + Runs(s.onEnter);
      }
      states := states + [s];
    }

    /** Adds an unguarded, zero-dwell transition to `target` at the end of the list checked
        before every state's own transitions. */
    method FromAny(target: State) returns (t: Transition)
      modifies this`anyStateTransitions
      ensures fresh(t)
      ensures t.nextState == target && t.seconds == 0.0 && t.condition == None
      ensures anyStateTransitions == old(anyStateTransitions) + [t]
    {
      t := new Transition(target);
      anyStateTransitions := anyStateTransitions + [t];
    }

    /** Switches to `target` unconditionally, even when it is already current: previous :=
        current, current := target, exit action of the old state, enter action of the new one,
        clock reset. (Before any state exists the source dereferences null.) */
    method SetState(target: State)
      requires Valid() && curState != null
      modifies this`curState, this`prevState, this`timeSinceStateStart, this`log
      ensures Valid()
      ensures prevState == old(curState) && curState == target && timeSinceStateStart == 0.0
      ensures log == old(log) + Runs(old(curState).onExit) + Runs(target.onEnter)
    {
      prevState := curState;
      curState := target;
      log := log + Runs(prevState.onExit);
      log := log + Runs(curState.onEnter);
      timeSinceStateStart := 0.0;
    }

    /** Switches only when `target` is not already current, and says whether it did. */
    method SetStateIfNotCurrent(target: State) returns (switched: bool)
      requires Valid() && curState != null
      modifies this`curState, this`prevState, this`timeSinceStateStart, this`log
      ensures Valid()
      ensures switched <==> old(curState) != target
      ensures !switched ==> curState == old(curState) && prevState == old(prevState) &&
                            timeSinceStateStart == old(timeSinceStateStart) && log == old(log)
      ensures switched ==> prevState == old(curState) && curState == target && timeSinceStateStart == 0.0 &&
                           log == old(log) + Runs(old(curState).onExit) + Runs(target.onEnter)
    {
      if curState == target {
        return false;
      }
      SetState(target);
      return true;
    }

    /** Fires the first entry of `ts`, in order, whose dwell time has passed and whose guard
        holds, and examines no entry after it. */
    method UpdateState(ts: seq<Transition>, guards: GuardId -> bool)
      requires Valid() && curState != null
      modifies this`curState, this`prevState, this`timeSinceStateStart, this`log
      ensures Valid() && curState != null
      ensures Cfg() == Resolve(old(Cfg()), ts, guards)
    {
      var fired, asked := FirstFiring(ts, timeSinceStateStart, guards);
      log := log + asked;
      match fired {
        case Some(j) =>
          ResolveFiring(old(Cfg()), ts, guards, j);
          SetState(ts[j].nextState);
        case None =>
          ResolveQuiet(old(Cfg()), ts, guards);
      }
    }

    /** One frame: advance the clock by `dt`, resolve the global transitions, then the
        transitions of whichever state is current after that, then run the update action of
        the (possibly new) current state. At most two switches happen per tick. The guards
        are asked afresh for the local scan (`guardsAfter`), since the exit and enter actions
        of a global switch may change what they answer. */
    method Tick(dt: real, guards: GuardId -> bool, guardsAfter: GuardId -> bool)
      requires Valid() && curState != null
      modifies this`curState, this`prevState, this`timeSinceStateStart, this`log
      ensures Valid() && curState != null
      ensures var c1 := Resolve(old(Cfg()).(elapsed := old(timeSinceStateStart) + dt), old(anyStateTransitions), guards);
              var c2 := Resolve(c1, c1.cur.transitions, guardsAfter);
              Cfg() == c2.(log := c2.log + Runs(c2.cur.onUpdate))
    {
      timeSinceStateStart := timeSinceStateStart + dt;
      ghost var c0 := Cfg();
      UpdateState(anyStateTransitions, guards);
      ghost var c1 := Resolve(c0, anyStateTransitions, guards);
      assert Cfg() == c1;
      UpdateState(curState.transitions, guardsAfter);
      ghost var c2 := Resolve(c1, c1.cur.transitions, guardsAfter);
      assert Cfg() == c2;
      log := log + Runs(curState.onUpdate);
      assert c0 == old(Cfg()).(elapsed := old(timeSinceStateStart) + dt);
      assert c1 == Resolve(c0, old(anyStateTransitions), guards);
      assert c2 == Resolve(c1, c1.cur.transitions, guardsAfter);
    }
  }

  /** A second switch within the same tick can only come from a zero-dwell (or negative-dwell)
      entry, since the first switch restarts the clock. */
  lemma AfterSwitchOnlyZeroDwellFires(ts: seq<Transition>, guards: GuardId -> bool)
    ensures var s := ScanFrom(ts, 0, 0.0, guards);
            s.fired.Some? ==> ts[s.fired.value].seconds <= 0.0
  {
  }
}
