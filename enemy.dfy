/** The decision layer of RegularEnemy.cs: the eight-state graph built in `Awake`, the gating
    of `Update`, and the damage, punch, throwable and weapon events that force a state.

    Navigation, animation, cover/anchor/attack-coordinator queries, ragdoll and rig are
    outside the model: the guards that consult them are oracle verdicts, and the actions that
    only drive them are known by identity alone (they appear in the machine's log). The one
    guard computed from the enemy's own state, `curWeapon == null`, is evaluated exactly, and
    so is the one action whose effect the graph depends on: entering grabSidearm arms the
    sidearm timer, whose end callback equips the sidearm. */
module Enemies {
  import opened Wrappers
  import opened Timers
  import opened FSM

  // The state actions of RegularEnemy.cs, by identity.
  const AttackUpdate: ActionId := 1
  const AttackEnter: ActionId := 2
  const AttackExit: ActionId := 3
  const SeekCoverEnter: ActionId := 4
  const SeekCoverExit: ActionId := 5
  const CoverEnter: ActionId := 6
  const CoverExit: ActionId := 7
  const WeaponPulledEnter: ActionId := 8
  const WeaponPulledExit: ActionId := 9
  const PainLockEnter: ActionId := 10
  const PainLockExit: ActionId := 11
  const GrabSidearmEnter: ActionId := 12
  const GrabSidearmExit: ActionId := 13
  const PunchedUpdate: ActionId := 14
  const PunchedEnter: ActionId := 15
  const PunchedExit: ActionId := 16
  /** The end callback the grabSidearm enter action installs on the sidearm timer. */
  const EquipSidearm: ActionId := 17

  // The guards of RegularEnemy.cs, by identity.
  const AnyToAttack: GuardId := 0
  const AnyToSeekCover: GuardId := 1
  const SeekCoverSelfTransition: GuardId := 2
  const SeekCoverToCover: GuardId := 3
  const CoverToSeekCover: GuardId := 4
  /** The three `() => curWeapon == null` lambdas. */
  const WeaponGone: GuardId := 5

  const SeekCoverRetryTime: real := 1.5
  const CoverLeaveTime: real := 0.5

  /** `weapons[0]` and `weapons[1]`. */
  datatype Weapon = Primary | Sidearm

  /** The guard verdicts during one tick: the enemy's own weapon test, the oracle for the rest. */
  function GuardsWith(weaponGone: bool, oracle: GuardId -> bool): (guards: GuardId -> bool)
    ensures guards(WeaponGone) == weaponGone
    ensures forall g :: g != WeaponGone ==> guards(g) == oracle(g)
  {
    (g: GuardId) => if g == WeaponGone then weaponGone else oracle(g)
  }

  /** What `OnGrabSidearmEnter` does to the sidearm timer: arm it, and install the equip
      callback unless one is already there (`??=`). */
  function ArmSidearm(t: Timer, delay: real): (r: Timer)
    ensures r.curTime == delay && r.startTime == delay
    ensures r.endAction == Some(if t.endAction.Some? then t.endAction.value else EquipSidearm)
    ensures r.updateAction == t.updateAction
  {
    SetTime(t, delay).(endAction := Some(if t.endAction.Some? then t.endAction.value else EquipSidearm))
  }

  /** The content of one transition as a value: target, dwell time, guard. */
  datatype Edge = Edge(target: State, seconds: real, guard: Option<GuardId>)

  /** The contents of one transition. */
  ghost function Content(t: Transition): Edge
    reads t
  {
    Edge(t.nextState, t.seconds, t.condition)
  }

  /** The transitions of `s` are exactly `es`, in order. */
  ghost predicate HasEdges(s: State, es: seq<Edge>)
    reads s, s.transitions
  {
    |s.transitions| == |es| && forall i :: 0 <= i < |es| ==> Content(s.transitions[i]) == es[i]
  }

  /** `from.To(target).When(guard)`; `es` are the edges wired so far. */
  method AddGuarded(from: State, target: State, guard: GuardId, ghost es: seq<Edge>)
    requires HasEdges(from, es)
    modifies from`transitions
    ensures HasEdges(from, es + [Edge(target, 0.0, Some(guard))])
  {
    var t := from.To(target);
    t.When(guard);
  }

  /** `from.To(target).AfterSeconds(seconds).When(guard)`; `es` are the edges wired so far. */
  method AddTimedGuarded(from: State, target: State, seconds: real, guard: GuardId, ghost es: seq<Edge>)
    requires HasEdges(from, es)
    modifies from`transitions
    ensures HasEdges(from, es + [Edge(target, seconds, Some(guard))])
  {
    var t := from.To(target);
    t := t.AfterSeconds(seconds);
    t.When(guard);
  }

  /** Lines 92-93 of RegularEnemy.cs. */
  method WireEntry(entry: State, attack: State, seekCover: State)
    requires entry.transitions == []
    modifies entry`transitions
    ensures HasEdges(entry, [Edge(attack, 0.0, Some(AnyToAttack)), Edge(seekCover, 0.0, Some(AnyToSeekCover))])
  {
    AddGuarded(entry, attack, AnyToAttack, []);
    AddGuarded(entry, seekCover, AnyToSeekCover, [Edge(attack, 0.0, Some(AnyToAttack))]);
  }

  /** Line 95 of RegularEnemy.cs. */
  method WireAttack(attack: State, seekCover: State)
    requires attack.transitions == []
    modifies attack`transitions
    ensures HasEdges(attack, [Edge(seekCover, 0.0, Some(AnyToSeekCover))])
  {
    AddGuarded(attack, seekCover, AnyToSeekCover, []);
  }

  /** Lines 97-99 of RegularEnemy.cs: the self-transition re-picks a cover spot every 1.5 s. */
  method WireSeekCover(seekCover: State, attack: State, cover: State)
    requires seekCover.transitions == []
    modifies seekCover`transitions
    ensures HasEdges(seekCover, [Edge(attack, 0.0, Some(AnyToAttack)),
                                 Edge(seekCover, SeekCoverRetryTime, Some(SeekCoverSelfTransition)),
                                 Edge(cover, 0.0, Some(SeekCoverToCover))])
  {
    AddGuarded(seekCover, attack, AnyToAttack, []);
    AddTimedGuarded(seekCover, seekCover, SeekCoverRetryTime, SeekCoverSelfTransition,
                    [Edge(attack, 0.0, Some(AnyToAttack))]);
    AddGuarded(seekCover, cover, SeekCoverToCover,
               [Edge(attack, 0.0, Some(AnyToAttack)),
                Edge(seekCover, SeekCoverRetryTime, Some(SeekCoverSelfTransition))]);
  }

  /** Lines 101-102 of RegularEnemy.cs. */
  method WireCover(cover: State, attack: State, seekCover: State)
    requires cover.transitions == []
    modifies cover`transitions
    ensures HasEdges(cover, [Edge(attack, CoverLeaveTime, Some(AnyToAttack)),
                             Edge(seekCover, CoverLeaveTime, Some(CoverToSeekCover))])
  {
    AddTimedGuarded(cover, attack, CoverLeaveTime, AnyToAttack, []);
    AddTimedGuarded(cover, seekCover, CoverLeaveTime, CoverToSeekCover,
                    [Edge(attack, CoverLeaveTime, Some(AnyToAttack))]);
  }

  /** Line 104 of RegularEnemy.cs. */
  method WireWeaponPulled(weaponPulled: State, grabSidearm: State, staggerAnimTime: real)
    requires weaponPulled.transitions == []
    modifies weaponPulled`transitions
    ensures HasEdges(weaponPulled, [Edge(grabSidearm, staggerAnimTime, Some(WeaponGone))])
  {
    AddTimedGuarded(weaponPulled, grabSidearm, staggerAnimTime, WeaponGone, []);
  }

  /** Lines 106-107, 109-111 and 113-115 of RegularEnemy.cs: after `delay`, to grabSidearm
      (when given) if the weapon is gone, else to attack, else to seekCover. */
  method WireAfterDelay(s: State, grabSidearm: Option<State>, attack: State, seekCover: State, delay: real)
    requires s.transitions == []
    modifies s`transitions
    ensures HasEdges(s, (if grabSidearm.Some? then [Edge(grabSidearm.value, delay, Some(WeaponGone))] else [])
                        + [Edge(attack, delay, Some(AnyToAttack)), Edge(seekCover, delay, Some(AnyToSeekCover))])
  {
    ghost var es: seq<Edge> := [];
    if grabSidearm.Some? {
      AddTimedGuarded(s, grabSidearm.value, delay, WeaponGone, es);
      es := [Edge(grabSidearm.value, delay, Some(WeaponGone))];
    }
    AddTimedGuarded(s, attack, delay, AnyToAttack, es);
    AddTimedGuarded(s, seekCover, delay, AnyToSeekCover, es + [Edge(attack, delay, Some(AnyToAttack))]);
  }

  /** The eight states Awake creates, in creation order. */
  datatype Nodes = Nodes(entry: State, attack: State, seekCover: State, cover: State,
                         weaponPulled: State, painLocked: State, grabSidearm: State, punched: State)
  {
    function AsSeq(): seq<State> {
      [entry, attack, seekCover, cover, weaponPulled, painLocked, grabSidearm, punched]
    }
  }

  /** The durations RegularEnemy.cs takes from the inspector, in seconds. */
  datatype Timings = Timings(staggerAnim: real, painLock: real, punchStun: real,
                             sidearmState: real, enableSidearmDelay: real)

  /** The actions each state was created with (lines 83-90 of RegularEnemy.cs). The enter
      actions differ from state to state, so the eight states are eight distinct objects. */
  ghost predicate Created(n: Nodes) {
    && n.entry.onUpdate == None && n.entry.onEnter == None && n.entry.onExit == None
    && n.attack.onUpdate == Some(AttackUpdate) && n.attack.onEnter == Some(AttackEnter) && n.attack.onExit == Some(AttackExit)
    && n.seekCover.onUpdate == None && n.seekCover.onEnter == Some(SeekCoverEnter) && n.seekCover.onExit == Some(SeekCoverExit)
    && n.cover.onUpdate == None && n.cover.onEnter == Some(CoverEnter) && n.cover.onExit == Some(CoverExit)
    && n.weaponPulled.onUpdate == None && n.weaponPulled.onEnter == Some(WeaponPulledEnter) && n.weaponPulled.onExit == Some(WeaponPulledExit)
    && n.painLocked.onUpdate == None && n.painLocked.onEnter == Some(PainLockEnter) && n.painLocked.onExit == Some(PainLockExit)
    && n.grabSidearm.onUpdate == None && n.grabSidearm.onEnter == Some(GrabSidearmEnter) && n.grabSidearm.onExit == Some(GrabSidearmExit)
    && n.punched.onUpdate == Some(PunchedUpdate) && n.punched.onEnter == Some(PunchedEnter) && n.punched.onExit == Some(PunchedExit)
  }

  /** Lines 83-86 of RegularEnemy.cs: the first four `CreateState` calls. The first state
      created becomes both the current and the previous state; it has no enter action. */
  method CreateCombatStates(m: StateMachine) returns (entry: State, attack: State, seekCover: State, cover: State)
    requires m.Valid() && m.states == [] && m.log == []
    modifies m`curState, m`prevState, m`states, m`log
    ensures m.Valid() && m.states == [entry, attack, seekCover, cover]
    ensures m.curState == entry && m.prevState == entry && m.log == []
    ensures fresh(entry) && fresh(attack) && fresh(seekCover) && fresh(cover)
    ensures entry.transitions == [] && attack.transitions == [] && seekCover.transitions == []
    ensures cover.transitions == []
    ensures entry.onUpdate == None && entry.onEnter == None && entry.onExit == None
    ensures attack.onUpdate == Some(AttackUpdate) && attack.onEnter == Some(AttackEnter) && attack.onExit == Some(AttackExit)
    ensures seekCover.onUpdate == None && seekCover.onEnter == Some(SeekCoverEnter) && seekCover.onExit == Some(SeekCoverExit)
    ensures cover.onUpdate == None && cover.onEnter == Some(CoverEnter) && cover.onExit == Some(CoverExit)
  {
    entry := m.CreateState(None, None, None);
    attack := m.CreateState(Some(AttackUpdate), Some(AttackEnter), Some(AttackExit));
    seekCover := m.CreateState(None, Some(SeekCoverEnter), Some(SeekCoverExit));
    cover := m.CreateState(None, Some(CoverEnter), Some(CoverExit));
  }

  /** Lines 87-90 of RegularEnemy.cs: the last four `CreateState` calls, which leave the
      current state, the previous state and the log as they are. */
  method CreateRecoveryStates(m: StateMachine)
      returns (weaponPulled: State, painLocked: State, grabSidearm: State, punched: State)
    requires m.Valid() && m.states != []
    modifies m`curState, m`prevState, m`states, m`log
    ensures m.Valid() && m.states == old(m.states) + [weaponPulled, painLocked, grabSidearm, punched]
    ensures m.curState == old(m.curState) && m.prevState == old(m.prevState) && m.log == old(m.log)
    ensures fresh(weaponPulled) && fresh(painLocked) && fresh(grabSidearm) && fresh(punched)
    ensures weaponPulled.transitions == [] && painLocked.transitions == []
    ensures grabSidearm.transitions == [] && punched.transitions == []
    ensures weaponPulled.onUpdate == None && weaponPulled.onEnter == Some(WeaponPulledEnter) && weaponPulled.onExit == Some(WeaponPulledExit)
    ensures painLocked.onUpdate == None && painLocked.onEnter == Some(PainLockEnter) && painLocked.onExit == Some(PainLockExit)
    ensures grabSidearm.onUpdate == None && grabSidearm.onEnter == Some(GrabSidearmEnter) && grabSidearm.onExit == Some(GrabSidearmExit)
    ensures punched.onUpdate == Some(PunchedUpdate) && punched.onEnter == Some(PunchedEnter) && punched.onExit == Some(PunchedExit)
  {
    weaponPulled := m.CreateState(None, Some(WeaponPulledEnter), Some(WeaponPulledExit));
    painLocked := m.CreateState(None, Some(PainLockEnter), Some(PainLockExit));
    grabSidearm := m.CreateState(None, Some(GrabSidearmEnter), Some(GrabSidearmExit));
    punched := m.CreateState(Some(PunchedUpdate), Some(PunchedEnter), Some(PunchedExit));
  }

  /** The field initialiser `stateMachine = new StateMachine()` and lines 83-90 of
      RegularEnemy.cs: a fresh machine holding the eight states, entry current. */
  method CreateStates() returns (m: StateMachine, n: Nodes)
    ensures fresh(m) && m.anyStateTransitions == [] && m.timeSinceStateStart == 0.0
    ensures m.Valid() && m.states == n.AsSeq()
    ensures m.curState == n.entry && m.prevState == n.entry && m.log == []
    ensures Created(n)
    ensures fresh(n.entry) && fresh(n.attack) && fresh(n.seekCover) && fresh(n.cover)
    ensures fresh(n.weaponPulled) && fresh(n.painLocked) && fresh(n.grabSidearm) && fresh(n.punched)
    ensures n.entry.transitions == [] && n.attack.transitions == [] && n.seekCover.transitions == []
    ensures n.cover.transitions == [] && n.weaponPulled.transitions == [] && n.painLocked.transitions == []
    ensures n.grabSidearm.transitions == [] && n.punched.transitions == []
  {
    m := new StateMachine();
    var entry, attack, seekCover, cover := CreateCombatStates(m);
    var weaponPulled, painLocked, grabSidearm, punched := CreateRecoveryStates(m);
    n := Nodes(entry, attack, seekCover, cover, weaponPulled, painLocked, grabSidearm, punched);
  }

  /** Lines 92-93 of RegularEnemy.cs: the transitions of entry. */
  function EntryEdges(n: Nodes): seq<Edge> {
    [Edge(n.attack, 0.0, Some(AnyToAttack)), Edge(n.seekCover, 0.0, Some(AnyToSeekCover))]
  }

  /** Line 95 of RegularEnemy.cs: the transition of attack. */
  function AttackEdges(n: Nodes): seq<Edge> {
    [Edge(n.seekCover, 0.0, Some(AnyToSeekCover))]
  }

  /** Lines 97-99 of RegularEnemy.cs: the transitions of seekCover, the second one back to
      seekCover itself. */
  function SeekCoverEdges(n: Nodes): seq<Edge> {
    [Edge(n.attack, 0.0, Some(AnyToAttack)),
     Edge(n.seekCover, SeekCoverRetryTime, Some(SeekCoverSelfTransition)),
     Edge(n.cover, 0.0, Some(SeekCoverToCover))]
  }

  /** Lines 101-102 of RegularEnemy.cs: the transitions of cover. */
  function CoverEdges(n: Nodes): seq<Edge> {
    [Edge(n.attack, CoverLeaveTime, Some(AnyToAttack)), Edge(n.seekCover, CoverLeaveTime, Some(CoverToSeekCover))]
  }

  /** Line 104 of RegularEnemy.cs: the transition of weaponPulled. */
  function WeaponPulledEdges(n: Nodes, t: Timings): seq<Edge> {
    [Edge(n.grabSidearm, t.staggerAnim, Some(WeaponGone))]
  }

  /** Lines 106-107 of RegularEnemy.cs: the transitions of grabSidearm. */
  function GrabSidearmEdges(n: Nodes, t: Timings): seq<Edge> {
    [Edge(n.attack, t.sidearmState, Some(AnyToAttack)), Edge(n.seekCover, t.sidearmState, Some(AnyToSeekCover))]
  }

  /** Lines 109-111 and 113-115 of RegularEnemy.cs: the transitions of painLocked and of
      punched, which differ only in their dwell. */
  function RecoveryEdges(n: Nodes, delay: real): seq<Edge> {
    [Edge(n.grabSidearm, delay, Some(WeaponGone)),
     Edge(n.attack, delay, Some(AnyToAttack)),
     Edge(n.seekCover, delay, Some(AnyToSeekCover))]
  }

  /** Lines 92-102 of RegularEnemy.cs as a property of the four combat states. */
  ghost predicate CombatGraph(n: Nodes)
    reads n.entry, n.entry.transitions, n.attack, n.attack.transitions
    reads n.seekCover, n.seekCover.transitions, n.cover, n.cover.transitions
  {
    && HasEdges(n.entry, EntryEdges(n))
    && HasEdges(n.attack, AttackEdges(n))
    && HasEdges(n.seekCover, SeekCoverEdges(n))
    && HasEdges(n.cover, CoverEdges(n))
  }

  /** Lines 104-115 of RegularEnemy.cs as a property of the four recovery states. */
  ghost predicate RecoveryGraph(n: Nodes, t: Timings)
    reads n.weaponPulled, n.weaponPulled.transitions, n.painLocked, n.painLocked.transitions
    reads n.grabSidearm, n.grabSidearm.transitions, n.punched, n.punched.transitions
  {
    && HasEdges(n.weaponPulled, WeaponPulledEdges(n, t))
    && HasEdges(n.grabSidearm, GrabSidearmEdges(n, t))
    && HasEdges(n.painLocked, RecoveryEdges(n, t.painLock))
    && HasEdges(n.punched, RecoveryEdges(n, t.punchStun))
  }

  /** The whole graph Awake wires. */
  ghost predicate Graph(n: Nodes, t: Timings)
    reads n.entry, n.entry.transitions, n.attack, n.attack.transitions
    reads n.seekCover, n.seekCover.transitions, n.cover, n.cover.transitions
    reads n.weaponPulled, n.weaponPulled.transitions, n.painLocked, n.painLocked.transitions
    reads n.grabSidearm, n.grabSidearm.transitions, n.punched, n.punched.transitions
  {
    CombatGraph(n) && RecoveryGraph(n, t)
  }

  /** Lines 92-102 of RegularEnemy.cs: the combat loop between entry, attack, seekCover and cover. */
  method WireCombat(n: Nodes)
    requires Created(n)
    requires n.entry.transitions == [] && n.attack.transitions == [] && n.seekCover.transitions == []
    requires n.cover.transitions == []
    modifies n.entry`transitions, n.attack`transitions, n.seekCover`transitions, n.cover`transitions
    ensures CombatGraph(n)
  {
    WireEntry(n.entry, n.attack, n.seekCover);
    WireAttack(n.attack, n.seekCover);
    WireSeekCover(n.seekCover, n.attack, n.cover);
    WireCover(n.cover, n.attack, n.seekCover);
  }

  /** Lines 104-115 of RegularEnemy.cs: the states forced by events, and grabSidearm. */
  method WireRecovery(n: Nodes, t: Timings)
    requires Created(n)
    requires n.weaponPulled.transitions == [] && n.painLocked.transitions == []
    requires n.grabSidearm.transitions == [] && n.punched.transitions == []
    modifies n.weaponPulled`transitions, n.painLocked`transitions, n.grabSidearm`transitions, n.punched`transitions
    ensures RecoveryGraph(n, t)
  {
    WireWeaponPulled(n.weaponPulled, n.grabSidearm, t.staggerAnim);
    WireAfterDelay(n.grabSidearm, None, n.attack, n.seekCover, t.sidearmState);
    WireAfterDelay(n.painLocked, Some(n.grabSidearm), n.attack, n.seekCover, t.painLock);
    WireAfterDelay(n.punched, Some(n.grabSidearm), n.attack, n.seekCover, t.punchStun);
  }

  /** Lines 92-115 of RegularEnemy.cs: every transition of the graph. */
  method WireAll(n: Nodes, t: Timings)
    requires Created(n)
    requires n.entry.transitions == [] && n.attack.transitions == [] && n.seekCover.transitions == []
    requires n.cover.transitions == [] && n.weaponPulled.transitions == [] && n.painLocked.transitions == []
    requires n.grabSidearm.transitions == [] && n.punched.transitions == []
    modifies n.entry`transitions, n.attack`transitions, n.seekCover`transitions, n.cover`transitions
    modifies n.weaponPulled`transitions, n.painLocked`transitions, n.grabSidearm`transitions, n.punched`transitions
    ensures Graph(n, t)
  {
    WireCombat(n);
    WireRecovery(n, t);
  }

  /** What a list of guarded edges selects, read off the edges alone: the target of the first
      edge whose dwell has passed and whose guard holds, and the guards asked on the way. */
  datatype Choice = Choice(target: Option<State>, asked: seq<Event>)

  /** Whether an edge is taken after `elapsed` seconds: its dwell has passed and its guard,
      if any, holds. */
  predicate Taken(e: Edge, elapsed: real, guards: GuardId -> bool) {
    elapsed >= e.seconds && (e.guard.None? || guards(e.guard.value))
  }

  /** The guard an edge consults: its own, once its dwell has passed. */
  function Asks(e: Edge, elapsed: real): seq<Event> {
    if elapsed >= e.seconds && e.guard.Some? then [Ask(e.guard.value)] else []
  }

  function Choose(es: seq<Edge>, elapsed: real, guards: GuardId -> bool): (r: Choice)
    ensures |r.asked| <= |es|
    decreases |es|
  {
    if es == [] then Choice(None, [])
    else if Taken(es[0], elapsed, guards) then Choice(Some(es[0].target), Asks(es[0], elapsed))
    else
      var rest := Choose(es[1..], elapsed, guards);
      Choice(rest.target, Asks(es[0], elapsed) + rest.asked)
  }

  /** The edge chosen is the first one taken, in order; nothing is chosen exactly when no
      edge is taken. */
  lemma {:induction false} ChooseFirst(es: seq<Edge>, elapsed: real, guards: GuardId -> bool)
    ensures var r := Choose(es, elapsed, guards);
            && (r.target.None? <==> forall i :: 0 <= i < |es| ==> !Taken(es[i], elapsed, guards))
            && (r.target.Some? ==>
                  exists k :: 0 <= k < |es| && Taken(es[k], elapsed, guards) && r.target.value == es[k].target &&
                              forall i :: 0 <= i < k ==> !Taken(es[i], elapsed, guards))
    decreases |es|
  {
    if es != [] && !Taken(es[0], elapsed, guards) {
      var tail := es[1..];
      ChooseFirst(tail, elapsed, guards);
      assert forall i :: 1 <= i < |es| ==> es[i] == tail[i - 1];
      var r := Choose(tail, elapsed, guards);
      if r.target.Some? {
        var k :| 0 <= k < |tail| && Taken(tail[k], elapsed, guards) && r.target.value == tail[k].target &&
                 forall i :: 0 <= i < k ==> !Taken(tail[i], elapsed, guards);
        assert forall i :: 0 <= i < k + 1 ==> !Taken(es[i], elapsed, guards) by {
          forall i | 0 <= i < k + 1 ensures !Taken(es[i], elapsed, guards) {
            if i > 0 { assert es[i] == tail[i - 1]; }
          }
        }
        assert es[k + 1] == tail[k];
      }
    }
  }

  /** The configuration an edge list leads to, by the state machine's switching rule. */
  function Expected(c: Config, es: seq<Edge>, guards: GuardId -> bool): Config {
    var ch := Choose(es, c.elapsed, guards);
    match ch.target
    case None => c.(log := c.log + ch.asked)
    case Some(t) => Config(t, c.cur, 0.0, c.log + ch.asked + Runs(c.cur.onExit) + Runs(t.onEnter))
  }

  /** An empty transition list changes nothing. */
  lemma ResolveNothing(c: Config, guards: GuardId -> bool)
    ensures Resolve(c, [], guards) == c
  {
    assert c.log + [] == c.log;
  }

  /** One machine tick when there are no global transitions: advance the clock, resolve the
      current state's own transitions, run the update action of the state it ends in. */
  function StepOf(c: Config, dt: real, guards: GuardId -> bool): Config
    reads c.cur, c.cur.transitions
  {
    var s := Resolve(c.(elapsed := c.elapsed + dt), c.cur.transitions, guards);
    s.(log := s.log + Runs(s.cur.onUpdate))
  }

  /** Without global transitions, a machine tick is `StepOf`. */
  lemma StepWithoutGlobals(c: Config, dt: real, guards: GuardId -> bool)
    ensures var c1 := Resolve(c.(elapsed := c.elapsed + dt), [], guards);
            var c2 := Resolve(c1, c1.cur.transitions, guards);
            c2.(log := c2.log + Runs(c2.cur.onUpdate)) == StepOf(c, dt, guards)
  {
    ResolveNothing(c.(elapsed := c.elapsed + dt), guards);
  }

  /** The machine's scan over wired transitions agrees with the choice read off the edges. */
  lemma {:induction false} ScanMatchesEdges(s: State, es: seq<Edge>, i: nat, elapsed: real, guards: GuardId -> bool)
    requires HasEdges(s, es) && i <= |es|
    ensures var r := ScanFrom(s.transitions, i, elapsed, guards);
            var ch := Choose(es[i..], elapsed, guards);
            && r.asked == ch.asked
            && (ch.target.None? <==> r.fired.None?)
            && (r.fired.Some? ==> ch.target == Some(s.transitions[r.fired.value].nextState))
    decreases |es| - i
  {
    if i < |es| {
      ScanMatchesEdges(s, es, i + 1, elapsed, guards);
      assert es[i..][1..] == es[i + 1..];
    }
  }

  /** Resolving a state's wired transitions yields the configuration its edge list predicts. */
  lemma ResolveByEdges(c: Config, s: State, es: seq<Edge>, guards: GuardId -> bool)
    requires HasEdges(s, es)
    ensures Resolve(c, s.transitions, guards) == Expected(c, es, guards)
  {
    ScanMatchesEdges(s, es, 0, c.elapsed, guards);
    assert es[0..] == es;
  }

  /** A tick that switches to `to` after asking `asked`: the old state's exit, the new
      state's enter and then its update run, and the clock restarts. */
  function Switched(c: Config, to: State, asked: seq<Event>): Config {
    Config(to, c.cur, 0.0, c.log + asked + Runs(c.cur.onExit) + Runs(to.onEnter) + Runs(to.onUpdate))
  }

  /** A tick that stays put after asking `asked`: the clock reads `elapsed` and the update
      action runs. */
  function Stayed(c: Config, elapsed: real, asked: seq<Event>): Config {
    c.(elapsed := elapsed, log := c.log + asked + Runs(c.cur.onUpdate))
  }

  /** A tick from a state whose transitions are `es`, read off the edges. */
  lemma StepByEdges(c: Config, es: seq<Edge>, dt: real, guards: GuardId -> bool)
    requires HasEdges(c.cur, es)
    ensures var e := c.elapsed + dt;
            var ch := Choose(es, e, guards);
            StepOf(c, dt, guards) == if ch.target.Some? then Switched(c, ch.target.value, ch.asked)
                                     else Stayed(c, e, ch.asked)
  {
    ResolveByEdges(c.(elapsed := c.elapsed + dt), c.cur, es, guards);
  }

  /** Two edges: the first one taken wins; the guard of an edge is asked only once its dwell
      has passed. */
  lemma ChooseTwo(a: Edge, b: Edge, e: real, guards: GuardId -> bool)
    requires a.guard.Some? && b.guard.Some?
    ensures Choose([a, b], e, guards) ==
              if Taken(a, e, guards) then Choice(Some(a.target), [Ask(a.guard.value)])
              else if Taken(b, e, guards) then Choice(Some(b.target), Asks(a, e) + [Ask(b.guard.value)])
              else Choice(None, Asks(a, e) + Asks(b, e))
  {
    assert [a, b][1..] == [b];
    assert [b][1..] == [];
    assert Choose([b][1..], e, guards) == Choice(None, []);
    assert Asks(b, e) + [] == Asks(b, e);
    var rest := Choose([b], e, guards);
    assert rest == if Taken(b, e, guards) then Choice(Some(b.target), [Ask(b.guard.value)])
                   else Choice(None, Asks(b, e));
  }

  /** Three edges, likewise. */
  lemma ChooseThree(a: Edge, b: Edge, d: Edge, e: real, guards: GuardId -> bool)
    requires a.guard.Some? && b.guard.Some? && d.guard.Some?
    ensures Choose([a, b, d], e, guards) ==
              if Taken(a, e, guards) then Choice(Some(a.target), [Ask(a.guard.value)])
              else if Taken(b, e, guards) then Choice(Some(b.target), Asks(a, e) + [Ask(b.guard.value)])
              else if Taken(d, e, guards) then Choice(Some(d.target), Asks(a, e) + Asks(b, e) + [Ask(d.guard.value)])
              else Choice(None, Asks(a, e) + Asks(b, e) + Asks(d, e))
  {
    assert [a, b, d][1..] == [b, d];
    ChooseTwo(b, d, e, guards);
    assert Asks(a, e) + (Asks(b, e) + [Ask(d.guard.value)]) == Asks(a, e) + Asks(b, e) + [Ask(d.guard.value)];
    assert Asks(a, e) + (Asks(b, e) + Asks(d, e)) == Asks(a, e) + Asks(b, e) + Asks(d, e);
  }

  /** Lines 92-93 of RegularEnemy.cs: from entry, attack is tried first, then seekCover; both
      without dwell. Entry has no actions of its own. */
  lemma EntryStep(n: Nodes, c: Config, dt: real, guards: GuardId -> bool)
    requires Created(n) && c.cur == n.entry && HasEdges(n.entry, EntryEdges(n))
    ensures var e := c.elapsed + dt;
            StepOf(c, dt, guards) ==
              if e >= 0.0 && guards(AnyToAttack) then
                Switched(c, n.attack, [Ask(AnyToAttack)])
              else if e >= 0.0 && guards(AnyToSeekCover) then
                Switched(c, n.seekCover, [Ask(AnyToAttack), Ask(AnyToSeekCover)])
              else Stayed(c, e, if e >= 0.0 then [Ask(AnyToAttack), Ask(AnyToSeekCover)] else [])
  {
    var a, b := Edge(n.attack, 0.0, Some(AnyToAttack)), Edge(n.seekCover, 0.0, Some(AnyToSeekCover));
    StepByEdges(c, [a, b], dt, guards);
    ChooseTwo(a, b, c.elapsed + dt, guards);
  }

  /** Line 95 of RegularEnemy.cs: attack only ever leaves for seekCover. */
  lemma AttackStep(n: Nodes, c: Config, dt: real, guards: GuardId -> bool)
    requires Created(n) && c.cur == n.attack && HasEdges(n.attack, AttackEdges(n))
    ensures var e := c.elapsed + dt;
            StepOf(c, dt, guards) ==
              if e >= 0.0 && guards(AnyToSeekCover) then
                Switched(c, n.seekCover, [Ask(AnyToSeekCover)])
              else Stayed(c, e, if e >= 0.0 then [Ask(AnyToSeekCover)] else [])
  {
    var a := Edge(n.seekCover, 0.0, Some(AnyToSeekCover));
    StepByEdges(c, [a], dt, guards);
    assert [a][1..] == [];
  }

  /** Lines 97-99 of RegularEnemy.cs: attack first; the self-transition is consulted only
      once 1.5 s have passed, and taking it re-runs seekCover's exit and enter and restarts
      its clock; cover last. */
  lemma SeekCoverStep(n: Nodes, c: Config, dt: real, guards: GuardId -> bool)
    requires Created(n) && c.cur == n.seekCover && HasEdges(n.seekCover, SeekCoverEdges(n))
    ensures var e := c.elapsed + dt;
            var retry := if e >= SeekCoverRetryTime then [Ask(SeekCoverSelfTransition)] else [];
            StepOf(c, dt, guards) ==
              if e >= 0.0 && guards(AnyToAttack) then
                Switched(c, n.attack, [Ask(AnyToAttack)])
              else if e >= SeekCoverRetryTime && guards(SeekCoverSelfTransition) then
                Config(n.seekCover, n.seekCover, 0.0,
                       c.log + [Ask(AnyToAttack), Ask(SeekCoverSelfTransition), Run(SeekCoverExit), Run(SeekCoverEnter)])
              else if e >= 0.0 && guards(SeekCoverToCover) then
                Switched(c, n.cover, [Ask(AnyToAttack)] + retry + [Ask(SeekCoverToCover)])
              else Stayed(c, e, if e >= 0.0 then [Ask(AnyToAttack)] + retry + [Ask(SeekCoverToCover)] else [])
  {
    var a := Edge(n.attack, 0.0, Some(AnyToAttack));
    var b := Edge(n.seekCover, SeekCoverRetryTime, Some(SeekCoverSelfTransition));
    var d := Edge(n.cover, 0.0, Some(SeekCoverToCover));
    StepByEdges(c, [a, b, d], dt, guards);
    ChooseThree(a, b, d, c.elapsed + dt, guards);
  }

  /** Lines 101-102 of RegularEnemy.cs: cover is held for at least 0.5 s, then leaves for
      attack or else seekCover. */
  lemma CoverStep(n: Nodes, c: Config, dt: real, guards: GuardId -> bool)
    requires Created(n) && c.cur == n.cover && HasEdges(n.cover, CoverEdges(n))
    ensures var e := c.elapsed + dt;
            StepOf(c, dt, guards) ==
              if e >= CoverLeaveTime && guards(AnyToAttack) then
                Switched(c, n.attack, [Ask(AnyToAttack)])
              else if e >= CoverLeaveTime && guards(CoverToSeekCover) then
                Switched(c, n.seekCover, [Ask(AnyToAttack), Ask(CoverToSeekCover)])
              else Stayed(c, e, if e >= CoverLeaveTime then [Ask(AnyToAttack), Ask(CoverToSeekCover)] else [])
  {
    var a, b := Edge(n.attack, CoverLeaveTime, Some(AnyToAttack)), Edge(n.seekCover, CoverLeaveTime, Some(CoverToSeekCover));
    StepByEdges(c, [a, b], dt, guards);
    ChooseTwo(a, b, c.elapsed + dt, guards);
  }

  /** Line 104 of RegularEnemy.cs: weaponPulled leaves only for grabSidearm, only after the
      stagger animation time, and only when the weapon is gone. */
  lemma WeaponPulledStep(n: Nodes, t: Timings, c: Config, dt: real, guards: GuardId -> bool)
    requires Created(n) && c.cur == n.weaponPulled && HasEdges(n.weaponPulled, WeaponPulledEdges(n, t))
    ensures var e := c.elapsed + dt;
            StepOf(c, dt, guards) ==
              if e >= t.staggerAnim && guards(WeaponGone) then
                Switched(c, n.grabSidearm, [Ask(WeaponGone)])
              else Stayed(c, e, if e >= t.staggerAnim then [Ask(WeaponGone)] else [])
  {
    var a := Edge(n.grabSidearm, t.staggerAnim, Some(WeaponGone));
    StepByEdges(c, [a], dt, guards);
    assert [a][1..] == [];
  }

  /** Lines 106-107 of RegularEnemy.cs: grabSidearm is held for `sidearmStateTime`, then
      leaves for attack or else seekCover. */
  lemma GrabSidearmStep(n: Nodes, t: Timings, c: Config, dt: real, guards: GuardId -> bool)
    requires Created(n) && c.cur == n.grabSidearm && HasEdges(n.grabSidearm, GrabSidearmEdges(n, t))
    ensures var e := c.elapsed + dt;
            StepOf(c, dt, guards) ==
              if e >= t.sidearmState && guards(AnyToAttack) then
                Switched(c, n.attack, [Ask(AnyToAttack)])
              else if e >= t.sidearmState && guards(AnyToSeekCover) then
                Switched(c, n.seekCover, [Ask(AnyToAttack), Ask(AnyToSeekCover)])
              else Stayed(c, e, if e >= t.sidearmState then [Ask(AnyToAttack), Ask(AnyToSeekCover)] else [])
  {
    var a, b := Edge(n.attack, t.sidearmState, Some(AnyToAttack)), Edge(n.seekCover, t.sidearmState, Some(AnyToSeekCover));
    StepByEdges(c, [a, b], dt, guards);
    ChooseTwo(a, b, c.elapsed + dt, guards);
  }

  /** The recovery pattern of lines 109-115 of RegularEnemy.cs: after `delay`, grabSidearm if
      the weapon is gone, else attack, else seekCover; nothing before `delay`. */
  lemma RecoveryStep(n: Nodes, c: Config, delay: real, dt: real, guards: GuardId -> bool)
    requires HasEdges(c.cur, RecoveryEdges(n, delay))
    ensures var e := c.elapsed + dt;
            StepOf(c, dt, guards) ==
              if e < delay then Stayed(c, e, [])
              else if guards(WeaponGone) then Switched(c, n.grabSidearm, [Ask(WeaponGone)])
              else if guards(AnyToAttack) then Switched(c, n.attack, [Ask(WeaponGone), Ask(AnyToAttack)])
              else if guards(AnyToSeekCover) then
                Switched(c, n.seekCover, [Ask(WeaponGone), Ask(AnyToAttack), Ask(AnyToSeekCover)])
              else Stayed(c, e, [Ask(WeaponGone), Ask(AnyToAttack), Ask(AnyToSeekCover)])
  {
    var a := Edge(n.grabSidearm, delay, Some(WeaponGone));
    var b := Edge(n.attack, delay, Some(AnyToAttack));
    var d := Edge(n.seekCover, delay, Some(AnyToSeekCover));
    StepByEdges(c, [a, b, d], dt, guards);
    var e := c.elapsed + dt;
    ChooseThree(a, b, d, e, guards);
    var ch := Choose([a, b, d], e, guards);
    if e < delay {
      assert ch == Choice(None, []);
    } else if guards(WeaponGone) {
      assert ch == Choice(Some(n.grabSidearm), [Ask(WeaponGone)]);
    } else if guards(AnyToAttack) {
      assert ch == Choice(Some(n.attack), [Ask(WeaponGone), Ask(AnyToAttack)]);
    } else if guards(AnyToSeekCover) {
      assert ch == Choice(Some(n.seekCover), [Ask(WeaponGone), Ask(AnyToAttack), Ask(AnyToSeekCover)]);
    } else {
      assert ch == Choice(None, [Ask(WeaponGone), Ask(AnyToAttack), Ask(AnyToSeekCover)]);
    }
  }

  /** Lines 109-111 of RegularEnemy.cs: painLocked follows the recovery pattern with
      `painLockTime`. */
  lemma PainLockedStep(n: Nodes, t: Timings, c: Config, dt: real, guards: GuardId -> bool)
    requires Created(n) && c.cur == n.painLocked && HasEdges(n.painLocked, RecoveryEdges(n, t.painLock))
    ensures var e := c.elapsed + dt;
            StepOf(c, dt, guards) ==
              if e < t.painLock then Stayed(c, e, [])
              else if guards(WeaponGone) then Switched(c, n.grabSidearm, [Ask(WeaponGone)])
              else if guards(AnyToAttack) then Switched(c, n.attack, [Ask(WeaponGone), Ask(AnyToAttack)])
              else if guards(AnyToSeekCover) then
                Switched(c, n.seekCover, [Ask(WeaponGone), Ask(AnyToAttack), Ask(AnyToSeekCover)])
              else Stayed(c, e, [Ask(WeaponGone), Ask(AnyToAttack), Ask(AnyToSeekCover)])
  {
    RecoveryStep(n, c, t.painLock, dt, guards);
  }

  /** Lines 113-115 of RegularEnemy.cs: punched follows the recovery pattern with
      `punchStunTime`. */
  lemma PunchedStep(n: Nodes, t: Timings, c: Config, dt: real, guards: GuardId -> bool)
    requires Created(n) && c.cur == n.punched && HasEdges(n.punched, RecoveryEdges(n, t.punchStun))
    ensures var e := c.elapsed + dt;
            StepOf(c, dt, guards) ==
              if e < t.punchStun then Stayed(c, e, [])
              else if guards(WeaponGone) then Switched(c, n.grabSidearm, [Ask(WeaponGone)])
              else if guards(AnyToAttack) then Switched(c, n.attack, [Ask(WeaponGone), Ask(AnyToAttack)])
              else if guards(AnyToSeekCover) then
                Switched(c, n.seekCover, [Ask(WeaponGone), Ask(AnyToAttack), Ask(AnyToSeekCover)])
              else Stayed(c, e, [Ask(WeaponGone), Ask(AnyToAttack), Ask(AnyToSeekCover)])
  {
    RecoveryStep(n, c, t.punchStun, dt, guards);
  }

  /** No tick enters weaponPulled, painLocked or punched, and none returns to entry: a tick
      either keeps the current state or lands in attack, seekCover, cover or grabSidearm, and
      in grabSidearm only when the weapon is gone. The forced states are reached through the
      event handlers alone. */
  lemma TickTargets(n: Nodes, t: Timings, c: Config, dt: real, guards: GuardId -> bool)
    requires Created(n) && Graph(n, t) && c.cur in n.AsSeq()
    ensures var r := StepOf(c, dt, guards);
            && (r.cur == c.cur || r.cur in {n.attack, n.seekCover, n.cover, n.grabSidearm})
            && (r.cur == n.grabSidearm && c.cur != n.grabSidearm ==> guards(WeaponGone))
  {
    if c.cur == n.entry {
      EntryStep(n, c, dt, guards);
    } else if c.cur == n.attack {
      AttackStep(n, c, dt, guards);
    } else if c.cur == n.seekCover {
      SeekCoverStep(n, c, dt, guards);
    } else if c.cur == n.cover {
      CoverStep(n, c, dt, guards);
    } else if c.cur == n.weaponPulled {
      WeaponPulledStep(n, t, c, dt, guards);
    } else if c.cur == n.painLocked {
      PainLockedStep(n, t, c, dt, guards);
    } else if c.cur == n.grabSidearm {
      GrabSidearmStep(n, t, c, dt, guards);
    } else {
      PunchedStep(n, t, c, dt, guards);
    }
  }

  /** `m` runs the graph over the states `n`, has a current state, and has no global
      transitions. */
  ghost predicate Hosts(m: StateMachine, n: Nodes)
    reads m
  {
    m.Valid() && m.curState != null && m.states == n.AsSeq() && m.anyStateTransitions == []
  }

  /** The sidearm timer only ever carries the equip callback, and no update callback. */
  predicate SidearmTimer(t: Timer) {
    t.updateAction == None && (t.endAction.None? || t.endAction == Some(EquipSidearm))
  }

  class RegularEnemy {
    const timings: Timings
    const machine: StateMachine
    const nodes: Nodes

    var curWeapon: Option<Weapon>
    var enableSidearmTimer: Timer
    /** Cleared by OnDeath (`this.enabled = false`); Unity then stops calling Update. */
    var enabled: bool

    ghost predicate Valid()
      reads this, machine
    {
      Created(nodes) && Hosts(machine, nodes) && SidearmTimer(enableSidearmTimer)
    }

    /** The graph built by Awake. No method after Awake changes a state or a transition. */
    ghost predicate Wired()
      reads nodes.entry, nodes.entry.transitions, nodes.attack, nodes.attack.transitions
      reads nodes.seekCover, nodes.seekCover.transitions, nodes.cover, nodes.cover.transitions
      reads nodes.weaponPulled, nodes.weaponPulled.transitions, nodes.painLocked, nodes.painLocked.transitions
      reads nodes.grabSidearm, nodes.grabSidearm.transitions, nodes.punched, nodes.punched.transitions
    {
      Graph(nodes, timings)
    }

    /** Awake: creates the eight states (the first, entry, becomes current and has no
        actions) and wires the transitions. */
    constructor (timings: Timings)
      ensures Valid() && Wired() && fresh(machine) && this.timings == timings
      ensures machine.curState == nodes.entry && machine.prevState == nodes.entry
      ensures machine.log == [] && machine.timeSinceStateStart == 0.0
      ensures curWeapon == None && enableSidearmTimer == Timers.Default && enabled
    {
      var m, n := CreateStates();
      this.timings := timings;
      machine := m;
      nodes := n;
      curWeapon := None;
      enableSidearmTimer := Timers.Default;
      enabled := true;
      new;
      WireAll(nodes, timings);
    }

    /** Start: the enemy holds its primary weapon. */
    method Start()
      modifies this`curWeapon
      ensures curWeapon == Some(Primary)
    {
      curWeapon := Some(Primary);
    }

    /** `stateMachine.Tick()` for this enemy, whose machine has no global transitions. */
    method TickMachine(dt: real, guards: GuardId -> bool)
      requires Valid()
      modifies machine`curState, machine`prevState, machine`timeSinceStateStart, machine`log
      ensures Valid()
      ensures machine.Cfg() == StepOf(old(machine.Cfg()), dt, guards)
    {
      machine.Tick(dt, guards, guards);
      StepWithoutGlobals(old(machine.Cfg()), dt, guards);
    }

    /** Update: only while alerted (and not disabled by death), tick the sidearm timer, whose
        end callback equips the sidearm, then tick the machine with the weapon guard read after
        that; entering grabSidearm during the tick re-arms the timer. */
    method Update(dt: real, alerted: bool, oracle: GuardId -> bool)
      requires Valid()
      modifies this`curWeapon, this`enableSidearmTimer
      modifies machine`curState, machine`prevState, machine`timeSinceStateStart, machine`log
      ensures Valid()
      ensures !(enabled && alerted) ==>
                curWeapon == old(curWeapon) && enableSidearmTimer == old(enableSidearmTimer) &&
                machine.Cfg() == old(machine.Cfg())
      ensures enabled && alerted ==>
                var tick := Timers.Tick(old(enableSidearmTimer), dt);
                var weapon := if tick.ranEnd then Some(Sidearm) else old(curWeapon);
                && curWeapon == weapon
                && machine.Cfg() == StepOf(old(machine.Cfg()), dt, GuardsWith(curWeapon.None?, oracle))
                && enableSidearmTimer == (if Run(GrabSidearmEnter) in machine.log[|old(machine.log)|..]
                                          then ArmSidearm(tick.timer, timings.enableSidearmDelay) else tick.timer)
    {
      if !(enabled && alerted) {
        return;
      }
      var tick := Timers.Tick(enableSidearmTimer, dt);
      enableSidearmTimer := tick.timer;
      if tick.ranEnd {
        curWeapon := Some(Sidearm);
      }
      var before := |machine.log|;
      TickMachine(dt, GuardsWith(curWeapon.None?, oracle));
      if Run(GrabSidearmEnter) in machine.log[before..] {
        enableSidearmTimer := ArmSidearm(enableSidearmTimer, timings.enableSidearmDelay);
      }
    }

    /** OnTakeDamage: always forces painLocked, with no dead check. */
    method OnTakeDamage()
      requires Valid()
      modifies machine`curState, machine`prevState, machine`timeSinceStateStart, machine`log
      ensures Valid()
      ensures machine.curState == nodes.painLocked && machine.prevState == old(machine.curState)
      ensures machine.timeSinceStateStart == 0.0
      ensures machine.log == old(machine.log) + Runs(old(machine.curState).onExit) + [Run(PainLockEnter)]
    {
      machine.SetState(nodes.painLocked);
    }

    /** OnWeaponPulled: the weapon is gone, then weaponPulled is forced. */
    method OnWeaponPulled()
      requires Valid() && curWeapon.Some?
      modifies this`curWeapon, machine`curState, machine`prevState, machine`timeSinceStateStart, machine`log
      ensures Valid() && curWeapon == None
      ensures machine.curState == nodes.weaponPulled && machine.prevState == old(machine.curState)
      ensures machine.timeSinceStateStart == 0.0
      ensures machine.log == old(machine.log) + Runs(old(machine.curState).onExit) + [Run(WeaponPulledEnter)]
    {
      curWeapon := None;
      machine.SetState(nodes.weaponPulled);
    }

    /** OnHitWithThrowable: nothing when dead, else painLocked is forced (re-entered if current). */
    method OnHitWithThrowable(isDead: bool)
      requires Valid()
      modifies machine`curState, machine`prevState, machine`timeSinceStateStart, machine`log
      ensures Valid()
      ensures isDead ==> machine.Cfg() == old(machine.Cfg())
      ensures !isDead ==>
                && machine.curState == nodes.painLocked && machine.prevState == old(machine.curState)
                && machine.timeSinceStateStart == 0.0
                && machine.log == old(machine.log) + Runs(old(machine.curState).onExit) + [Run(PainLockEnter)]
    {
      if isDead {
        return;
      }
      machine.SetState(nodes.painLocked);
    }

    /** OnHitWithPunch: nothing when dead, else punched is forced (re-entered if current). */
    method OnHitWithPunch(isDead: bool)
      requires Valid()
      modifies machine`curState, machine`prevState, machine`timeSinceStateStart, machine`log
      ensures Valid()
      ensures isDead ==> machine.Cfg() == old(machine.Cfg())
      ensures !isDead ==>
                && machine.curState == nodes.punched && machine.prevState == old(machine.curState)
                && machine.timeSinceStateStart == 0.0
                && machine.log == old(machine.log) + Runs(old(machine.curState).onExit) + [Run(PunchedEnter)]
    {
      if isDead {
        return;
      }
      machine.SetState(nodes.punched);
    }

    /** DropCurrentWeapon: throws the held weapon away, if any; either way none is held after. */
    method DropCurrentWeapon()
      modifies this`curWeapon
      ensures curWeapon == None
      ensures old(curWeapon).None? ==> curWeapon == old(curWeapon)
    {
      if curWeapon.None? {
        return;
      }
      curWeapon := None;
    }

    /** OnDeath: drops the weapon and disables the component, which ends Update. */
    method OnDeath()
      modifies this`curWeapon, this`enabled
      ensures curWeapon == None && !enabled
    {
      DropCurrentWeapon();
      enabled := false;
    }
  }
}
