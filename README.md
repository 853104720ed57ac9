# StaticMag locomotion and AI core, modelled in Dafny

This project models the decision logic of the StaticMag first-person movement game. It covers:

- **The timed-transition state machine** (`FSM/`). States have optional enter, update and exit actions and an ordered list of outgoing transitions. Each transition has a target, an optional guard and a minimum dwell time. The machine keeps the current and previous state, a list of "from any state" transitions and the time spent in the current state. The model uses the classes `FSM.Transition`, `FSM.State` and `FSM.StateMachine`.
  - Actions and guards are delegates whose bodies belong to the clients, so here they are known by identity (`ActionId`, `GuardId`).
  - A guard's verdict comes from an oracle `GuardId -> bool`. A tick takes two oracles: one for the global scan and a fresh one for the local scan, because a global switch runs exit and enter actions that may change the verdicts.
  - The machine records each guard it consults and each action it invokes, in order, in an effect log. This makes "exit runs before enter" and "the guard is not asked before the dwell time has passed" provable.
- **The countdown timer and the rate limiter** (`Utility/Timer.cs`, `Utility/Limitter.cs`).
  - `Timer` is a C# struct: a value that its owner keeps in a field and updates in place. It is modelled as a datatype whose operations return the updated value, which the owner stores back.
  - `Limitter` is also a C# struct. No caller of it appears in the modelled files. The class with one field models one limiter kept in one place; a copy of the struct would not share `lastTime`, whereas two references to the class would.
- **The wall probes** (`Utility/Raycast.cs`). `Physics.Raycast` is an oracle from a ray to an optional hit. The ladder scan is a loop, proved against a specification function.
- **The horizontal projection** `Vector3Ext.Flatten`, over exact real vectors.
- **The player controller's decision and speed layer** (`Core/PlayerController.cs`). This covers:
  - the priority chain that picks the locomotion state each fixed tick;
  - the friction table;
  - the friction, speed-clamp and gravity steps;
  - slide priming and cooldown;
  - the launch solve;
  - the air-control and timer bookkeeping.

  Velocity is represented as a horizontal speed and a vertical speed. The geometry tests of the chain (zipline length, mantle, climb and wall-run scans) are boolean oracles.
- **The enemy's state graph** (`RegularEnemy.cs`). `Awake` creates eight states and wires their transitions. `Update` gates the machine and the sidearm timer. The damage, punch, throwable and weapon events force states.
  - Each state's outgoing step is proved exactly, from the wired transitions.
  - No tick enters a forced state; only the event handlers do.

The engine clock (`Time.time`, `Time.deltaTime`, `Time.fixedDeltaTime`) is a parameter (`now`, `dt`). So are engine measurements the controller only reads: the 3-D velocity magnitude, the wall-run gravity curve, and the distances to a launch target.

Where the code departs from what its names or comments suggest, the model follows the code:

- `StateMachine.Tick` runs the update action of whichever state is current at the end of the tick, also right after a switch.
- `Timer.Tick` returns false on the tick on which the countdown runs out. Only an already finished timer returns true.
- `RegularEnemy` declares nine state fields but creates eight states. `repositionState` is never created or used.

## Model

| member | source | states |
|---|---|---|
| Vectors.Flatten | Utility/Vector3Ext.cs:5-7 | The projection is horizontal (y = 0) and keeps x and z. |
| Vectors.FlattenIdempotent | Utility/Vector3Ext.cs:5-7 | Projecting twice is the same as projecting once. |
| Vectors.FlattenFixedPoints | Utility/Vector3Ext.cs:5-7 | A vector is its own projection exactly when it is horizontal. |
| Vectors.FlattenSub | Utility/Vector3Ext.cs:5-7 | The projection of a displacement is the displacement of the projections. |
| Vectors.FlattenLinear | Utility/Vector3Ext.cs:5-7 | The projection commutes with vector addition and scaling. |
| Timers.Tick | Utility/Timer.cs:14-24 | A finished timer reports true and is untouched, with no callback. A running timer loses `dt`, runs its update callback and reports false, even on the tick it runs out. The end callback runs exactly on the tick the time crosses to <= 0. |
| Timers.TickCalls | Utility/Timer.cs:14-24 | A finished timer invokes nothing. A tick that leaves time on the clock invokes only the update callback. The tick on which the time runs out invokes the update callback and then the end callback. |
| Timers.SetTime | Utility/Timer.cs:26-29 | Both the remaining time and the start time become the new time. The timer is finished afterwards exactly when that time is <= 0. Callbacks are kept. |
| Timers.Stop | Utility/Timer.cs:31-33 | The timer is finished with 0 remaining. Start time and callbacks are kept. |
| Timers.Comp | Utility/Timer.cs:35-37 | The elapsed fraction lies in [0, 1]. It is 1 once a positively armed timer has run out. It is undefined (NaN) exactly when both times are 0. |
| Timers.InvComp | Utility/Timer.cs:39-41 | The remaining fraction lies in [0, 1]. It is 0 once a positively armed timer has run out. It is undefined exactly when both times are 0. |
| Timers.CompInvCompSumToOne | Utility/Timer.cs:35-41 | While a positively armed timer counts down, the elapsed and remaining fractions add up to 1. |
| Timers.FinishedIsFrozen | Utility/Timer.cs:15 | A finished timer stays unchanged and never runs its end callback, whatever ticks follow. |
| Timers.EndRunsAtMostOnce | Utility/Timer.cs:14-24 | Over any sequence of ticks the end callback runs at most once, and never for a timer that starts finished. |
| Timers.NoEndAfterNonPositiveSetOrStop | Utility/Timer.cs:26-33 | After arming with a time <= 0, or after Stop, no sequence of ticks runs the end callback. |
| Timers.EndRunsIffTimeElapses | Utility/Timer.cs:14-24 | With non-negative ticks, a running timer runs its end callback exactly once if the ticks add up to its remaining time, and never otherwise. |
| Timers.IsFinished | Utility/Timer.cs:12 | A timer is finished exactly when its remaining time is <= 0. An unset timer (`default(Timer)`) is finished. |
| Limitters.Limitter.constructor | Utility/Limitter.cs:5 | A fresh limiter's last accepted call is at time 0. |
| Limitters.Limitter.Limit | Utility/Limitter.cs:7-11 | The call is let through exactly when at least `interval` has passed since the last accepted call. An accepted call records `now`; a refused call changes nothing. |
| Limitters.LimitTwiceAtOnce | Utility/Limitter.cs:8-10 | With a positive interval, a call at the same instant right after an accepted call is refused. |
| Limitters.FirstCall | Utility/Limitter.cs:5-11 | The first call on a fresh limiter is let through exactly when `now` has reached the interval. |
| Raycasts.HitWall | Utility/Raycast.cs:34-38 | A hit is on a wall exactly when the angle between up and its normal lies in [88, 92] degrees. |
| Raycasts.WallCast | Utility/Raycast.cs:30-38 | The cast succeeds exactly when the ray hits within the distance and the angle between up and the hit normal is within [88, 92] degrees. The hit is reported either way. |
| Raycasts.RunEnd | Utility/Raycast.cs:14-25 | Every probe in the run hits a wall, and the probe right after the run does not. |
| Raycasts.LadderOf | Utility/Raycast.cs:10-28 | The scan succeeds exactly when probe 0 hits a wall. On failure the data is the default value. |
| Raycasts.Ladder | Utility/Raycast.cs:10-28 | The loop returns what LadderOf specifies: the hit and origin of the last probe in the leading run of wall hits. |
| Raycasts.LadderReachesEndIffAllWalls | Utility/Raycast.cs:14-21 | With at least two probes, the scan succeeds with highest position `end` exactly when every probe hits a wall. |
| Raycasts.LadderIgnoresLaterProbes | Utility/Raycast.cs:14-25 | Two raycast oracles that agree up to the first failing probe give the same scan, so no later probe matters. |
| FSM.Transition.constructor | FSM/Transition.cs:9-11 | The target is fixed, the dwell time is 0 and there is no guard. |
| FSM.Transition.EvaluateTransition | FSM/Transition.cs:13-16 | Without a guard the result is true; with one, it is exactly the guard's verdict. |
| FSM.Transition.When | FSM/Transition.cs:18-20 | The guard is replaced by the new one. |
| FSM.Transition.AfterSeconds | FSM/Transition.cs:22-25 | Sets the dwell time and returns the same transition object. |
| FSM.State.constructor | FSM/State.cs:12-16 | Stores the three actions as given, with no transitions. |
| FSM.State.To | FSM/State.cs:18-22 | Appends exactly one new transition, to any target including the state itself. It is unguarded with zero dwell, and earlier transitions are unchanged. |
| FSM.Consults | FSM/StateMachine.cs:54 | A transition's guard is consulted at most once, and never before its dwell time has passed. |
| FSM.ScanFrom | FSM/StateMachine.cs:52-59 | A reported entry lies in range and fires. |
| FSM.ScanFindsFirst | FSM/StateMachine.cs:53-57 | The entry that fires is the first one that fires; when none is reported, none fires. |
| FSM.ScanConsultsPrefix | FSM/StateMachine.cs:53-57 | The guards consulted are exactly those of the entries up to and including the one that fires. No later entry is examined. |
| FSM.ScanDependsOnlyOnConsulted | FSM/StateMachine.cs:53-57 | Guards that were not consulted cannot affect the result. |
| FSM.Resolve | FSM/StateMachine.cs:52-59 | Without a firing entry, only the consulted guards are logged. With one, the machine switches to its target: previous = old current, the old exit then the new enter are logged, and the clock is 0. |
| FSM.FirstFiring | FSM/StateMachine.cs:53-58 | The loop returns the first firing entry and the guards consulted, as ScanFrom specifies. |
| FSM.StateMachine.constructor | FSM/StateMachine.cs:7-12 | A new machine has no states, no global transitions, an empty log and a zero clock. |
| FSM.StateMachine.CreateState | FSM/StateMachine.cs:14-23 | The first state created becomes both current and previous, and its enter action runs. Later ones are appended and leave current, previous and the log alone. |
| FSM.StateMachine.FromAny | FSM/StateMachine.cs:25-29 | Appends one unguarded, zero-dwell transition at the end of the global list. |
| FSM.StateMachine.SetState | FSM/StateMachine.cs:31-37 | previous = old current and current = target, even when they are equal. The old exit runs before the new enter, then the clock resets to 0. |
| FSM.StateMachine.SetStateIfNotCurrent | FSM/StateMachine.cs:39-43 | Returns false and changes nothing when the target is current. Otherwise it returns true and acts exactly like SetState. |
| FSM.StateMachine.UpdateState | FSM/StateMachine.cs:52-59 | The new configuration is Resolve of the old one over the list. |
| FSM.StateMachine.Tick | FSM/StateMachine.cs:45-50 | The clock advances by `dt`. The global list is resolved with the first guard oracle, then the list of whichever state is then current with the second. Finally the update action of the resulting state runs. |
| FSM.AfterSwitchOnlyZeroDwellFires | FSM/StateMachine.cs:45-57 | Right after a switch (clock 0), only an entry with dwell <= 0 can fire. |
| Enemies.GuardsWith | RegularEnemy.cs:104-115 | The `curWeapon == null` guard reads the enemy's own weapon; every other guard is the oracle's verdict. |
| Enemies.ArmSidearm | RegularEnemy.cs:201-210 | The sidearm timer is armed for the delay. The equip callback is installed only if no end callback is set yet. The update callback is kept. |
| Enemies.CreateCombatStates | RegularEnemy.cs:83-86 | Four fresh states with their actions. entry, created first and with no actions, is current and previous, and nothing is logged. |
| Enemies.CreateRecoveryStates | RegularEnemy.cs:87-90 | Four more fresh states with their actions, leaving the current state and the log alone. |
| Enemies.CreateStates | RegularEnemy.cs:83-90 | A fresh machine with exactly the eight states in creation order, entry current. |
| Enemies.WireEntry | RegularEnemy.cs:92-93 | entry's transitions are, in order: attack, then seekCover, both without dwell. |
| Enemies.WireAttack | RegularEnemy.cs:95 | attack's only transition goes to seekCover. |
| Enemies.WireSeekCover | RegularEnemy.cs:97-99 | seekCover's transitions are, in order: attack, itself after 1.5 s, then cover. |
| Enemies.WireCover | RegularEnemy.cs:101-102 | cover's transitions are attack, then seekCover, both after 0.5 s. |
| Enemies.WireWeaponPulled | RegularEnemy.cs:104 | weaponPulled's only transition goes to grabSidearm, after the stagger time, when the weapon is gone. |
| Enemies.WireAfterDelay | RegularEnemy.cs:106-115 | After the delay: grabSidearm if the weapon is gone (when given), then attack, then seekCover. |
| Enemies.WireCombat | RegularEnemy.cs:92-102 | The four combat states carry exactly the edges of the graph. |
| Enemies.WireRecovery | RegularEnemy.cs:104-115 | The four recovery states carry exactly the edges of the graph. |
| Enemies.WireAll | RegularEnemy.cs:92-115 | All eight states carry exactly the edges of the graph. |
| Enemies.ChooseFirst | RegularEnemy.cs:92-115 | The edge chosen from a state's list is the first one taken; nothing is chosen exactly when no edge is taken. |
| Enemies.StepWithoutGlobals | FSM/StateMachine.cs:45-50 | With no global transitions, a machine tick resolves only the current state's own list. |
| Enemies.ScanMatchesEdges | FSM/StateMachine.cs:52-59 | The machine's scan over wired transitions consults and selects exactly as the edge list predicts. |
| Enemies.ResolveByEdges | FSM/StateMachine.cs:52-59 | Resolving a wired state gives the configuration its edge list predicts. |
| Enemies.StepByEdges | FSM/StateMachine.cs:45-59 | A tick from a wired state either switches to the chosen edge's target (exit, enter, update) or stays with the clock advanced. |
| Enemies.EntryStep | RegularEnemy.cs:92-93 | From entry, a tick goes to attack if AnyToAttack holds, else to seekCover if AnyToSeekCover holds, else stays. |
| Enemies.AttackStep | RegularEnemy.cs:95 | From attack, a tick goes only to seekCover. |
| Enemies.SeekCoverStep | RegularEnemy.cs:97-99 | The self-transition is consulted only after 1.5 s. Taking it re-runs seekCover's exit and enter and restarts the clock. |
| Enemies.CoverStep | RegularEnemy.cs:101-102 | cover is held for at least 0.5 s, then leaves for attack or else seekCover. |
| Enemies.WeaponPulledStep | RegularEnemy.cs:104 | weaponPulled leaves only for grabSidearm, only after the stagger time and only when the weapon is gone. |
| Enemies.GrabSidearmStep | RegularEnemy.cs:106-107 | grabSidearm is held for the sidearm time, then leaves for attack or else seekCover. |
| Enemies.RecoveryStep | RegularEnemy.cs:109-115 | Nothing happens before the delay. After it: grabSidearm if the weapon is gone, else attack, else seekCover. |
| Enemies.PainLockedStep | RegularEnemy.cs:109-111 | painLocked follows that pattern with the pain-lock time. |
| Enemies.PunchedStep | RegularEnemy.cs:113-115 | punched follows that pattern with the punch-stun time. |
| Enemies.TickTargets | RegularEnemy.cs:92-115 | No tick enters weaponPulled, painLocked or punched, or returns to entry. grabSidearm is entered by a tick only when the weapon is gone. |
| Enemies.RegularEnemy.constructor | RegularEnemy.cs:83-116 | The eight states are created with entry current and the whole graph wired, with no actions logged. |
| Enemies.RegularEnemy.Start | RegularEnemy.cs:118-121 | The enemy holds its primary weapon. |
| Enemies.RegularEnemy.TickMachine | RegularEnemy.cs:127 | A machine tick is exactly one step of the graph. |
| Enemies.RegularEnemy.Update | RegularEnemy.cs:123-128 | Nothing changes unless the enemy is alerted (and enabled). Otherwise the sidearm timer ticks and equips the sidearm when it runs out. Then the machine steps, with the weapon guard read after that. Entering grabSidearm re-arms the timer. |
| Enemies.RegularEnemy.OnTakeDamage | RegularEnemy.cs:283-285 | Forces painLocked unconditionally: old exit, then painLocked's enter, then the clock resets. |
| Enemies.RegularEnemy.OnWeaponPulled | RegularEnemy.cs:287-291 | The weapon is gone, then weaponPulled is forced. |
| Enemies.RegularEnemy.OnHitWithThrowable | RegularEnemy.cs:293-296 | Nothing when dead. Otherwise painLocked is forced, re-entered if already current. |
| Enemies.RegularEnemy.OnHitWithPunch | RegularEnemy.cs:298-301 | Nothing when dead. Otherwise punched is forced, re-entered if already current. |
| Enemies.RegularEnemy.DropCurrentWeapon | RegularEnemy.cs:254-268 | No weapon is held afterwards; with none held before, nothing changes. |
| Enemies.RegularEnemy.OnDeath | RegularEnemy.cs:303-314 | The weapon is dropped and the component is disabled, which stops Update. |
| Player.Select | Core/PlayerController.cs:274-286 | For each of the eleven states, the chain picks it exactly when its test holds and every earlier test fails, in the order Lerping, Paused, Launching, Jumping, Ziplining, Mantling, Sliding, Grounded, Climbing, WallRunning, else InAir. |
| Player.PlayerController.UpdateState | Core/PlayerController.cs:274-286 | The new state is the chain's pick from the tests' answers before the call, and the state changes only if it differs. The slide, climbing and wall-run tests run only when every earlier test failed, and each applies its own side effects then. A player who may no longer climb is neither climbing nor wall running afterwards. A wall-runner pushed off the wall is in the air. |
| Player.PlayerController.IsJumping | Core/PlayerController.cs:478-480 | A buffered jump input counts in every state except InAir. |
| Player.PlayerController.IsLaunching | Core/PlayerController.cs:838-842 | The player is launching exactly while `now` is before the launch's end time and the velocity has not been corrected. |
| Player.PlayerController.IsZiplining | Core/PlayerController.cs:815-826 | Never without a zipline. With one, always straight out of Launching, and otherwise exactly while the velocity is uncorrected and the player is within the zipline's length. |
| Player.PlayerController.IsClimbing | Core/PlayerController.cs:646-674 | The verdict is ClimbVerdict. A climber who stops rising or stops facing the wall lets go, and that alone clears `canClimb`. |
| Player.PlayerController.IsWallRunning | Core/PlayerController.cs:565-624 | The verdict is WallRunVerdict. A wall-runner whose radar loses the wall gets the wall-run cooldown armed and air control suspended; otherwise the timers and air control are unchanged. |
| Player.PlayerController.IsSliding | Core/PlayerController.cs:761-795 | The verdict and the new slide bookkeeping are those of SlideStep. |
| Player.SlideOffLedge | Core/PlayerController.cs:763-768 | Sliding off a ledge reports no slide, clears the primed input and arms the prime window and the cooldown. |
| Player.SlidePriming | Core/PlayerController.cs:771-778 | Outside Grounded and Sliding, input primes a slide for the prime window. Without input, a primed slide survives only while the window lasts. The cooldown is untouched and no slide is reported. |
| Player.SlideStart | Core/PlayerController.cs:786-794 | On the ground a slide starts exactly with (input or primed), speed >= run speed and the cooldown over. Starting re-arms the cooldown and clears the primed input; not starting changes nothing. |
| Player.SlideContinue | Core/PlayerController.cs:780-784 | A grounded slide continues exactly while the speed exceeds the auto-stop speed, with the bookkeeping unchanged. |
| Player.SlideCooldownBlocksRestart | Core/PlayerController.cs:786-792 | After a slide starts, the cooldown blocks another start from the ground. A further tick of less than the cooldown delay, with any input and speed, still finds it blocked. |
| Player.FrictionOf | Core/PlayerController.cs:862-870 | The friction table: Grounded, Sliding, WallRunning, Climbing and Ziplining use their own friction; every other state uses 0. |
| Player.Frictioned | Core/PlayerController.cs:322-344 | Nothing changes in InAir, Mantling, Ziplining and Lerping. Elsewhere the horizontal speed decays by the step, floored at 0, and a standing player stays standing. Only in Climbing does the vertical speed decay likewise, keeping its sign. |
| Player.FrictionSlowsDown | Core/PlayerController.cs:322-344 | Friction never speeds the player up. Where it acts it removes exactly the step, unless that would reverse the motion, in which case the speed becomes 0. |
| Player.PlayerController.ApplyFriction | Core/PlayerController.cs:322-344 | The new velocity is Frictioned of the old one, with the current state's friction times `dt`. |
| Player.NextMaxSpeed | Core/PlayerController.cs:350-361 | The new current maximum is never below the target. When it was above, it drops by the friction step, but not below the target. |
| Player.ClampMaxBounds | Core/PlayerController.cs:346-361 | target <= new current max <= max(old current max, target). It also falls no more than one friction step below the speed it was first capped to. |
| Player.ClampSpeedBounds | Core/PlayerController.cs:363-382 | After clamping, the horizontal speed is within the current max; on a zipline the 3-D speed is. The horizontal speed never grows. In Climbing, abs(vy) <= target with its sign kept. Elsewhere off a zipline, vy is untouched. |
| Player.PlayerController.ClampVelocity | Core/PlayerController.cs:346-383 | The new current max and velocity are those of Clamped. This keeps the horizontal speed non-negative and the target non-negative. |
| Player.Gravity | Core/PlayerController.cs:294-320 | The case split: no change in Lerping and Mantling. On the ground or sliding with vy <= 0, vy becomes 0. Wall-running too slowly adds slipping gravity. Wall-running upwards adds sliding-up gravity, floored at 0. Wall-running otherwise adds curve-scaled gravity. Everywhere else standard gravity is added. Horizontal speed is unchanged. |
| Player.GravityKeepsFooting | Core/PlayerController.cs:296-311 | Grounded or sliding with no upward speed is a fixed point of gravity. A wall run sliding up never turns into a fall in one step. |
| Player.PlayerController.ApplyGravity | Core/PlayerController.cs:294-320 | The new velocity is Gravity of the old one, reading the wall-run timer's remaining time. |
| Player.LaunchSolve | Core/PlayerController.cs:895-905 | The horizontal speed and flight time are positive, and together they cover the horizontal distance. The vertical speed makes a body under gravity abs(g) rise by exactly the height difference in the flight time. |
| Player.LaunchTimeIsSpanOverSpeed | Core/PlayerController.cs:895-901 | The flight time is the straight-line distance over the launch speed, which is 22 when 0 is passed. |
| Player.PlayerController.LaunchToPoint | Core/PlayerController.cs:892-909 | Sets the solved velocity and launch end time = now + flight time, and suspends air control for the flight. At `now` the launch is under way exactly when the velocity is not corrected. |
| Player.PlayerController.OnExitLaunch | Core/PlayerController.cs:832-836 | A corrected launch halts the player; otherwise the velocity is kept. The end time is 0, so no later moment counts as launching. |
| Player.PlayerController.SuspendAirControl | Core/PlayerController.cs:852-855 | Air control is 0 and the suspension timer is armed for the given time. |
| Player.PlayerController.ResetAirControl | Core/PlayerController.cs:857-860 | Full air control, and the suspension timer is stopped (finished, with no end callback). |
| Player.PlayerController.TickTimers | Core/PlayerController.cs:400-409 | The wall-run and climb limiting timers tick only in their own states. An already exhausted climb timer in Climbing forbids climbing. An already expired suspension restores full air control. The other four timers always tick. |
| Player.PlayerController.ClearInputsAfterFixedUpdate | Core/PlayerController.cs:395-398 | The buffered jump and slide inputs are consumed, so no jump is pending. |
| Player.PlayerController.constructor | Core/PlayerController.cs:153-171 | Grounded is created first, so it is current and its enter action has run: climbing allowed, both limiting timers armed, target speed = run speed. Everything else holds its initial value: zero speeds, no buffered input, not grounded, no velocity correction, no zipline, and the lerp, pause, slide, wall-run cooldown and air-control timers unset and so finished, which lets the wall-run gate pass before any wall run. |

## Left out

- Unity engine calls are outside the model: `Physics.Raycast`, `Rigidbody`, the `Mover`, input, `Cursor`, the event bus (`Evnts.*`), camera notifications and `PlayerPos`. Raycasts and geometry tests are oracles, times are parameters, and notifications are dropped because they change no modelled value.
- Floating-point rounding, `normalized` and `magnitude` (square roots), `Vector3.Angle`, `AnimationCurve.Evaluate` and `MoveTowards` are not modelled. Vectors are exact reals; the angle comes with the hit; the curve is a function parameter.
  - Unity's `normalized` returns zero for very short vectors, not only for the zero vector. The model treats only a zero horizontal speed as directionless.
- Player.PlayerController.UpdateState: the controller's states are an enumeration, not `State` objects of the machine. The enter, update and exit actions of the player states (OnEnterJump, UpdateWallRun, OnEnterLaunch and the rest) are not run by the model; the constructor applies only the Grounded enter action that `Awake` triggers.
- Player.PlayerController.IsWallRunning: it does not push a wall-runner who loses the wall off it. The source adds the last wall normal times the bump speed to the velocity; that depends on the wall's direction, which the model does not have, so `hSpeed` and `vSpeed` stay unchanged. It also does not record the wall normal or the angle to the wall, which are not fields of the model.
- Player.PlayerController.UpdateState: the side effects of the chain's tests listed for IsWallRunning are dropped here too. `IsMantling` also records the mantle target position, which is not a field of the model.
- The geometry of `IsWallRunning`, `IsClimbing` and `IsMantling` (radar, ladder scans, angles) and the geometry-heavy routines (wall sticking, zipline entry, `CorrectVelocity`, `CheckForGround`, `CalculateDirections`, `UpdateSlideHeight`, `CannotLaunchToPos`, `ApplyFrameVelocity`) are not modelled. Their verdicts enter the priority chain as the oracle record `Probes`; the state, speed and timer tests of `IsClimbing` and `IsWallRunning` around them are modelled, and `velocityCorrected`/`isGrounded` are fields set by the engine.
- Player.PlayerController.ClampVelocity: the 3-D speed on a zipline is the parameter `magnitude`, assumed consistent with the modelled components. It requires a non-negative target speed, so `OnEnterLaunch`'s infinite target is not representable.
- The tuning fields: the model assumes the inspector gives non-negative speeds and frictions and a positive wall-run time. The source does not check this.
- Player.PlayerController.LaunchToPoint: it requires a positive horizontal distance to the target. With zero distance the source divides 0 by 0 and its launch time is NaN. It takes the horizontal, straight-line and vertical distances as parameters instead of the reference point, and does not model the choice between camera and rigidbody.
- Player.PlayerController.TickTimers: the frame time is a parameter, and `Update`/`FixedUpdate` sequencing is not modelled. The timers' own callbacks are not installed by the controller and so are not logged.
- Raycasts.Ladder: it requires `rayCount != 1`. With a single probe the source computes the probe fraction as 0/0 (NaN). Its callers use 3 and 10 probes.
- Timers.Comp and Timers.InvComp: the NaN of a 0/0 division is `None`. A division by a zero start time with a non-zero remaining time gives the clamped infinity.
- `Vector3Ext.ClosestPointOnLine` is not modelled: it needs square roots and nothing in the modelled core uses it.
- Enemies.RegularEnemy.OnWeaponPulled: it requires a held weapon. The source dereferences the weapon and would fail without one.
- In RegularEnemy.cs, navigation, animation, cover, anchor and attack-coordinator queries, ragdoll, rig and gizmo drawing are not modelled. Their guards are oracle verdicts, and their actions appear only by identity in the machine's log.
- `weapons[]` is reduced to the two weapons the code uses, `Primary` and `Sidearm`. The `Alerted` flag is the parameter `alerted`, and `enemy.IsDead` is the parameter `isDead`.
- The presentation files Core/PlayerAnimator.cs, Core/PlayerAudio.cs and CamController.cs, and the enum-only files under Interfaces/, are not part of this model.
