/** The decision and speed layer of Core/PlayerController.cs: the priority chain that picks the
    locomotion state each fixed tick, the friction table, the friction, speed-clamp and gravity
    steps, slide priming and cooldown, the launch solve, and the timers the controller ticks.

    Velocity is kept as a horizontal speed (`|Flatten(velocity)|`, never negative) and a
    vertical speed (`velocity.y`): friction and clamping only rescale the horizontal part, so
    its direction plays no role in what is modelled. The geometry tests of the chain (zipline
    length, mantle, climb and wall-run scans) are oracle verdicts, and so are the engine values
    the steps read (`Time.time`, the 3-D magnitude, the gravity curve, launch distances). */
module Player {
  import opened Timers

  /** The eleven states the controller creates in `Awake`, in creation order. */
  datatype Mode = Grounded | Jumping | InAir | WallRunning | Climbing | Mantling | Sliding
                | Ziplining | Launching | Lerping | Paused

  /** The serialized tuning fields the modelled steps read. */
  datatype Tuning = Tuning(
    runSpeed: real,
    groundFriction: real,
    slideFriction: real,
    wallRunFriction: real,
    wallClimbFriction: real,
    zipFriction: real,
    minWallRunSpeed: real,
    wallRunTime: real,
    climbTime: real,
    autoStopSlideSpeed: real,
    gravityForce: real,
    wallRunningSlidingUpGravityForce: real,
    wallRunningGravityForce: real,
    wallSlippingGravityForce: real,
    wallRunCoolDownTime: real,
    suspendAirControlWallRunTime: real)
  {
    /** Speeds and frictions are magnitudes; the wall-run time divides the gravity curve input. */
    predicate Valid() {
      && runSpeed >= 0.0 && minWallRunSpeed >= 0.0 && autoStopSlideSpeed >= 0.0
      && groundFriction >= 0.0 && slideFriction >= 0.0 && wallRunFriction >= 0.0
      && wallClimbFriction >= 0.0 && zipFriction >= 0.0
      && wallRunTime > 0.0
    }
  }

  const SlideCooldownDelay: real := 0.5
  const SlidePrimeDelay: real := 0.15
  /** The launch speed used when the caller passes 0. */
  const DefaultLaunchSpeed: real := 22.0

  /** Horizontal and vertical speed. */
  datatype Motion = Motion(h: real, v: real)

  /** `Mathf.Sign`: 1 for zero and above, -1 below. */
  function Sign(x: real): (r: real)
    ensures r == 1.0 || r == -1.0
    ensures r == 1.0 <==> x >= 0.0
  {
    if x >= 0.0 then 1.0 else -1.0
  }

  function Abs(x: real): (r: real)
    ensures r >= 0.0 && (r == x || r == -x)
  {
    if x >= 0.0 then x else -x
  }

  /** `x * Mathf.Sign(like)`: `x` with the sign of `like` (zero counting as positive). */
  function Signed(x: real, like: real): (r: real)
    ensures Abs(r) == Abs(x)
    ensures x >= 0.0 ==> SameSign(r, like)
  {
    if like >= 0.0 then x else -x
  }

  /** Neither value is strictly on the other side of zero from the other. */
  predicate SameSign(a: real, b: real) {
    (b > 0.0 ==> a >= 0.0) && (b < 0.0 ==> a <= 0.0)
  }

  lemma SignProduct(x: real, like: real)
    ensures x * Sign(like) == Signed(x, like)
  {
  }

  /** Scaling by a factor in [0, 1] keeps a non-negative value between zero and itself. */
  lemma ScaleDown(x: real, k: real)
    requires x >= 0.0 && 0.0 <= k <= 1.0
    ensures 0.0 <= x * k <= x
  {
    assert x * k <= x * 1.0;
  }

  lemma FractionBelowOne(c: real, d: real)
    requires 0.0 <= c < d
    ensures 0.0 <= c / d < 1.0
  {
    var k := c / d;
    assert (1.0 - k) * d == d - c;
  }

  /** `x` scaled by `c / mag`: one component of `velocity.normalized * c` for a velocity of
      length `mag`. */
  function Scale(x: real, c: real, mag: real): real
    requires mag != 0.0
  {
    x * (c / mag)
  }

  /** `Mathf.Clamp(x - amount, 0, Infinity)`: reduce by `amount`, but not below zero. */
  function Decay(x: real, amount: real): (r: real)
    ensures r >= 0.0 && r >= x - amount
    ensures r == 0.0 || r == x - amount
  {
    if x - amount < 0.0 then 0.0 else x - amount
  }

  // ---------------------------------------------------------------------------------------
  // State selection

  /** The verdicts of the candidacy tests of UpdateState, in the order the chain asks them. */
  datatype Checks = Checks(lerping: bool, paused: bool, launching: bool, jumping: bool,
                           ziplining: bool, mantling: bool, sliding: bool, grounded: bool,
                           climbing: bool, wallRunning: bool)

  /** The state the priority chain picks: the first test that holds decides, InAir if none. */
  function Select(c: Checks): (r: Mode)
    ensures r == Lerping <==> c.lerping
    ensures r == Paused <==> !c.lerping && c.paused
    ensures r == Launching <==> !c.lerping && !c.paused && c.launching
    ensures r == Jumping <==> !c.lerping && !c.paused && !c.launching && c.jumping
    ensures r == Ziplining <==> !c.lerping && !c.paused && !c.launching && !c.jumping && c.ziplining
    ensures r == Mantling <==> !c.lerping && !c.paused && !c.launching && !c.jumping && !c.ziplining
                               && c.mantling
    ensures r == Sliding <==> !Preempts(c) && c.sliding
    ensures r == Grounded <==> !Preempts(c) && !c.sliding && c.grounded
    ensures r == Climbing <==> !Preempts(c) && !c.sliding && !c.grounded && c.climbing
    ensures r == WallRunning <==> !Preempts(c) && !c.sliding && !c.grounded && !c.climbing
                                  && c.wallRunning
    ensures r == InAir <==> !Preempts(c) && !c.sliding && !c.grounded && !c.climbing
                            && !c.wallRunning
  {
    if c.lerping then Lerping
    else if c.paused then Paused
    else if c.launching then Launching
    else if c.jumping then Jumping
    else if c.ziplining then Ziplining
    else if c.mantling then Mantling
    else if c.sliding then Sliding
    else if c.grounded then Grounded
    else if c.climbing then Climbing
    else if c.wallRunning then WallRunning
    else InAir
  }

  /** Whether a test asked before IsSliding holds, so that IsSliding is never asked. */
  predicate Preempts(c: Checks) {
    c.lerping || c.paused || c.launching || c.jumping || c.ziplining || c.mantling
  }

  /** The engine's verdicts for the geometry tests of the chain:
      - `withinZiplineLength`: the player is within the zipline's length;
      - `mantling`: IsMantling's verdict (a mantle under way, or a ledge found by its scan);
      - `facingWall`: the short forward ray of a climber hits something;
      - `climbScan`: the ladder scan from the step height reaches 1.95 higher and the wall is
        faced squarely enough to start climbing;
      - `wallAhead`: the wall-run radar finds a wall within 45 degrees of the last one;
      - `wallRunScan`: the player is not moving mainly backwards, the ladder scan reaches the
        head and the angle to the wall is wide enough to start a wall run. */
  datatype Probes = Probes(withinZiplineLength: bool, mantling: bool, facingWall: bool,
                           climbScan: bool, wallAhead: bool, wallRunScan: bool)

  /** The tests of the chain that UpdateState reaches: the climbing test is asked only when
      neither an earlier test, the slide test nor the ground test holds. */
  predicate ReachesClimbTest(c: Checks) {
    !Preempts(c) && !c.sliding && !c.grounded
  }

  predicate ReachesWallRunTest(c: Checks) {
    ReachesClimbTest(c) && !c.climbing
  }

  // ---------------------------------------------------------------------------------------
  // Friction, clamping and gravity

  /** The friction of each state: GetFriction. */
  function FrictionOf(t: Tuning, m: Mode): (r: real)
    ensures m == Grounded ==> r == t.groundFriction
    ensures m == Sliding ==> r == t.slideFriction
    ensures m == WallRunning ==> r == t.wallRunFriction
    ensures m == Climbing ==> r == t.wallClimbFriction
    ensures m == Ziplining ==> r == t.zipFriction
    ensures m !in {Grounded, Sliding, WallRunning, Climbing, Ziplining} ==> r == 0.0
    ensures t.Valid() ==> r >= 0.0
  {
    match m
    case Grounded => t.groundFriction
    case Sliding => t.slideFriction
    case WallRunning => t.wallRunFriction
    case Climbing => t.wallClimbFriction
    case Ziplining => t.zipFriction
    case _ => 0.0
  }

  /** The speed one tick of friction removes in state `m`. */
  function FrictionStep(t: Tuning, m: Mode, dt: real): real {
    FrictionOf(t, m) * dt
  }

  /** The states in which ApplyFriction acts at all. */
  predicate Rubs(m: Mode) {
    m !in {InAir, Mantling, Ziplining, Lerping}
  }

  /** ApplyFriction with the friction step `step` (the state's friction times the tick):
      outside the frictionless states the horizontal speed decays by the step (a standing
      player stays standing: the direction of a zero vector is zero), and while climbing so
      does the vertical speed, keeping its sign. */
  function Frictioned(m: Mode, step: real, v: Motion): (r: Motion)
    ensures !Rubs(m) ==> r == v
    ensures m != Climbing ==> r.v == v.v
    ensures v.h >= 0.0 ==> r.h >= 0.0
    ensures Rubs(m) && v.h != 0.0 ==> r.h == Decay(v.h, step)
    ensures Rubs(m) && v.h == 0.0 ==> r.h == 0.0
    ensures m == Climbing ==> Abs(r.v) == Decay(Abs(v.v), step) && SameSign(r.v, v.v)
  {
    if !Rubs(m) then v
    else
      var h := if v.h == 0.0 then 0.0 else Decay(v.h, step);
      var y := if m == Climbing then Signed(Decay(Abs(v.v), step), v.v) else v.v;
      Motion(h, y)
  }

  /** With a non-negative friction step, friction never speeds the player up, and where it
      acts it removes exactly the step unless that would reverse the motion. */
  lemma FrictionSlowsDown(m: Mode, step: real, v: Motion)
    requires step >= 0.0 && v.h >= 0.0
    ensures var r := Frictioned(m, step, v);
            && 0.0 <= r.h <= v.h
            && Abs(r.v) <= Abs(v.v)
            && (Rubs(m) && v.h >= step ==> r.h == v.h - step)
            && (Rubs(m) && v.h < step ==> r.h == 0.0)
  {
    var r := Frictioned(m, step, v);
    if m == Climbing {
      assert Abs(r.v) == Decay(Abs(v.v), step);
    }
  }

  /** The outcome of ClampVelocity: the new current maximum speed and the new velocity. */
  datatype Clamp = Clamp(curMax: real, motion: Motion)

  /** The new current maximum: first lowered to the actual speed, then, while above the target,
      lowered by the friction step but not below the target; otherwise set to the target. */
  function NextMaxSpeed(cur: real, target: real, speed: real, drop: real): (r: real)
    ensures r >= target
    ensures var capped := if cur > speed then speed else cur;
            && (capped > target ==> r == Decay(capped - target, drop) + target)
            && (capped <= target ==> r == target)
  {
    var capped := if cur > speed then speed else cur;
    if capped > target then (if capped - drop < target then target else capped - drop) else target
  }

  /** ClampVelocity. `mag` is the 3-D speed `velocity.magnitude`, measured on a zipline; off
      the zipline the horizontal speed is clamped and the vertical speed kept, and on a wall
      climb the vertical speed is then held to the target. */
  function Clamped(m: Mode, t: Tuning, dt: real, cur: real, target: real, v: Motion, mag: real): (r: Clamp)
    requires target >= 0.0
  {
    var zip := m == Ziplining;
    var speed := if zip then mag else v.h;
    var curMax := NextMaxSpeed(cur, target, speed, FrictionStep(t, m, dt));
    var scaled := ScaledTo(zip, speed, curMax, mag, v);
    Clamp(curMax, Motion(scaled.h, if m == Climbing then HeldTo(scaled.v, target) else scaled.v))
  }

  /** The velocity brought down to `curMax` when the measured speed exceeds it: the whole
      vector scaled on a zipline, the horizontal part alone elsewhere. */
  function ScaledTo(zip: bool, speed: real, curMax: real, mag: real, v: Motion): Motion
    requires zip && speed > curMax ==> mag != 0.0
  {
    if speed > curMax then
      (if zip then Motion(Scale(v.h, curMax, mag), Scale(v.v, curMax, mag)) else Motion(curMax, v.v))
    else v
  }

  /** A vertical speed held to `limit` in size, keeping its sign. */
  function HeldTo(y: real, limit: real): real {
    if Abs(y) > limit then Signed(limit, y) else y
  }

  /** Scaling a vector of length `mag` by `c / mag` gives length `c`. */
  lemma ScaleToLength(h: real, v: real, mag: real, c: real)
    requires mag > 0.0 && mag * mag == h * h + v * v
    ensures Scale(h, c, mag) * Scale(h, c, mag) + Scale(v, c, mag) * Scale(v, c, mag) == c * c
  {
    var k := c / mag;
    calc {
      Scale(h, c, mag) * Scale(h, c, mag) + Scale(v, c, mag) * Scale(v, c, mag);
      (h * k) * (h * k) + (v * k) * (v * k);
      (h * h + v * v) * (k * k);
      (mag * mag) * (k * k);
      (mag * k) * (mag * k);
      { assert mag * k == c; }
      c * c;
    }
  }

  /** Scaling down to a smaller length keeps a non-negative component between zero and itself. */
  lemma ScaleShrinks(x: real, c: real, mag: real)
    requires x >= 0.0 && 0.0 <= c < mag
    ensures 0.0 <= Scale(x, c, mag) <= x
  {
    FractionBelowOne(c, mag);
    ScaleDown(x, c / mag);
  }

  /** Scaling a velocity that is faster than `c` down to length `c` shrinks its horizontal
      part and leaves its length at `c`. */
  lemma ZipScaleBound(v: Motion, mag: real, c: real)
    requires v.h >= 0.0 && 0.0 <= c < mag && mag * mag == v.h * v.h + v.v * v.v
    ensures 0.0 <= Scale(v.h, c, mag) <= v.h
    ensures Scale(v.h, c, mag) * Scale(v.h, c, mag) + Scale(v.v, c, mag) * Scale(v.v, c, mag) == c * c
  {
    ScaleToLength(v.h, v.v, mag, c);
    ScaleShrinks(v.h, c, mag);
  }

  lemma SquareMonotone(a: real, b: real)
    requires 0.0 <= a <= b
    ensures a * a <= b * b
  {
    assert a * a <= a * b;
    assert a * b <= b * b;
  }

  /** After clamping, the current maximum lies between the target and the larger of its old
      value and the target, and it never falls more than one friction step below the speed it
      was first capped to. */
  lemma ClampMaxBounds(m: Mode, t: Tuning, dt: real, cur: real, target: real, v: Motion, mag: real)
    requires t.Valid() && dt >= 0.0 && target >= 0.0
    ensures var r := Clamped(m, t, dt, cur, target, v, mag);
            var speed := if m == Ziplining then mag else v.h;
            && target <= r.curMax <= (if cur > target then cur else target)
            && r.curMax >= (if cur > speed then speed else cur) - FrictionStep(t, m, dt)
  {
    assert FrictionStep(t, m, dt) >= 0.0;
  }

  /** After clamping, the measured speed is within the new current maximum: the horizontal
      speed off a zipline, the 3-D speed on one. The horizontal speed never grows; on a climb
      the vertical speed is within the target and keeps its sign, and elsewhere off a zipline
      it is untouched. */
  lemma ClampSpeedBounds(m: Mode, t: Tuning, dt: real, cur: real, target: real, v: Motion, mag: real)
    requires v.h >= 0.0 && mag >= 0.0 && mag * mag == v.h * v.h + v.v * v.v && target >= 0.0
    ensures var r := Clamped(m, t, dt, cur, target, v, mag);
            && 0.0 <= r.motion.h <= v.h
            && (m != Ziplining ==> r.motion.h <= r.curMax)
            && (m == Ziplining ==> r.motion.h * r.motion.h + r.motion.v * r.motion.v <= r.curMax * r.curMax)
            && (m == Climbing ==> Abs(r.motion.v) <= target && SameSign(r.motion.v, v.v))
            && (m != Climbing && m != Ziplining ==> r.motion.v == v.v)
  {
    var r := Clamped(m, t, dt, cur, target, v, mag);
    var c := r.curMax;
    if m == Ziplining {
      if mag > c {
        assert r.motion == Motion(Scale(v.h, c, mag), Scale(v.v, c, mag));
        ZipScaleBound(v, mag, c);
      } else {
        assert r.motion == v;
        SquareMonotone(mag, c);
      }
    } else {
      assert r.motion.h == ScaledTo(false, v.h, c, mag, v).h;
    }
  }

  /** ApplyGravity. `curve` is the wall-run gravity curve, read at the elapsed fraction of the
      wall-run limiting timer (`left` is its remaining time). */
  function Gravity(m: Mode, t: Tuning, dt: real, left: real, curve: real -> real, v: Motion): (r: Motion)
    requires t.Valid()
    ensures r.h == v.h
    ensures m == Lerping || m == Mantling ==> r == v
    ensures (m == Grounded || m == Sliding) && v.v <= 0.0 ==> r.v == 0.0
    ensures (m == Grounded || m == Sliding) && v.v > 0.0 ==> r.v == v.v + t.gravityForce * dt
    ensures m == WallRunning && v.h < t.minWallRunSpeed ==> r.v == v.v + t.wallSlippingGravityForce * dt
    ensures m == WallRunning && v.h >= t.minWallRunSpeed && v.v > 0.0 ==>
              r.v == Decay(v.v, -t.wallRunningSlidingUpGravityForce * dt)
    ensures m == WallRunning && v.h >= t.minWallRunSpeed && v.v <= 0.0 ==>
              r.v == v.v + t.wallRunningGravityForce * curve(1.0 - left / t.wallRunTime) * dt
    ensures m in {Jumping, InAir, Climbing, Ziplining, Launching, Paused} ==> r.v == v.v + t.gravityForce * dt
  {
    if m == Lerping || m == Mantling then v
    else if (m == Grounded || m == Sliding) && v.v <= 0.0 then v.(v := 0.0)
    else if m == WallRunning then
      if v.h < t.minWallRunSpeed then v.(v := v.v + t.wallSlippingGravityForce * dt)
      else if v.v > 0.0 then
        var up := v.v + t.wallRunningSlidingUpGravityForce * dt;
        v.(v := if up < 0.0 then 0.0 else up)
      else v.(v := v.v + t.wallRunningGravityForce * curve(1.0 - left / t.wallRunTime) * dt)
    else v.(v := v.v + t.gravityForce * dt)
  }

  /** On the ground or in a slide, gravity never leaves the player moving downwards when it was
      not moving upwards; a wall run that is sliding up never turns into a fall in one step. */
  lemma GravityKeepsFooting(m: Mode, t: Tuning, dt: real, left: real, curve: real -> real, v: Motion)
    requires t.Valid()
    ensures var r := Gravity(m, t, dt, left, curve, v);
            && ((m == Grounded || m == Sliding) && v.v <= 0.0 ==> Gravity(m, t, dt, left, curve, r) == r)
            && (m == WallRunning && v.h >= t.minWallRunSpeed && v.v > 0.0 ==> r.v >= 0.0)
  {
  }

  // ---------------------------------------------------------------------------------------
  // Sliding

  /** The slide bookkeeping IsSliding reads and writes. */
  datatype Slide = Slide(primed: bool, primeTimer: Timer, cooldown: Timer)

  datatype SlideOutcome = SlideOutcome(sliding: bool, slide: Slide)

  /** IsSliding, from the current state, ground contact, horizontal speed and slide input. */
  function SlideStep(t: Tuning, m: Mode, grounded: bool, speed: real, input: bool, s: Slide, dt: real): (r: SlideOutcome)
  {
    if m == Sliding && !grounded then
      SlideOutcome(false, Slide(false, SetTime(s.primeTimer, SlidePrimeDelay), SetTime(s.cooldown, SlideCooldownDelay)))
    else if m != Sliding && m != Grounded then
      var tick := Tick(s.primeTimer, dt);
      var primed := if tick.finished then false else s.primed;
      if input then SlideOutcome(false, Slide(true, SetTime(tick.timer, SlidePrimeDelay), s.cooldown))
      else SlideOutcome(false, Slide(primed, tick.timer, s.cooldown))
    else if m == Sliding && speed <= t.autoStopSlideSpeed then SlideOutcome(false, s)
    else if m == Sliding then SlideOutcome(true, s)
    else if (input || s.primed) && speed >= t.runSpeed && IsFinished(s.cooldown) then
      SlideOutcome(true, Slide(false, s.primeTimer, SetTime(s.cooldown, SlideCooldownDelay)))
    else SlideOutcome(false, s)
  }

  /** Leaving a slide through the air reports no slide, clears the primed input and arms both
      the prime window and the cooldown. */
  lemma SlideOffLedge(t: Tuning, m: Mode, grounded: bool, speed: real, input: bool, s: Slide, dt: real)
    requires m == Sliding && !grounded
    ensures var r := SlideStep(t, m, grounded, speed, input, s, dt);
            && !r.sliding && !r.slide.primed
            && r.slide.primeTimer.curTime == SlidePrimeDelay && !IsFinished(r.slide.primeTimer)
            && r.slide.cooldown.curTime == SlideCooldownDelay && !IsFinished(r.slide.cooldown)
  {
  }

  /** Outside the ground states a slide input only primes a slide for the prime window; without
      input, a primed slide survives exactly while the prime window has not run out. The
      cooldown is untouched and no slide is reported. */
  lemma SlidePriming(t: Tuning, m: Mode, grounded: bool, speed: real, input: bool, s: Slide, dt: real)
    requires m != Sliding && m != Grounded
    ensures var r := SlideStep(t, m, grounded, speed, input, s, dt);
            && !r.sliding && r.slide.cooldown == s.cooldown
            && (input ==> r.slide.primed && r.slide.primeTimer.curTime == SlidePrimeDelay)
            && (!input ==> (r.slide.primed <==> s.primed && !IsFinished(s.primeTimer)))
            && (!input ==> r.slide.primeTimer == Tick(s.primeTimer, dt).timer)
  {
  }

  /** On the ground a slide starts exactly when there is input or a primed slide, the player is
      at least at running speed and the cooldown has run out; starting re-arms the cooldown and
      uses up the primed input, and not starting changes nothing. */
  lemma SlideStart(t: Tuning, m: Mode, grounded: bool, speed: real, input: bool, s: Slide, dt: real)
    requires m == Grounded
    ensures var r := SlideStep(t, m, grounded, speed, input, s, dt);
            && (r.sliding <==> (input || s.primed) && speed >= t.runSpeed && IsFinished(s.cooldown))
            && (r.sliding ==> !r.slide.primed && r.slide.primeTimer == s.primeTimer
                              && r.slide.cooldown == SetTime(s.cooldown, SlideCooldownDelay))
            && (!r.sliding ==> r.slide == s)
  {
  }

  /** A grounded slide goes on exactly while the player is faster than the auto-stop speed, and
      going on or stopping changes none of the bookkeeping. */
  lemma SlideContinue(t: Tuning, m: Mode, grounded: bool, speed: real, input: bool, s: Slide, dt: real)
    requires m == Sliding && grounded
    ensures var r := SlideStep(t, m, grounded, speed, input, s, dt);
            (r.sliding <==> speed > t.autoStopSlideSpeed) && r.slide == s
  {
  }

  /** Starting a slide arms the cooldown: after one further tick of the cooldown timer that is
      shorter than the cooldown delay, no slide can start from the ground again, whatever the
      input and speed. */
  lemma SlideCooldownBlocksRestart(t: Tuning, speed: real, input: bool, s: Slide, dt: real,
                                   frames: real, speed2: real, input2: bool)
    requires SlideStep(t, Grounded, true, speed, input, s, dt).sliding
    requires frames < SlideCooldownDelay
    ensures var s1 := SlideStep(t, Grounded, true, speed, input, s, dt).slide;
            var s2 := s1.(cooldown := Tick(s1.cooldown, frames).timer);
            !SlideStep(t, Grounded, true, speed2, input2, s2, dt).sliding
  {
  }

  // ---------------------------------------------------------------------------------------
  // Launching

  /** The velocity and flight time LaunchToPoint computes. */
  datatype Launch = Launch(h: real, v: real, time: real)

  /** LaunchToPoint's solve. The velocity points from the reference point to the target at the
      given speed (22 when 0 is passed); `dist` is the horizontal distance to the target, `span`
      the straight-line distance and `yDelta` the height difference. The flight time is the
      horizontal distance over the horizontal speed, and the vertical speed is chosen so that
      a body under gravity `|g|` rises by exactly `yDelta` in that time. */
  function LaunchSolve(dist: real, span: real, yDelta: real, initialSpeed: real, g: real): (r: Launch)
    requires dist > 0.0 && span > 0.0 && span * span == dist * dist + yDelta * yDelta
    ensures r.h > 0.0 && r.time > 0.0
    ensures r.h * r.time == dist
    ensures r.v * r.time - 0.5 * Abs(g) * r.time * r.time == yDelta
  {
    var speed := if initialSpeed == 0.0 then DefaultLaunchSpeed else initialSpeed;
    PositiveQuotient(Abs(speed) * dist, span);
    var h := Abs(speed) * dist / span;
    PositiveQuotient(dist, h);
    var time := dist / h;
    QuotientTimesDivisor(dist, h);
    var rise := 0.5 * Abs(g) * time * time;
    QuotientTimesDivisor(yDelta + rise, time);
    var v := (yDelta + rise) / time;
    Launch(h, v, time)
  }

  lemma PositiveQuotient(a: real, b: real)
    requires a > 0.0 && b > 0.0
    ensures a / b > 0.0
  {
  }

  lemma QuotientTimesDivisor(a: real, b: real)
    requires b != 0.0
    ensures b * (a / b) == a && (a / b) * b == a
  {
  }

  /** The flight time is the straight-line distance over the launch speed. */
  lemma LaunchTimeIsSpanOverSpeed(dist: real, span: real, yDelta: real, initialSpeed: real, g: real)
    requires dist > 0.0 && span > 0.0 && span * span == dist * dist + yDelta * yDelta
    ensures var speed := if initialSpeed == 0.0 then DefaultLaunchSpeed else initialSpeed;
            LaunchSolve(dist, span, yDelta, initialSpeed, g).time * Abs(speed) == span
  {
    var speed := if initialSpeed == 0.0 then DefaultLaunchSpeed else initialSpeed;
    var r := LaunchSolve(dist, span, yDelta, initialSpeed, g);
    assert r.h == Abs(speed) * dist / span;
    assert r.h * span == Abs(speed) * dist;
    assert r.time * Abs(speed) * dist == span * dist by {
      calc {
        r.time * Abs(speed) * dist;
        r.time * (r.h * span);
        (r.h * r.time) * span;
        dist * span;
      }
    }
  }

  // ---------------------------------------------------------------------------------------
  // The controller

  class PlayerController {
    const tuning: Tuning
    var mode: Mode                  // stateMachine.CurState
    var hSpeed: real                // |Flatten(velocity)|
    var vSpeed: real                // velocity.y
    var curMaxSpeed: real
    var targetMaxSpeed: real
    var isGrounded: bool
    var velocityCorrected: bool
    var hasZipline: bool            // Zipline != null
    var jumpNextFixedUpdate: bool
    var slideNextFixedUpdate: bool
    var slidePrimed: bool
    var slidePrimeTimer: Timer
    var slideCooldownTimer: Timer
    var wallRunLimitingTimer: Timer
    var wallRunCooldownTimer: Timer
    var climbLimitingTimer: Timer
    var suspendAirControlTimer: Timer
    var lerpTimer: Timer
    var pauseTimer: Timer
    var canClimb: bool
    var curAirControlScaler: real
    var endLaunchTime: real

    ghost predicate Valid()
      reads this
    {
      tuning.Valid() && hSpeed >= 0.0 && targetMaxSpeed >= 0.0
    }

    function Velocity(): Motion
      reads this
    {
      Motion(hSpeed, vSpeed)
    }

    function SlideFields(): Slide
      reads this
    {
      Slide(slidePrimed, slidePrimeTimer, slideCooldownTimer)
    }

    /** IsJumping: a jump input counts in every state but InAir. */
    predicate IsJumping()
      reads this
      ensures mode == InAir ==> !IsJumping()
      ensures mode != InAir ==> (IsJumping() <==> jumpNextFixedUpdate)
    {
      jumpNextFixedUpdate && mode != InAir
    }

    /** IsLaunching: until the launch's end time, unless the engine corrected the velocity
        (the player hit something). */
    predicate IsLaunching(now: real)
      reads this
      ensures velocityCorrected || now >= endLaunchTime ==> !IsLaunching(now)
      ensures !velocityCorrected && now < endLaunchTime ==> IsLaunching(now)
    {
      now < endLaunchTime && !velocityCorrected
    }

    /** IsZiplining: only with a zipline; always straight out of a launch; otherwise while
        nothing was hit and the player is within the zipline's length. */
    predicate IsZiplining(withinLength: bool)
      reads this
      ensures !hasZipline ==> !IsZiplining(withinLength)
      ensures hasZipline && mode == Launching ==> IsZiplining(withinLength)
      ensures hasZipline && mode != Launching ==> (IsZiplining(withinLength) <==> !velocityCorrected && withinLength)
    {
      hasZipline && (mode == Launching || (!velocityCorrected && withinLength))
    }

    /** What each candidacy test of UpdateState would answer in the current state. */
    function Observe(now: real, dt: real, p: Probes): Checks
      reads this
    {
      Checks(!IsFinished(lerpTimer), !IsFinished(pauseTimer), IsLaunching(now), IsJumping(),
             IsZiplining(p.withinZiplineLength), p.mantling,
             SlideStep(tuning, mode, isGrounded, hSpeed, slideNextFixedUpdate, SlideFields(), dt).sliding,
             isGrounded, ClimbVerdict(p), WallRunVerdict(canClimb && !LetsGo(p), p))
    }

    /** A climber who stops rising or stops facing the wall lets go of it, which uses up
        climbing until the player is grounded again. */
    predicate LetsGo(p: Probes)
      reads this
    {
      canClimb && mode == Climbing && (vSpeed <= 0.0 || !p.facingWall)
    }

    /** IsClimbing's verdict: never from the ground or once climbing is used up, not while
        still rising from a jump (unless wall running), not when letting go; a climber keeps
        climbing, and anyone else starts only after a velocity correction and a ladder scan
        that finds the wall. */
    predicate ClimbVerdict(p: Probes)
      reads this
    {
      && mode != Grounded && canClimb
      && (mode == Climbing || mode == WallRunning || vSpeed <= 0.0)
      && !LetsGo(p)
      && (if mode != Climbing && velocityCorrected then p.climbScan else mode == Climbing)
    }

    /** IsWallRunning's own gate, given whether climbing is still allowed at that point. */
    predicate WallRunGate(climbAllowed: bool)
      reads this
    {
      climbAllowed && !IsFinished(wallRunLimitingTimer) && IsFinished(wallRunCooldownTimer)
    }

    /** A wall-runner whose radar loses the wall is pushed off it. */
    predicate FallsOffWall(climbAllowed: bool, p: Probes)
      reads this
    {
      WallRunGate(climbAllowed) && mode == WallRunning && !p.wallAhead
    }

    /** IsWallRunning's verdict: past the gate, only with a wall ahead; a wall-runner keeps
        running, and anyone else starts only after a velocity correction and a passing scan. */
    predicate WallRunVerdict(climbAllowed: bool, p: Probes)
      reads this
    {
      WallRunGate(climbAllowed) && p.wallAhead
      && (mode == WallRunning || (velocityCorrected && p.wallRunScan))
    }

    /** `Awake` creates the Grounded state first, which makes it current and runs its enter
        action: climbing is allowed again, both limiting timers are armed and the target speed
        becomes the running speed. Everything else has its field initializer's value. */
    constructor(tuning: Tuning)
      requires tuning.Valid()
      ensures Valid() && this.tuning == tuning && mode == Grounded
      ensures Velocity() == Motion(0.0, 0.0) && curMaxSpeed == 0.0 && targetMaxSpeed == tuning.runSpeed
      ensures canClimb && curAirControlScaler == 1.0 && endLaunchTime == 0.0
      ensures climbLimitingTimer == SetTime(Default, tuning.climbTime)
      ensures wallRunLimitingTimer == SetTime(Default, tuning.wallRunTime)
      ensures lerpTimer == Default && pauseTimer == Default && slideCooldownTimer == Default
      ensures wallRunCooldownTimer == Default && slidePrimeTimer == Default && suspendAirControlTimer == Default
      ensures IsFinished(wallRunCooldownTimer) && !isGrounded && !velocityCorrected
      ensures !slidePrimed && !jumpNextFixedUpdate && !slideNextFixedUpdate && !hasZipline
    {
      this.tuning := tuning;
      mode := Grounded;
      hSpeed, vSpeed := 0.0, 0.0;
      curMaxSpeed := 0.0;
      targetMaxSpeed := tuning.runSpeed;
      isGrounded, velocityCorrected, hasZipline := false, false, false;
      jumpNextFixedUpdate, slideNextFixedUpdate, slidePrimed := false, false, false;
      slidePrimeTimer, slideCooldownTimer := Default, Default;
      wallRunLimitingTimer := SetTime(Default, tuning.wallRunTime);
      wallRunCooldownTimer := Default;
      climbLimitingTimer := SetTime(Default, tuning.climbTime);
      suspendAirControlTimer, lerpTimer, pauseTimer := Default, Default, Default;
      canClimb := true;
      curAirControlScaler := 1.0;
      endLaunchTime := 0.0;
    }

    /** IsSliding, with its side effects on the slide bookkeeping. */
    method IsSliding(dt: real) returns (sliding: bool)
      modifies this`slidePrimed, this`slidePrimeTimer, this`slideCooldownTimer
      ensures SlideOutcome(sliding, SlideFields())
              == SlideStep(tuning, mode, isGrounded, hSpeed, slideNextFixedUpdate, old(SlideFields()), dt)
    {
      if mode == Sliding && !isGrounded {
        slidePrimed := false;
        slidePrimeTimer := SetTime(slidePrimeTimer, SlidePrimeDelay);
        slideCooldownTimer := SetTime(slideCooldownTimer, SlideCooldownDelay);
        return false;
      }
      if mode != Sliding && mode != Grounded {
        var tick := Tick(slidePrimeTimer, dt);
        slidePrimeTimer := tick.timer;
        if tick.finished {
          slidePrimed := false;
        }
        if slideNextFixedUpdate {
          slidePrimed := true;
          slidePrimeTimer := SetTime(slidePrimeTimer, SlidePrimeDelay);
        }
        return false;
      }
      if mode == Sliding && hSpeed <= tuning.autoStopSlideSpeed {
        return false;
      }
      if mode == Sliding {
        return true;
      }
      var inputForSlide := slideNextFixedUpdate || slidePrimed;
      if inputForSlide && hSpeed >= tuning.runSpeed && IsFinished(slideCooldownTimer) {
        slideCooldownTimer := SetTime(slideCooldownTimer, SlideCooldownDelay);
        slidePrimed := false;
        return true;
      }
      return false;
    }

    /** IsClimbing, with its side effect: letting go clears `canClimb`. */
    method IsClimbing(p: Probes) returns (climbing: bool)
      modifies this`canClimb
      ensures climbing == old(ClimbVerdict(p))
      ensures canClimb == old(canClimb && !LetsGo(p))
    {
      if mode == Grounded || !canClimb {
        return false;
      }
      if mode != Climbing && mode != WallRunning && vSpeed > 0.0 {
        return false;
      }
      if mode == Climbing && vSpeed <= 0.0 {
        canClimb := false;
        return false;
      }
      if mode == Climbing && !p.facingWall {
        canClimb := false;
        return false;
      }
      if mode != Climbing && velocityCorrected {
        return p.climbScan;
      }
      return mode == Climbing;
    }

    /** IsWallRunning, with its side effects: a wall-runner who loses the wall gets the
        wall-run cooldown armed and air control suspended. */
    method IsWallRunning(p: Probes) returns (running: bool)
      modifies this`wallRunCooldownTimer, this`curAirControlScaler, this`suspendAirControlTimer
      ensures running == old(WallRunVerdict(canClimb, p))
      ensures old(FallsOffWall(canClimb, p)) ==>
                && wallRunCooldownTimer == SetTime(old(wallRunCooldownTimer), tuning.wallRunCoolDownTime)
                && curAirControlScaler == 0.0
                && suspendAirControlTimer == SetTime(old(suspendAirControlTimer), tuning.suspendAirControlWallRunTime)
      ensures !old(FallsOffWall(canClimb, p)) ==>
                && wallRunCooldownTimer == old(wallRunCooldownTimer)
                && curAirControlScaler == old(curAirControlScaler)
                && suspendAirControlTimer == old(suspendAirControlTimer)
    {
      if !canClimb || IsFinished(wallRunLimitingTimer) || !IsFinished(wallRunCooldownTimer) {
        return false;
      }
      if mode == WallRunning && !p.wallAhead {
        wallRunCooldownTimer := SetTime(wallRunCooldownTimer, tuning.wallRunCoolDownTime);
        SuspendAirControl(tuning.suspendAirControlWallRunTime);
        return false;
      }
      if !p.wallAhead {
        return false;
      }
      if mode == WallRunning {
        return true;
      }
      return velocityCorrected && p.wallRunScan;
    }

    /** UpdateState: the priority chain, asked in order and stopping at the first test that
        holds; the chosen state becomes current unless it already is. The slide, climbing and
        wall-run tests have side effects, and each runs only when every test before it failed.
        A player who may no longer climb ends up neither climbing nor wall running, and a
        wall-runner pushed off the wall is in the air. */
    method UpdateState(now: real, dt: real, p: Probes) returns (switched: bool)
      modifies this`mode, this`slidePrimed, this`slidePrimeTimer, this`slideCooldownTimer,
               this`canClimb, this`wallRunCooldownTimer, this`curAirControlScaler,
               this`suspendAirControlTimer
      ensures mode == Select(old(Observe(now, dt, p)))
      ensures switched <==> mode != old(mode)
      ensures Preempts(old(Observe(now, dt, p))) ==> SlideFields() == old(SlideFields())
      ensures !Preempts(old(Observe(now, dt, p))) ==>
                SlideFields() == SlideStep(tuning, old(mode), isGrounded, hSpeed, slideNextFixedUpdate,
                                           old(SlideFields()), dt).slide
      ensures canClimb == old(canClimb && !(ReachesClimbTest(Observe(now, dt, p)) && LetsGo(p)))
      ensures var pushedOff := old(ReachesWallRunTest(Observe(now, dt, p))
                                   && FallsOffWall(canClimb && !LetsGo(p), p));
              && (pushedOff ==>
                    && wallRunCooldownTimer == SetTime(old(wallRunCooldownTimer), tuning.wallRunCoolDownTime)
                    && curAirControlScaler == 0.0
                    && suspendAirControlTimer
                       == SetTime(old(suspendAirControlTimer), tuning.suspendAirControlWallRunTime)
                    && mode == InAir)
              && (!pushedOff ==>
                    && wallRunCooldownTimer == old(wallRunCooldownTimer)
                    && curAirControlScaler == old(curAirControlScaler)
                    && suspendAirControlTimer == old(suspendAirControlTimer))
      ensures !canClimb ==> mode != Climbing && mode != WallRunning
    {
      var next: Mode;
      ghost var c := Observe(now, dt, p);
      if !IsFinished(lerpTimer) {
        next := Lerping;
      } else if !IsFinished(pauseTimer) {
        next := Paused;
      } else if IsLaunching(now) {
        next := Launching;
      } else if IsJumping() {
        next := Jumping;
      } else if IsZiplining(p.withinZiplineLength) {
        next := Ziplining;
      } else if p.mantling {
        next := Mantling;
      } else {
        var sliding := IsSliding(dt);
        if sliding {
          next := Sliding;
        } else if isGrounded {
          next := Grounded;
        } else {
          var climbing := IsClimbing(p);
          if climbing {
            next := Climbing;
          } else {
            var running := IsWallRunning(p);
            next := if running then WallRunning else InAir;
          }
        }
      }
      assert next == Select(c);
      switched := next != mode;
      if switched {
        mode := next;
      }
    }

    /** ApplyFriction. */
    method ApplyFriction(dt: real)
      modifies this`hSpeed, this`vSpeed
      ensures Velocity() == Frictioned(mode, FrictionStep(tuning, mode, dt), old(Velocity()))
    {
      var step := FrictionStep(tuning, mode, dt);
      if mode == InAir || mode == Mantling || mode == Ziplining || mode == Lerping {
        assert Velocity() == Frictioned(mode, step, Velocity());
        return;
      }
      var speed := hSpeed - step;
      speed := if speed < 0.0 then 0.0 else speed;
      assert speed == Decay(hSpeed, step);
      var ySpeed := vSpeed;
      if mode == Climbing {
        var yDir := Sign(ySpeed);
        ySpeed := Abs(ySpeed);
        ySpeed := ySpeed - step;
        ySpeed := if ySpeed < 0.0 then 0.0 else ySpeed;
        assert ySpeed == Decay(Abs(vSpeed), step);
        SignProduct(ySpeed, vSpeed);
        ySpeed := ySpeed * yDir;
      }
      ghost var expected := Frictioned(mode, step, Velocity());
      assert expected.h == (if hSpeed == 0.0 then 0.0 else speed);
      assert expected.v == ySpeed;
      hSpeed := if hSpeed == 0.0 then 0.0 else speed;
      vSpeed := ySpeed;
      assert Velocity() == expected;
    }

    /** ClampVelocity; `magnitude` is the engine's `velocity.magnitude`. */
    method ClampVelocity(dt: real, magnitude: real)
      requires Valid() && magnitude >= 0.0
      modifies this`hSpeed, this`vSpeed, this`curMaxSpeed
      ensures Valid()
      ensures Clamp(curMaxSpeed, Velocity())
              == Clamped(mode, tuning, dt, old(curMaxSpeed), targetMaxSpeed, old(Velocity()), magnitude)
    {
      var m, target := mode, targetMaxSpeed;
      var clampYSpeed := m == Ziplining;
      var speed := if clampYSpeed then magnitude else hSpeed;
      var curMax := curMaxSpeed;
      if curMax > speed {
        curMax := speed;
      }
      if curMax > target {
        var friction := FrictionStep(tuning, m, dt);
        curMax := if curMax - friction < target then target else curMax - friction;
      } else {
        curMax := target;
      }
      assert curMax == NextMaxSpeed(curMaxSpeed, target, speed, FrictionStep(tuning, m, dt));
      ghost var scaled := ScaledTo(clampYSpeed, speed, curMax, magnitude, Velocity());
      var h, y := hSpeed, vSpeed;
      if speed > curMax {
        if clampYSpeed {
          ScaleShrinks(h, curMax, magnitude);
          h, y := Scale(h, curMax, magnitude), Scale(y, curMax, magnitude);
        } else {
          h := curMax;
        }
      }
      assert Motion(h, y) == scaled;
      if m == Climbing {
        if Abs(y) > target {
          y := Signed(target, y);  // targetMaxSpeed * Mathf.Sign(ySpeed)
        }
        assert y == HeldTo(scaled.v, target);
      }
      curMaxSpeed, hSpeed, vSpeed := curMax, h, y;
    }

    /** ApplyGravity; `curve` is the wall-run gravity curve. */
    method ApplyGravity(dt: real, curve: real -> real)
      requires tuning.Valid()
      modifies this`vSpeed
      ensures Velocity() == Gravity(mode, tuning, dt, wallRunLimitingTimer.curTime, curve, old(Velocity()))
    {
      if mode == Lerping || mode == Mantling {
        return;
      }
      if (mode == Grounded || mode == Sliding) && vSpeed <= 0.0 {
        vSpeed := 0.0;
        return;
      }
      if mode == WallRunning {
        if hSpeed < tuning.minWallRunSpeed {
          vSpeed := vSpeed + tuning.wallSlippingGravityForce * dt;
          return;
        }
        if vSpeed > 0.0 {
          vSpeed := vSpeed + tuning.wallRunningSlidingUpGravityForce * dt;
          vSpeed := if vSpeed < 0.0 then 0.0 else vSpeed;
          return;
        }
        var eval := 1.0 - wallRunLimitingTimer.curTime / tuning.wallRunTime;
        var gravityScaler := curve(eval);
        vSpeed := vSpeed + tuning.wallRunningGravityForce * gravityScaler * dt;
        return;
      }
      vSpeed := vSpeed + tuning.gravityForce * dt;
    }

    /** SuspendAirControl: no air control until the timer runs out. */
    method SuspendAirControl(time: real)
      modifies this`curAirControlScaler, this`suspendAirControlTimer
      ensures curAirControlScaler == 0.0
      ensures suspendAirControlTimer == SetTime(old(suspendAirControlTimer), time)
    {
      curAirControlScaler := 0.0;
      suspendAirControlTimer := SetTime(suspendAirControlTimer, time);
    }

    /** ResetAirControl: full air control, and the suspension timer is stopped silently. */
    method ResetAirControl()
      modifies this`curAirControlScaler, this`suspendAirControlTimer
      ensures curAirControlScaler == 1.0 && IsFinished(suspendAirControlTimer)
      ensures suspendAirControlTimer == Stop(old(suspendAirControlTimer))
    {
      curAirControlScaler := 1.0;
      suspendAirControlTimer := Stop(suspendAirControlTimer);
    }

    /** LaunchToPoint at time `now`: the solved velocity, the launch end time and a suspension
        of air control for the flight. The launch is then under way unless the engine has
        already corrected the velocity, and it lasts exactly the flight time. */
    method LaunchToPoint(now: real, dist: real, span: real, yDelta: real, initialSpeed: real)
      requires Valid()
      requires dist > 0.0 && span > 0.0 && span * span == dist * dist + yDelta * yDelta
      modifies this`hSpeed, this`vSpeed, this`endLaunchTime, this`curAirControlScaler, this`suspendAirControlTimer
      ensures Valid()
      ensures var l := LaunchSolve(dist, span, yDelta, initialSpeed, tuning.gravityForce);
              && Velocity() == Motion(l.h, l.v)
              && endLaunchTime == now + l.time
              && curAirControlScaler == 0.0
              && suspendAirControlTimer == SetTime(old(suspendAirControlTimer), l.time)
      ensures IsLaunching(now) <==> !velocityCorrected
      ensures !IsFinished(suspendAirControlTimer)
    {
      var l := LaunchSolve(dist, span, yDelta, initialSpeed, tuning.gravityForce);
      hSpeed, vSpeed := l.h, l.v;
      endLaunchTime := now + l.time;
      SuspendAirControl(l.time);
    }

    /** OnExitLaunch: a launch that hit something halts the player; either way the launch is
        over for good (the clock never runs backwards past zero). */
    method OnExitLaunch()
      requires Valid()
      modifies this`hSpeed, this`vSpeed, this`endLaunchTime
      ensures Valid()
      ensures velocityCorrected ==> Velocity() == Motion(0.0, 0.0)
      ensures !velocityCorrected ==> Velocity() == old(Velocity())
      ensures endLaunchTime == 0.0
      ensures forall now: real :: now >= 0.0 ==> !IsLaunching(now)
    {
      if velocityCorrected {
        hSpeed, vSpeed := 0.0, 0.0;
      }
      endLaunchTime := 0.0;
    }

    /** TickTimers, once per frame with the frame time `dt`: the limiting timers of the current
        state, the air-control suspension (whose expiry restores full air control on the next
        frame), and the cooldown, lerp and pause timers. Exhausting the climb timer while
        climbing forbids climbing. */
    method TickTimers(dt: real)
      modifies this`wallRunLimitingTimer, this`climbLimitingTimer, this`canClimb, this`curAirControlScaler,
               this`suspendAirControlTimer, this`wallRunCooldownTimer, this`slideCooldownTimer,
               this`lerpTimer, this`pauseTimer
      ensures wallRunLimitingTimer == if mode == WallRunning then Tick(old(wallRunLimitingTimer), dt).timer
                                      else old(wallRunLimitingTimer)
      ensures climbLimitingTimer == if mode == Climbing then Tick(old(climbLimitingTimer), dt).timer
                                    else old(climbLimitingTimer)
      ensures canClimb == (old(canClimb) && !(mode == Climbing && IsFinished(old(climbLimitingTimer))))
      ensures curAirControlScaler == if IsFinished(old(suspendAirControlTimer)) then 1.0 else old(curAirControlScaler)
      ensures suspendAirControlTimer == Tick(old(suspendAirControlTimer), dt).timer
      ensures wallRunCooldownTimer == Tick(old(wallRunCooldownTimer), dt).timer
      ensures slideCooldownTimer == Tick(old(slideCooldownTimer), dt).timer
      ensures lerpTimer == Tick(old(lerpTimer), dt).timer
      ensures pauseTimer == Tick(old(pauseTimer), dt).timer
    {
      if mode == WallRunning {
        wallRunLimitingTimer := Tick(wallRunLimitingTimer, dt).timer;
      }
      if mode == Climbing {
        var tick := Tick(climbLimitingTimer, dt);
        climbLimitingTimer := tick.timer;
        if tick.finished {
          canClimb := false;
        }
      }
      var air := Tick(suspendAirControlTimer, dt);
      suspendAirControlTimer := air.timer;
      if air.finished {
        curAirControlScaler := 1.0;
      }
      wallRunCooldownTimer := Tick(wallRunCooldownTimer, dt).timer;
      slideCooldownTimer := Tick(slideCooldownTimer, dt).timer;
      lerpTimer := Tick(lerpTimer, dt).timer;
      pauseTimer := Tick(pauseTimer, dt).timer;
    }

    /** ClearInputsAfterFixedUpdate: the buffered inputs are consumed by one fixed tick. */
    method ClearInputsAfterFixedUpdate()
      modifies this`jumpNextFixedUpdate, this`slideNextFixedUpdate
      ensures !jumpNextFixedUpdate && !slideNextFixedUpdate
      ensures !IsJumping()
    {
      jumpNextFixedUpdate := false;
      slideNextFixedUpdate := false;
    }
  }
}
