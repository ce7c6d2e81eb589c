/**
 * AICarController: one AI car of the pool. Its traits (speed tier, personality, lane offset)
 * are drawn once at Awake; at Start it copies the track waypoints and turns them into a drive
 * plan; every physics tick it follows the plan while it is Racing. A hard collision makes it
 * Crashed until a recovery scheduled 1.2 seconds later fires.
 *
 * The rigidbody and transform are the fields `position`, `forward` and `velocity`; what the
 * engine computes (physics queries, `Random`, the clock) arrives as parameters.
 */
module AICars {
  import opened Unity
  import opened DrivePlan

  datatype MovementMode = FullPhysics | Simple | Fake

  datatype CarState = Racing | Crashed | Recovering

  datatype Personality = Racer | Challenger | Drifter

  datatype SpeedTier = Slow | Normal | Fast | Elite

  /** Steering handling of a personality. */
  datatype Handling = Handling(turnSpeed: real, steeringResponsiveness: real, maxSteerAngle: real)

  /** A collision harder than this (relative speed, strictly greater) crashes the car. */
  const CrashSpeed: real := 4.0
  /** Seconds between a crash and the recovery it schedules. */
  const RecoverDelay: real := 1.2

  /* ---------------- trait tables ---------------- */

  /** AssignPersonality's bucketing of the draw `Random.value`. */
  function PersonalityFor(r: real): (p: Personality)
    ensures p == Racer <==> r < 0.35
    ensures p == Challenger <==> 0.35 <= r < 0.6
    ensures p == Drifter <==> 0.6 <= r
  {
    if r < 0.35 then Racer else if r < 0.6 then Challenger else Drifter
  }

  /** The (turnSpeed, steeringResponsiveness, maxSteerAngle) each personality gets. */
  function HandlingOf(p: Personality): (h: Handling)
    ensures h.turnSpeed > 0.0 && h.steeringResponsiveness > 0.0 && h.maxSteerAngle > 0.0
    ensures p == Racer ==> h == Handling(7.0, 9.0, 35.0)
    ensures p == Challenger ==> h == Handling(6.0, 7.0, 40.0)
    ensures p == Drifter ==> h == Handling(4.0, 4.0, 55.0)
  {
    match p
    case Racer => Handling(7.0, 9.0, 35.0)
    case Challenger => Handling(6.0, 7.0, 40.0)
    case Drifter => Handling(4.0, 4.0, 55.0)
  }

  /** The lane offset is drawn from [-w, w] with w depending on the personality. */
  function LaneHalfWidth(p: Personality): (w: real)
    ensures 0.5 <= w <= 2.0
    ensures p == Racer ==> w == 0.5
    ensures p == Challenger ==> w == 1.0
    ensures p == Drifter ==> w == 2.0
  {
    match p
    case Racer => 0.5
    case Challenger => 1.0
    case Drifter => 2.0
  }

  /** The lane offset a lane draw u gives, which stays inside the personality's lane. */
  function LaneOffsetFor(p: Personality, u: real): (offset: real)
    requires Unit(u)
    ensures -LaneHalfWidth(p) <= offset <= LaneHalfWidth(p)
    ensures Abs(offset) <= 2.0
  {
    Range(-LaneHalfWidth(p), LaneHalfWidth(p), u)
  }

  /** AssignSpeedTier's bucketing of the draw `Random.value`. */
  function TierFor(r: real): (t: SpeedTier)
    ensures t == Slow <==> r < 0.25
    ensures t == Normal <==> 0.25 <= r < 0.6
    ensures t == Fast <==> 0.6 <= r < 0.85
    ensures t == Elite <==> 0.85 <= r
  {
    if r < 0.25 then Slow else if r < 0.6 then Normal else if r < 0.85 then Fast else Elite
  }

  /** The interval a tier draws its speed multiplier from. */
  function MultiplierRange(t: SpeedTier): (bounds: (real, real))
    ensures 0.85 <= bounds.0 < bounds.1 <= 1.3
  {
    match t
    case Slow => (0.85, 0.95)
    case Normal => (0.95, 1.05)
    case Fast => (1.05, 1.15)
    case Elite => (1.15, 1.3)
  }

  /** The speed multiplier a tier and a unit draw give. */
  function MultiplierFor(t: SpeedTier, u: real): (m: real)
    requires Unit(u)
    ensures MultiplierRange(t).0 <= m <= MultiplierRange(t).1
    ensures 0.85 <= m <= 1.3
  {
    Range(MultiplierRange(t).0, MultiplierRange(t).1, u)
  }

  /** How eagerly a tier chases the player: a probability weight in (0, 1]. */
  function CatchBias(t: SpeedTier): (b: real)
    ensures 0.0 < b <= 1.0
    ensures b == 1.0 <==> t == Elite
  {
    match t
    case Slow => 0.1
    case Normal => 0.3
    case Fast => 0.6
    case Elite => 1.0
  }

  /** A faster tier never has a slower multiplier range nor a smaller catch bias. */
  lemma TiersAreOrdered(r1: real, r2: real, u1: real, u2: real)
    requires r1 <= r2 && Unit(u1) && Unit(u2)
    requires TierFor(r1) != TierFor(r2)
    ensures MultiplierFor(TierFor(r1), u1) <= MultiplierFor(TierFor(r2), u2)
    ensures CatchBias(TierFor(r1)) < CatchBias(TierFor(r2))
  {
  }

  /* ---------------- speed ---------------- */

  /** What UpdateSpeed learns about the player: the distance to it and the facing dot product. */
  datatype Sighting = Sighting(distance: real, dot: real)

  /** UpdateSpeed's personality factor. */
  function PersonalityFactor(p: Personality): (f: real)
    ensures 0.9 <= f <= 1.1
  {
    match p
    case Racer => 1.1
    case Challenger => 1.05
    case Drifter => 0.9
  }

  /**
   * Whether this tick's draw grants the catch-up boost: the player is ahead within 40 units
   * and the draw falls below `catchPlayerBias * InverseLerp(40, 10, distance) * dt`.
   */
  predicate CatchesUp(bias: real, s: Sighting, draw: real, dt: real)
  {
    s.dot > 0.15 && s.distance < 40.0 && draw < bias * InverseLerp(40.0, 10.0, s.distance) * dt
  }

  /** The speed before the final clamp: the tuned speed, plus the boost when the draw grants it. */
  function UnclampedSpeed(baseSpeed: real, multiplier: real, p: Personality, bias: real, boost: real,
                          sight: Option<Sighting>, draw: real, dt: real): real
  {
    var tuned := baseSpeed * multiplier * PersonalityFactor(p);
    if sight.Some? && CatchesUp(bias, sight.value, draw, dt) then tuned + boost else tuned
  }

  /** UpdateSpeed's result: the unclamped speed clamped to [0.8, 1.6] times the base speed. */
  function SpeedFor(baseSpeed: real, multiplier: real, p: Personality, bias: real, boost: real,
                    sight: Option<Sighting>, draw: real, dt: real): (speed: real)
    ensures baseSpeed >= 0.0 ==> baseSpeed * 0.8 <= speed <= baseSpeed * 1.6
    ensures var u := UnclampedSpeed(baseSpeed, multiplier, p, bias, boost, sight, draw, dt);
            (baseSpeed * 0.8 <= u <= baseSpeed * 1.6 ==> speed == u) &&
            (u < baseSpeed * 0.8 ==> speed == baseSpeed * 0.8) &&
            (baseSpeed * 0.8 <= u && baseSpeed * 1.6 < u ==> speed == baseSpeed * 1.6)
  {
    Clamp(UnclampedSpeed(baseSpeed, multiplier, p, bias, boost, sight, draw, dt),
          baseSpeed * 0.8, baseSpeed * 1.6)
  }

  /** The boost is added at most once: the unclamped speed is the tuned speed or that plus the boost. */
  lemma BoostAtMostOnce(baseSpeed: real, multiplier: real, p: Personality, bias: real, boost: real,
                        sight: Option<Sighting>, draw: real, dt: real)
    ensures var tuned := baseSpeed * multiplier * PersonalityFactor(p);
            var s := UnclampedSpeed(baseSpeed, multiplier, p, bias, boost, sight, draw, dt);
            s == tuned || s == tuned + boost
  {
  }

  /**
   * No boost without a player ahead and near: when the player is missing, behind (dot at most
   * 0.15) or at least 40 units away, or when the draw is not below the weighted chance.
   */
  lemma BoostNeedsPlayerAheadAndNear(baseSpeed: real, multiplier: real, p: Personality, bias: real,
                                     boost: real, sight: Option<Sighting>, draw: real, dt: real)
    requires sight.None? || sight.value.dot <= 0.15 || sight.value.distance >= 40.0
    ensures UnclampedSpeed(baseSpeed, multiplier, p, bias, boost, sight, draw, dt)
            == baseSpeed * multiplier * PersonalityFactor(p)
  {
  }

  /** A player 10 units away or closer, straight ahead, is chased with the full tier bias. */
  lemma CloseChaseUsesFullBias(bias: real, s: Sighting, draw: real, dt: real)
    requires s.dot > 0.15 && s.distance <= 10.0
    ensures CatchesUp(bias, s, draw, dt) <==> draw < bias * dt
  {
    assert InverseLerp(40.0, 10.0, s.distance) == 1.0;
  }

  /** A non-negative draw never grants a boost to a car whose chance is zero (dt or bias zero). */
  lemma ZeroChanceNeverBoosts(bias: real, s: Sighting, draw: real, dt: real)
    requires draw >= 0.0 && (bias == 0.0 || dt == 0.0)
    ensures !CatchesUp(bias, s, draw, dt)
  {
  }

  /* ---------------- steering ---------------- */

  /**
   * SmoothSteer's rotation angle: the signed angle clamped to [-maxSteerAngle, maxSteerAngle],
   * times `dt * steeringResponsiveness`, so it never exceeds maxSteerAngle * dt * responsiveness.
   */
  function SteerAngle(angle: real, maxSteer: real, dt: real, responsiveness: real): (r: real)
    ensures maxSteer >= 0.0 && dt >= 0.0 && responsiveness >= 0.0 ==>
              Abs(r) <= maxSteer * (dt * responsiveness)
    ensures -maxSteer <= angle <= maxSteer ==> r == angle * (dt * responsiveness)
    ensures -maxSteer <= angle && maxSteer < angle ==> r == maxSteer * (dt * responsiveness)
    ensures angle < -maxSteer ==> r == -maxSteer * (dt * responsiveness)
  {
    var clamped := Clamp(angle, -maxSteer, maxSteer);
    var gain := dt * responsiveness;
    if maxSteer >= 0.0 && gain >= 0.0 then
      ScaledBound(clamped, maxSteer, gain);
      clamped * gain
    else
      clamped * gain
  }

  /** |c| <= m and g >= 0 give |c * g| <= m * g. */
  lemma ScaledBound(c: real, m: real, g: real)
    requires -m <= c <= m && g >= 0.0
    ensures Abs(c * g) <= m * g
  {
    MulNonneg(m - c, g);
    MulNonneg(m + c, g);
  }

  /** ApplyAvoidance's turn: away from the hit surface, along `Cross(up, normal)`, which is level. */
  lemma AvoidanceIsLevel(normal: Vec3, strength: real)
    ensures Scale(Cross(Up, normal), strength).y == 0.0
  {
  }

  /* ---------------- the drive-plan cursor ---------------- */

  /** ExecuteDrivePlan first resets an index past the end to 0, so it reads within the plan. */
  function ReadIndex(index: nat, count: nat): (r: nat)
    requires count > 0
    ensures r < count
    ensures index < count ==> r == index
    ensures index >= count ==> r == 0
  {
    if index >= count then 0 else index
  }

  /** The cursor (driveIndex, drivenDistance) after a tick that travelled `travelled`. */
  datatype Cursor = Cursor(index: nat, driven: real)

  function StepCursor(plan: seq<DriveSegment>, c: Cursor, travelled: real): (r: Cursor)
    requires |plan| > 0
    ensures var i := ReadIndex(c.index, |plan|);
            var d := c.driven + travelled;
            (d >= plan[i].distance ==> r == Cursor(i + 1, 0.0)) &&
            (d < plan[i].distance ==> r == Cursor(i, d))
  {
    var i := ReadIndex(c.index, |plan|);
    var d := c.driven + travelled;
    if d >= plan[i].distance then Cursor(i + 1, 0.0) else Cursor(i, d)
  }

  /**
   * The plan is followed in cyclic order: the segment read on the next tick is the one after the
   * current segment (wrapping to the first) exactly when the current one was completed, and the
   * same segment otherwise, with the accumulator not decreasing on a non-negative travel.
   */
  lemma CursorFollowsPlanCyclically(plan: seq<DriveSegment>, c: Cursor, travelled: real)
    requires |plan| > 0
    ensures var i := ReadIndex(c.index, |plan|);
            var r := StepCursor(plan, c, travelled);
            (c.driven + travelled >= plan[i].distance ==>
               ReadIndex(r.index, |plan|) == (i + 1) % |plan| && r.driven == 0.0) &&
            (c.driven + travelled < plan[i].distance ==>
               ReadIndex(r.index, |plan|) == i && (travelled >= 0.0 ==> r.driven >= c.driven))
  {
  }

  /** Stepping from the index ExecuteDrivePlan reads is stepping from the stored index. */
  lemma ReadIndexIdempotent(plan: seq<DriveSegment>, c: Cursor, travelled: real)
    requires |plan| > 0
    ensures StepCursor(plan, Cursor(ReadIndex(c.index, |plan|), c.driven), travelled) ==
            StepCursor(plan, c, travelled)
  {
  }

  /** The index never runs more than one past the plan, and the accumulator stays non-negative. */
  lemma CursorStaysBounded(plan: seq<DriveSegment>, c: Cursor, travelled: real)
    requires |plan| > 0 && c.driven >= 0.0 && travelled >= 0.0
    ensures StepCursor(plan, c, travelled).index <= |plan|
    ensures StepCursor(plan, c, travelled).driven >= 0.0
  {
  }

  /* ---------------- crash and recovery ---------------- */

  /** The state after a collision whose relative speed is `relSpeed`. */
  function AfterCollision(state: CarState, relSpeed: real): (r: CarState)
    ensures relSpeed > CrashSpeed ==> r == Crashed
    ensures relSpeed <= CrashSpeed ==> r == state
  {
    if relSpeed > CrashSpeed then Crashed else state
  }

  /** The recoveries a schedule still holds at time `now`: those due later, in order. */
  function Waiting(pending: seq<real>, now: real): (w: seq<real>)
    ensures |w| <= |pending|
    ensures forall t :: t in w <==> t in pending && t > now
  {
    if pending == [] then []
    else
      var last := pending[|pending| - 1];
      Waiting(pending[..|pending| - 1], now) + (if last > now then [last] else [])
  }

  /** Some scheduled recovery is due at `now`. */
  predicate AnyDue(pending: seq<real>, now: real)
  {
    exists k :: 0 <= k < |pending| && pending[k] <= now
  }

  /** Recoveries are dropped from the schedule exactly when some of them is due. */
  lemma {:induction false} DroppedIffDue(pending: seq<real>, now: real)
    ensures |Waiting(pending, now)| < |pending| <==> AnyDue(pending, now)
  {
    if pending != [] {
      var init := pending[..|pending| - 1];
      DroppedIffDue(init, now);
      if AnyDue(init, now) {
        var k :| 0 <= k < |init| && init[k] <= now;
        assert pending[k] <= now;
      }
      if AnyDue(pending, now) && pending[|pending| - 1] > now {
        var k :| 0 <= k < |pending| && pending[k] <= now;
        assert init[k] <= now;
      }
    }
  }

  /** Reading one more entry of a schedule: it is kept exactly when not due, and due or not decides AnyDue. */
  lemma ScheduleStep(all: seq<real>, i: nat, now: real)
    requires i < |all|
    ensures Waiting(all[..i + 1], now) == Waiting(all[..i], now) + (if all[i] > now then [all[i]] else [])
    ensures AnyDue(all[..i + 1], now) <==> AnyDue(all[..i], now) || all[i] <= now
  {
    var p := all[..i + 1];
    assert p[..|p| - 1] == all[..i];
    if AnyDue(p, now) && all[i] > now {
      var k :| 0 <= k < |p| && p[k] <= now;
      assert all[..i][k] <= now;
    }
    if AnyDue(all[..i], now) {
      var k :| 0 <= k < i && all[..i][k] <= now;
      assert p[k] <= now;
    }
    if all[i] <= now {
      assert p[i] <= now;
    }
  }

  /** Nothing is dropped from a schedule none of whose recoveries is due. */
  lemma {:induction false} NothingDueKeepsAll(pending: seq<real>, now: real)
    requires forall k :: 0 <= k < |pending| ==> pending[k] > now
    ensures Waiting(pending, now) == pending
  {
    if pending != [] {
      var init := pending[..|pending| - 1];
      NothingDueKeepsAll(init, now);
      assert init + [pending[|pending| - 1]] == pending;
    }
  }

  /**
   * Recoveries of overlapping crashes do not wait for each other: whenever one scheduled
   * recovery is due while a later one is not, FireDue runs the due one -- which sets Racing --
   * and the later one stays scheduled, so the car races again before its last crash's
   * recovery time.
   */
  lemma {:induction false} EarlierRecoveryEndsLaterCrash(pending: seq<real>, now: real, j: nat, k: nat)
    requires j < |pending| && k < |pending| && pending[j] <= now < pending[k]
    ensures AnyDue(pending, now)
    ensures |Waiting(pending, now)| < |pending| && pending[k] in Waiting(pending, now)
  {
    DroppedIffDue(pending, now);
  }

  /* ---------------- the car ---------------- */

  /** What one physics tick is given by the engine. */
  datatype Tick = Tick(
    dt: real,                 // Time.fixedDeltaTime
    playerPos: Vec3,          // the player's transform.position
    catchDraw: real,          // Random.value in UpdateSpeed
    avoidNormal: Option<Vec3>, // the normal of ApplyAvoidance's sphere-cast hit, if any
    groundY: Option<real>     // the y of StickToGround's ray-cast hit, if any
  )

  class AICarController {
    var movementMode: MovementMode
    var currentState: CarState
    var personality: Personality
    var speedTier: SpeedTier

    var baseSpeed: real
    var catchUpBoost: real
    var speedMultiplier: real
    var currentSpeed: real
    var catchPlayerBias: real

    var laneOffset: real
    var turnSmoothness: real
    var turnStrength: real
    var avoidStrength: real
    var turnSpeed: real
    var maxSteerAngle: real
    var steeringResponsiveness: real

    var drivePlan: seq<DriveSegment>
    var driveIndex: nat
    var drivenDistance: real

    var path: Option<seq<Vec3>>
    var pathIndex: nat
    var lookAheadDistance: real

    var hasPlayer: bool
    var position: Vec3
    var forward: Vec3
    var velocity: Vec3

    /** The fire times of the recoveries `Invoke` has scheduled and not yet run. */
    var pending: seq<real>

    /** No code path ever enters Recovering, and the distance accumulator is never negative. */
    predicate Valid()
      reads this`currentState, this`drivenDistance
    {
      currentState != Recovering && drivenDistance >= 0.0
    }

    /** The inspector defaults; `turnSmoothness` and `turnStrength` are never assigned. */
    constructor (position: Vec3, forward: Vec3)
      ensures Valid()
      ensures movementMode == FullPhysics && currentState == Racing
      ensures baseSpeed == 12.0 && catchUpBoost == 4.0 && catchPlayerBias == 0.0
      ensures turnSmoothness == 0.0 && turnStrength == 0.0 && laneOffset == 0.0
      ensures avoidStrength == 2.0 && turnSpeed == 6.0 && maxSteerAngle == 45.0
      ensures steeringResponsiveness == 8.0 && lookAheadDistance == 6.0
      ensures drivePlan == [] && driveIndex == 0 && drivenDistance == 0.0
      ensures path == None && pathIndex == 0 && pending == [] && !hasPlayer
      ensures this.position == position && this.forward == forward && velocity == Zero
    {
      movementMode := FullPhysics;
      currentState := Racing;
      personality := Racer;
      speedTier := Slow;
      baseSpeed := 12.0;
      catchUpBoost := 4.0;
      speedMultiplier := 0.0;
      currentSpeed := 0.0;
      catchPlayerBias := 0.0;
      laneOffset := 0.0;
      turnSmoothness := 0.0;
      turnStrength := 0.0;
      avoidStrength := 2.0;
      turnSpeed := 6.0;
      maxSteerAngle := 45.0;
      steeringResponsiveness := 8.0;
      drivePlan := [];
      driveIndex := 0;
      drivenDistance := 0.0;
      path := None;
      pathIndex := 0;
      lookAheadDistance := 6.0;
      hasPlayer := false;
      this.position := position;
      this.forward := forward;
      velocity := Zero;
      pending := [];
    }

    /* ----- crash state machine ----- */

    /** A hard collision crashes the car and schedules a recovery RecoverDelay seconds later. */
    method OnCollisionEnter(relSpeed: real, now: real)
      requires Valid()
      modifies this`currentState, this`pending
      ensures Valid()
      ensures currentState == AfterCollision(old(currentState), relSpeed)
      ensures relSpeed > CrashSpeed ==> pending == old(pending) + [now + RecoverDelay]
      ensures relSpeed <= CrashSpeed ==> pending == old(pending)
    {
      if relSpeed > CrashSpeed {
        currentState := Crashed;
        pending := pending + [now + RecoverDelay];
      }
    }

    /** Recover: back to Racing, whatever the state was. */
    method Recover()
      requires Valid()
      modifies this`currentState
      ensures Valid() && currentState == Racing
    {
      currentState := Racing;
    }

    /**
     * The engine's side of `Invoke`: at time `now` every scheduled recovery that is due runs
     * (each one sets Racing) and leaves the schedule; the others keep waiting in order.
     */
    method FireDue(now: real)
      requires Valid()
      modifies this`currentState, this`pending
      ensures Valid()
      ensures pending == Waiting(old(pending), now)
      ensures currentState == if AnyDue(old(pending), now) then Racing else old(currentState)
    {
      var all := pending;
      var kept: seq<real> := [];
      var i := 0;
      while i < |all|
        invariant 0 <= i <= |all|
        invariant kept == Waiting(all[..i], now)
        invariant Valid()
        invariant currentState == if AnyDue(all[..i], now) then Racing else old(currentState)
      {
        ScheduleStep(all, i, now);
        if all[i] <= now {
          Recover();
        } else {
          kept := kept + [all[i]];
        }
        i := i + 1;
      }
      assert all[..i] == all;
      pending := kept;
    }

    /* ----- traits ----- */

    /** AssignPersonality from the draw `r = Random.value`. */
    method AssignPersonality(r: real)
      modifies this`personality, this`turnSpeed, this`steeringResponsiveness, this`maxSteerAngle
      ensures personality == PersonalityFor(r)
      ensures Handling(turnSpeed, steeringResponsiveness, maxSteerAngle) == HandlingOf(personality)
    {
      personality := PersonalityFor(r);
      var h := HandlingOf(personality);
      turnSpeed := h.turnSpeed;
      steeringResponsiveness := h.steeringResponsiveness;
      maxSteerAngle := h.maxSteerAngle;
    }

    /** AssignSpeedTier from the draws `r = Random.value` and the unit draw behind `Random.Range`. */
    method AssignSpeedTier(r: real, u: real)
      requires Unit(u)
      modifies this`speedTier, this`speedMultiplier, this`catchPlayerBias
      ensures speedTier == TierFor(r)
      ensures speedMultiplier == MultiplierFor(speedTier, u)
      ensures catchPlayerBias == CatchBias(speedTier)
    {
      speedTier := TierFor(r);
      speedMultiplier := MultiplierFor(speedTier, u);
      catchPlayerBias := CatchBias(speedTier);
    }

    /** AssignLaneOffset: a draw from the current personality's lane. */
    method AssignLaneOffset(u: real)
      requires Unit(u)
      modifies this`laneOffset
      ensures laneOffset == LaneOffsetFor(personality, u)
    {
      laneOffset := LaneOffsetFor(personality, u);
    }

    /**
     * Awake: the speed tier, then the personality, then the lane offset (which therefore uses the
     * new personality), then the player lookup.
     */
    method Awake(tierDraw: real, multiplierDraw: real, personalityDraw: real, laneDraw: real,
                 playerFound: bool)
      requires Unit(multiplierDraw) && Unit(laneDraw)
      modifies this`speedTier, this`speedMultiplier, this`catchPlayerBias, this`personality,
               this`turnSpeed, this`steeringResponsiveness, this`maxSteerAngle, this`laneOffset,
               this`hasPlayer
      ensures speedTier == TierFor(tierDraw) && catchPlayerBias == CatchBias(speedTier)
      ensures speedMultiplier == MultiplierFor(speedTier, multiplierDraw)
      ensures personality == PersonalityFor(personalityDraw)
      ensures Handling(turnSpeed, steeringResponsiveness, maxSteerAngle) == HandlingOf(personality)
      ensures laneOffset == LaneOffsetFor(personality, laneDraw)
      ensures hasPlayer == playerFound
    {
      AssignSpeedTier(tierDraw, multiplierDraw);
      AssignPersonality(personalityDraw);
      AssignLaneOffset(laneDraw);
      hasPlayer := playerFound;
    }

    /* ----- path and drive plan ----- */

    /** BuildPath: copies the spline's waypoint positions; a missing or empty spline changes nothing. */
    method BuildPath(waypoints: Option<seq<Vec3>>)
      modifies this`path
      ensures waypoints.Some? && |waypoints.value| > 0 ==> path == waypoints
      ensures !(waypoints.Some? && |waypoints.value| > 0) ==> path == old(path)
    {
      if waypoints.None? || |waypoints.value| == 0 {
        return;
      }
      path := waypoints;
    }

    /** The tuning this controller builds its plan with. */
    function PlanTuning(): (t: Tuning)
      reads this
      ensures t.laneOffset == laneOffset
    {
      TuningOf(laneOffset, turnSmoothness, turnStrength)
    }

    /** AddStraightSegmentAbsolute: appends one lane-steered segment and moves `pos` along it. */
    method AddStraightSegmentAbsolute(e: Engine, pos: Vec3, dir: Vec3, dist: real) returns (newPos: Vec3)
      modifies this`drivePlan
      ensures drivePlan == old(drivePlan) + Straight(e, pos, dir, dist, laneOffset).segs
      ensures newPos == Straight(e, pos, dir, dist, laneOffset).end
    {
      var right := Cross(dir, Up);
      var finalDir := Normalized(e, Add(dir, Scale(right, laneOffset * 0.1)));
      drivePlan := drivePlan + [DriveSegment(pos, finalDir, dist)];
      newPos := Add(pos, Scale(finalDir, dist));
    }

    /**
     * AddCurvedSegmentAbsolute: `steps` equal sub-segments; each rotates the base direction,
     * steers sideways from it, and moves `pos` along the base direction only.
     */
    method AddCurvedSegmentAbsolute(e: Engine, pos: Vec3, fromDir: Vec3, signedAngle: real,
                                    totalDistance: real) returns (newPos: Vec3)
      modifies this`drivePlan
      ensures var t := PlanTuning();
              var c := Curve(e, pos, fromDir, signedAngle / t.steps as real,
                             totalDistance / t.steps as real, t.curveLateral, t.steps);
              drivePlan == old(drivePlan) + c.segs && newPos == c.end
    {
      var t := PlanTuning();
      var steps: nat := t.steps;
      var stepAngle := signedAngle / steps as real;
      var stepDistance := totalDistance / steps as real;
      var lateral := t.curveLateral;
      ghost var whole := Curve(e, pos, fromDir, stepAngle, stepDistance, lateral, steps);
      var baseDir := fromDir;
      newPos := pos;
      var i := 0;
      while i < steps
        invariant 0 <= i <= steps
        invariant old(drivePlan) + whole.segs ==
                  drivePlan + Curve(e, newPos, baseDir, stepAngle, stepDistance, lateral, steps - i).segs
        invariant whole.end == Curve(e, newPos, baseDir, stepAngle, stepDistance, lateral, steps - i).end
      {
        CurveStep(e, newPos, baseDir, stepAngle, stepDistance, lateral, steps - i);
        ghost var planBefore := drivePlan;
        ghost var here := Curve(e, newPos, baseDir, stepAngle, stepDistance, lateral, steps - i);
        baseDir := e.rotateUp(stepAngle, baseDir);
        var right := Cross(baseDir, Up);
        var steeringDir := Normalized(e, Add(baseDir, Scale(right, lateral)));
        var seg := DriveSegment(newPos, steeringDir, stepDistance);
        drivePlan := drivePlan + [seg];
        newPos := Add(newPos, Scale(baseDir, stepDistance));
        ghost var rest := Curve(e, newPos, baseDir, stepAngle, stepDistance, lateral, steps - i - 1);
        assert here.segs == [seg] + rest.segs && here.end == rest.end;
        assert drivePlan + rest.segs == planBefore + here.segs;
        i := i + 1;
      }
    }

    /**
     * BuildDrivePlan: clears the plan; for a path of at least two waypoints walks the pairs with
     * the position accumulator starting at the car, emitting a curve for a pair that turns by
     * more than 3 degrees from the previous one and a straight segment otherwise.
     */
    method BuildDrivePlan(e: Engine)
      modifies this`drivePlan
      ensures path.None? ==> drivePlan == []
      ensures path.Some? ==> drivePlan == Plan(e, path.value, position, PlanTuning())
    {
      drivePlan := [];
      if path.None? || |path.value| < 2 {
        return;
      }
      var p := path.value;
      var pos := position;
      ghost var t := PlanTuning();
      var i := 0;
      while i < |p| - 1
        invariant 0 <= i <= |p| - 1
        invariant drivePlan + PlanFrom(e, p, i, pos, t).segs == PlanFrom(e, p, 0, position, t).segs
      {
        var a := p[i];
        var b := p[i + 1];
        var dir := Normalized(e, Sub(b, a));
        var totalDist := Distance(e, a, b);
        ghost var piece := PairPiece(e, p, i, pos, t);
        ghost var rest := PlanFrom(e, p, i + 1, piece.end, t);
        ghost var before := drivePlan;
        assert before + PlanFrom(e, p, i, pos, t).segs == (before + piece.segs) + rest.segs;
        if i > 0 {
          var prevDir := Normalized(e, Sub(a, p[i - 1]));
          var signedAngle := SignedTurnAngle(e, prevDir, dir);
          var absAngle := Abs(signedAngle);
          if absAngle > TurnThreshold {
            pos := AddCurvedSegmentAbsolute(e, pos, prevDir, signedAngle, totalDist);
            i := i + 1;
            continue;
          }
        }
        pos := AddStraightSegmentAbsolute(e, pos, dir, totalDist);
        i := i + 1;
      }
      assert PlanFrom(e, p, i, pos, t).segs == [];
      assert drivePlan + [] == drivePlan;
    }

    /** Start: the path from the spline's waypoints (if any), then the drive plan from it. */
    method Start(e: Engine, waypoints: Option<seq<Vec3>>)
      modifies this`path, this`drivePlan
      ensures waypoints.Some? && |waypoints.value| > 0 ==> path == waypoints
      ensures !(waypoints.Some? && |waypoints.value| > 0) ==> path == old(path)
      ensures path.None? ==> drivePlan == []
      ensures path.Some? ==> drivePlan == Plan(e, path.value, position, PlanTuning())
    {
      BuildPath(waypoints);
      BuildDrivePlan(e);
    }

    /* ----- one physics tick ----- */

    /**
     * ApplyAvoidance: when the sphere cast ahead hits a car with surface normal n, turn away
     * along `Cross(up, n)` weighted by avoidStrength; otherwise keep the desired direction.
     */
    function ApplyAvoidance(e: Engine, desiredDir: Vec3, hitNormal: Option<Vec3>): (r: Vec3)
      reads this`avoidStrength
      ensures hitNormal.None? ==> r == desiredDir
    {
      match hitNormal
      case None => desiredDir
      case Some(n) => Normalized(e, Add(desiredDir, Scale(Cross(Up, n), avoidStrength)))
    }

    /** Avoidance only turns within the horizontal plane: a level direction stays level. */
    lemma AvoidanceKeepsLevel(e: Engine, desiredDir: Vec3, hitNormal: Option<Vec3>)
      requires NormalizedScales(e) && desiredDir.y == 0.0
      ensures ApplyAvoidance(e, desiredDir, hitNormal).y == 0.0
    {
      if hitNormal.Some? {
        var away := Scale(Cross(Up, hitNormal.value), avoidStrength);
        AvoidanceIsLevel(hitNormal.value, avoidStrength);
        NormalizedIsLevel(e, Add(desiredDir, away));
      }
    }

    /** SmoothSteer: rotate the current direction about up by the clamped, scaled signed angle. */
    function SmoothSteer(e: Engine, currentDir: Vec3, targetDir: Vec3, dt: real): Vec3
      reads this`maxSteerAngle, this`steeringResponsiveness
    {
      e.rotateUp(SteerAngle(e.signedAngle(currentDir, targetDir), maxSteerAngle, dt,
                            steeringResponsiveness), currentDir)
    }

    /** What UpdateSpeed sees of the player, when there is one. */
    function SightOf(e: Engine, playerPos: Vec3): (s: Option<Sighting>)
      reads this`hasPlayer, this`position, this`forward
      ensures s.Some? <==> hasPlayer
    {
      if hasPlayer then
        Some(Sighting(Distance(e, position, playerPos),
                      Dot(forward, Normalized(e, Sub(playerPos, position)))))
      else None
    }

    /** UpdateSpeed: tuned speed, perhaps the catch-up boost, then the clamp around baseSpeed. */
    method UpdateSpeed(e: Engine, playerPos: Vec3, catchDraw: real, dt: real)
      modifies this`currentSpeed
      ensures currentSpeed == SpeedFor(baseSpeed, speedMultiplier, personality, catchPlayerBias,
                                       catchUpBoost, SightOf(e, playerPos), catchDraw, dt)
    {
      currentSpeed := baseSpeed * speedMultiplier;
      ghost var base := currentSpeed;
      match personality {
        case Racer => currentSpeed := currentSpeed * 1.1;
        case Challenger => currentSpeed := currentSpeed * 1.05;
        case Drifter => currentSpeed := currentSpeed * 0.9;
      }
      assert currentSpeed == base * PersonalityFactor(personality);
      ghost var sight := SightOf(e, playerPos);
      if hasPlayer {
        var distanceToPlayer := Distance(e, position, playerPos);
        var toPlayer := Normalized(e, Sub(playerPos, position));
        var dot := Dot(forward, toPlayer);
        assert sight == Some(Sighting(distanceToPlayer, dot));
        if dot > 0.15 && distanceToPlayer < 40.0 {
          var catchChance := catchPlayerBias * InverseLerp(40.0, 10.0, distanceToPlayer);
          if catchDraw < catchChance * dt {
            currentSpeed := currentSpeed + catchUpBoost;
          }
        }
      }
      assert currentSpeed == UnclampedSpeed(baseSpeed, speedMultiplier, personality, catchPlayerBias,
                                            catchUpBoost, sight, catchDraw, dt);
      currentSpeed := Clamp(currentSpeed, baseSpeed * 0.8, baseSpeed * 1.6);
    }

    /** The direction the car heads: its velocity's when moving, its transform's otherwise. */
    function Heading(e: Engine): Vec3
      reads this`velocity, this`forward
    {
      if SqrMagnitude(velocity) > 0.1 then Normalized(e, velocity) else forward
    }

    /**
     * ExecuteDrivePlan: read the current segment (resetting an index past the end), steer the
     * velocity toward it, and count the distance travelled this tick; a completed segment moves
     * the cursor to the next one with the accumulator back at zero.
     */
    method ExecuteDrivePlan(e: Engine, avoidNormal: Option<Vec3>, dt: real)
      requires |drivePlan| > 0 && Valid() && MagnitudeNonnegative(e) && dt >= 0.0
      modifies this`driveIndex, this`drivenDistance, this`velocity
      ensures Valid()
      ensures var seg := drivePlan[ReadIndex(old(driveIndex), |drivePlan|)];
              velocity == old(SteeredVelocity(e, currentSpeed, seg.direction, avoidNormal, dt))
      ensures Cursor(driveIndex, drivenDistance) ==
              StepCursor(drivePlan, Cursor(old(driveIndex), old(drivenDistance)), Travel(e, velocity, dt))
    {
      ghost var start := Cursor(driveIndex, drivenDistance);
      if driveIndex >= |drivePlan| {
        driveIndex := 0;
      }
      ghost var read := Cursor(driveIndex, drivenDistance);
      assert read == Cursor(ReadIndex(start.index, |drivePlan|), start.driven);
      var seg := drivePlan[driveIndex];
      SteerToward(e, seg.direction, avoidNormal, dt);
      MulNonneg(Magnitude(e, velocity), dt);
      ReadIndexIdempotent(drivePlan, start, Travel(e, velocity, dt));
      CountTravel(e, seg.distance, dt);
    }

    /**
     * The velocity after one tick toward a segment direction: avoidance, the clamped steering
     * from the current heading, then `Vector3.Lerp` toward that direction at `speed`.
     */
    function SteeredVelocity(e: Engine, speed: real, segDir: Vec3, avoidNormal: Option<Vec3>, dt: real): Vec3
      reads this`velocity, this`forward, this`avoidStrength, this`maxSteerAngle, this`steeringResponsiveness
    {
      var smoothDir := SmoothSteer(e, Heading(e), ApplyAvoidance(e, segDir, avoidNormal), dt);
      LerpVec(velocity, Scale(smoothDir, speed), dt * 4.0)
    }

    /** ExecuteDrivePlan's velocity update toward the segment direction. */
    method SteerToward(e: Engine, segDir: Vec3, avoidNormal: Option<Vec3>, dt: real)
      modifies this`velocity
      ensures velocity == old(SteeredVelocity(e, currentSpeed, segDir, avoidNormal, dt))
    {
      var desiredDir := ApplyAvoidance(e, segDir, avoidNormal);
      var fwd := Heading(e);
      var smoothDir := SmoothSteer(e, fwd, desiredDir, dt);
      var desiredVelocity := Scale(smoothDir, currentSpeed);
      velocity := LerpVec(velocity, desiredVelocity, dt * 4.0);
    }

    /**
     * ExecuteDrivePlan's accumulator update, on an index already within the plan: the distance
     * the current velocity covers in dt.
     */
    method CountTravel(e: Engine, segDistance: real, dt: real)
      requires driveIndex < |drivePlan| && segDistance == drivePlan[driveIndex].distance
      modifies this`driveIndex, this`drivenDistance
      ensures Cursor(driveIndex, drivenDistance) ==
              StepCursor(drivePlan, Cursor(old(driveIndex), old(drivenDistance)), Travel(e, velocity, dt))
    {
      drivenDistance := drivenDistance + Travel(e, velocity, dt);
      if drivenDistance >= segDistance {
        drivenDistance := 0.0;
        driveIndex := driveIndex + 1;
      }
    }

    /** StickToGround: on a ground hit, sit one unit above it and lose all vertical velocity. */
    method StickToGround(groundY: Option<real>)
      modifies this`position, this`velocity
      ensures groundY.None? ==> position == old(position) && velocity == old(velocity)
      ensures groundY.Some? ==> position == Vec3(old(position).x, groundY.value + 1.0, old(position).z)
      ensures groundY.Some? ==> velocity == Vec3(old(velocity).x, 0.0, old(velocity).z)
    {
      if groundY.Some? {
        position := Vec3(position.x, groundY.value + 1.0, position.z);
        velocity := Vec3(velocity.x, 0.0, velocity.z);
      }
    }

    /**
     * FixedUpdate: nothing at all unless the car is Racing with a non-empty plan; otherwise
     * `RacingTick`.
     */
    method FixedUpdate(e: Engine, tick: Tick)
      requires Valid() && MagnitudeNonnegative(e) && tick.dt >= 0.0
      modifies this`currentSpeed, this`driveIndex, this`drivenDistance, this`velocity, this`position
      ensures Valid()
      ensures old(currentState) != Racing || |drivePlan| == 0 ==> unchanged(this)
      ensures old(currentState) == Racing && |drivePlan| > 0 ==>
                currentSpeed == SpeedFor(baseSpeed, speedMultiplier, personality, catchPlayerBias,
                                         catchUpBoost, old(SightOf(e, tick.playerPos)), tick.catchDraw, tick.dt)
      ensures old(currentState) == Racing && |drivePlan| > 0 ==>
                var speed := currentSpeed;
                var seg := drivePlan[ReadIndex(old(driveIndex), |drivePlan|)];
                var steered := old(SteeredVelocity(e, speed, seg.direction, tick.avoidNormal, tick.dt));
                Cursor(driveIndex, drivenDistance) ==
                  StepCursor(drivePlan, Cursor(old(driveIndex), old(drivenDistance)), Travel(e, steered, tick.dt)) &&
                (tick.groundY.None? ==> velocity == steered && position == old(position)) &&
                (tick.groundY.Some? ==>
                   velocity == Vec3(steered.x, 0.0, steered.z) &&
                   position == Vec3(old(position).x, tick.groundY.value + 1.0, old(position).z))
    {
      if currentState != Racing {
        return;
      }
      if |drivePlan| == 0 {
        return;
      }
      RacingTick(e, tick);
    }

    /**
     * FixedUpdate of a Racing car with a plan: the speed update, one step along the plan at the
     * new speed -- the velocity steered toward the current segment, the cursor advanced by the
     * distance that velocity covers -- and the ground stick, which only then levels the velocity
     * and sets the height.
     */
    method RacingTick(e: Engine, tick: Tick)
      requires Valid() && MagnitudeNonnegative(e) && tick.dt >= 0.0 && |drivePlan| > 0
      modifies this`currentSpeed, this`driveIndex, this`drivenDistance, this`velocity, this`position
      ensures Valid()
      ensures currentSpeed == SpeedFor(baseSpeed, speedMultiplier, personality, catchPlayerBias,
                                       catchUpBoost, old(SightOf(e, tick.playerPos)), tick.catchDraw, tick.dt)
      ensures var seg := drivePlan[ReadIndex(old(driveIndex), |drivePlan|)];
              var speed := currentSpeed;
              var steered := old(SteeredVelocity(e, speed, seg.direction, tick.avoidNormal, tick.dt));
              Cursor(driveIndex, drivenDistance) ==
                StepCursor(drivePlan, Cursor(old(driveIndex), old(drivenDistance)), Travel(e, steered, tick.dt))
      ensures var seg := drivePlan[ReadIndex(old(driveIndex), |drivePlan|)];
              var speed := currentSpeed;
              var steered := old(SteeredVelocity(e, speed, seg.direction, tick.avoidNormal, tick.dt));
              (tick.groundY.None? ==> velocity == steered && position == old(position)) &&
              (tick.groundY.Some? ==>
                 velocity == Vec3(steered.x, 0.0, steered.z) &&
                 position == Vec3(old(position).x, tick.groundY.value + 1.0, old(position).z))
    {
      ghost var sight := SightOf(e, tick.playerPos);
      ghost var start := Cursor(driveIndex, drivenDistance);
      UpdateSpeed(e, tick.playerPos, tick.catchDraw, tick.dt);
      assert currentSpeed == SpeedFor(baseSpeed, speedMultiplier, personality, catchPlayerBias,
                                      catchUpBoost, sight, tick.catchDraw, tick.dt);
      assert Cursor(driveIndex, drivenDistance) == start;
      ghost var seg := drivePlan[ReadIndex(driveIndex, |drivePlan|)];
      ghost var speed := currentSpeed;
      ghost var steered := SteeredVelocity(e, speed, seg.direction, tick.avoidNormal, tick.dt);
      assert steered == old(SteeredVelocity(e, speed, seg.direction, tick.avoidNormal, tick.dt));
      ExecuteDrivePlan(e, tick.avoidNormal, tick.dt);
      ghost var travelled := Travel(e, velocity, tick.dt);
      ghost var cursor := Cursor(driveIndex, drivenDistance);
      assert cursor == StepCursor(drivePlan, start, travelled);
      assert velocity == steered;
      StickToGround(tick.groundY);
      assert Cursor(driveIndex, drivenDistance) == cursor;
      assert drivePlan[ReadIndex(old(driveIndex), |drivePlan|)] == seg && currentSpeed == speed;
      assert Cursor(old(driveIndex), old(drivenDistance)) == start;
      ghost var finalSpeed := currentSpeed;
      ghost var finalSeg := drivePlan[ReadIndex(old(driveIndex), |drivePlan|)];
      ghost var stated := old(SteeredVelocity(e, finalSpeed, finalSeg.direction, tick.avoidNormal, tick.dt));
      assert stated == steered;
    }

    /**
     * AdvancePath: on a non-empty path, move to the next waypoint (wrapping around) once the car
     * is within lookAheadDistance of the current one.
     */
    method AdvancePath(e: Engine)
      requires path.Some? && |path.value| > 0 ==> pathIndex < |path.value|
      modifies this`pathIndex
      ensures path.None? || |path.value| == 0 ==> pathIndex == old(pathIndex)
      ensures path.Some? && |path.value| > 0 ==>
                pathIndex < |path.value| &&
                pathIndex == if Distance(e, position, path.value[old(pathIndex)]) < lookAheadDistance
                             then (old(pathIndex) + 1) % |path.value| else old(pathIndex)
    {
      if path.None? || |path.value| == 0 {
        return;
      }
      if Distance(e, position, path.value[pathIndex]) < lookAheadDistance {
        pathIndex := (pathIndex + 1) % |path.value|;
      }
    }
  }
}
