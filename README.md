# Jet-Journey AI cars, verified

A Dafny model of the game logic of Jet-Journey, a Unity racing game in which the player races
99 AI cars to a finish line. The model covers these parts:

- **AICarController** (modules `AICars` and `DrivePlan`).
  - Each car draws a speed tier, a personality and a lane offset.
  - It turns the track's waypoints into a *drive plan*: a list of segments, each with a start
    position, a direction and a distance.
  - Every physics tick it follows that plan with an index and a distance accumulator.
  - A hard collision sends it into a Crashed state until a recovery scheduled 1.2 s later fires.
- **AICarPoolManager** (`Spawn`).
  - It builds a pool of inactive cars, then places each one ahead of the player.
  - Placement retries random candidates until one keeps its distance from every recorded
    position, and falls back to a fixed placement when all attempts fail.
  - A placed car pushes nearby cars sideways.
- **AICarSplineFollower** (`Spline`): a wrap-around waypoint cursor.
- **AICarLOD** (`LevelOfDetail`): picks each car's movement mode from its squared distance to
  the player.
- **FinishLineManager** (`FinishLine`): a crossing counter with a finish latch and two UI texts.
- **PlayerCarController** (`PlayerCar`): target-speed selection, the torque clamp and the
  per-axle wheel writes.
- **GroundCheck** (`Explosion`): a one-shot explosion latch.

Components whose fields change in place are classes: the controller, the pool manager, the
spline follower, the LOD component, the finish line, the player car and the ground check. The
engine's numeric helpers are written out over `real` in `Unity`. These helpers are
`Mathf.Clamp`, `Lerp`, `InverseLerp`, `RoundToInt` and `Sign`, and `Random.Range` given
its unit draw.

Some engine operations need square roots or trigonometry: `magnitude`, `normalized`,
`Vector3.Angle`, `SignedAngle`, rotation about the up axis, and the right axis of a look
rotation. These are fields of an `Engine` value, so the model treats them as unknown
functions. A lemma that needs more about them assumes only what `MagnitudeIsLength`
(magnitude is the non-negative square root of the squared length) and `NormalizedScales`
(`normalized` divides by the magnitude, or gives zero below 1e-5) state.

Inputs the engine supplies become parameters:

- `Random.value` draws, and the unit draw behind each `Random.Range`;
- physics-query results: the sphere-cast normal, the ground ray-cast height, the `OverlapBox`
  hits given as pool indices, and the `OverlapSphere` colliders;
- the fixed delta time, the clock, and input axes;
- `Mathf.SmoothDamp`, passed as a function.

`Invoke(Recover, 1.2)` is an explicit list of scheduled fire times. `FireDue` runs the ones
that are due.

Three behaviours of the code worth noting:

- SpawnCar records the position *after* the micro offsets are applied, not the candidate that
  passed the separation check. Two recorded cars can therefore end up slightly closer than
  `minSpawnDistance`.
- A straight drive segment advances the position accumulator along its own lane-offset
  direction. Only curved sub-segments advance along the un-offset base direction.
- `turnSmoothness` and `turnStrength` are never assigned, so at run time every curve has two
  sub-segments and no lateral steering. The model keeps the general formulas and proves these
  defaults as special cases (`CurveSteps`, `CurveWithoutStrength`).

## Model

| member | source | states |
|---|---|---|
| DrivePlan.SignedTurnAngle | Jet-Journey/Assets/Scipts/99Cars/AICarController.cs:464-469 | the unsigned angle, negated exactly when the cross product's y is negative (a zero y counts as positive) |
| DrivePlan.CurveSteps | Jet-Journey/Assets/Scipts/99Cars/AICarController.cs:339 | a curve has at least two sub-segments, exactly two whenever turnSmoothness < 2.5 (the unassigned default 0 included), and otherwise the nearest integer: within 0.5 of turnSmoothness |
| DrivePlan.TuningOf | Jet-Journey/Assets/Scipts/99Cars/AICarController.cs:339-353 | the plan keeps the lane offset; curves use exactly CurveSteps(turnSmoothness) sub-segments, at least turnSmoothness - 0.5 of them; the lateral steering is laneOffset * turnStrength * 0.1, zero when turnStrength is zero |
| DrivePlan.Curve | Jet-Journey/Assets/Scipts/99Cars/AICarController.cs:345-363 | a curve of k steps emits exactly k sub-segments and k advance directions |
| DrivePlan.CurveStep | Jet-Journey/Assets/Scipts/99Cars/AICarController.cs:345-363 | a curve is its first sub-segment (start pos, steering of the rotated base direction, step distance) followed by the rest of the curve from where pos lands |
| DrivePlan.PlanCount | Jet-Journey/Assets/Scipts/99Cars/AICarController.cs:292-315 | every waypoint pair contributes one segment, or the curve's step count when it turns |
| DrivePlan.FirstPairIsStraight | Jet-Journey/Assets/Scipts/99Cars/AICarController.cs:292-315 | pair 0 never turns: the plan's first segment is one straight segment from the car's position |
| DrivePlan.CurveDistance | Jet-Journey/Assets/Scipts/99Cars/AICarController.cs:340-362 | k sub-segments of stepDistance add up to k times stepDistance |
| DrivePlan.CurvedPieceDistance | Jet-Journey/Assets/Scipts/99Cars/AICarController.cs:339-362 | the sub-segments of a curve add up to the distance between its two waypoints |
| DrivePlan.PlanDistance | Jet-Journey/Assets/Scipts/99Cars/AICarController.cs:292-315 | the segment distances of the whole plan add up to the length of the waypoint polyline |
| DrivePlan.StraightChained | Jet-Journey/Assets/Scipts/99Cars/AICarController.cs:317-331 | a straight piece is an accumulator chain: pos moves by its direction times its distance |
| DrivePlan.CurveChained | Jet-Journey/Assets/Scipts/99Cars/AICarController.cs:345-363 | a curve is an accumulator chain: each sub-segment starts where the previous start plus the rotated base direction times the step distance lands |
| DrivePlan.PairChained | Jet-Journey/Assets/Scipts/99Cars/AICarController.cs:300-314 | whatever branch a pair takes, its piece is an accumulator chain from the current pos |
| DrivePlan.PlanChained | Jet-Journey/Assets/Scipts/99Cars/AICarController.cs:290-315 | the whole plan is one accumulator chain starting at the car's position |
| DrivePlan.SegmentsAreJoined | Jet-Journey/Assets/Scipts/99Cars/AICarController.cs:290-363 | each segment's startPos is the previous startPos plus the advance direction times its distance: the segment direction on straights, the base direction (not the steering direction) on curves |
| DrivePlan.StraightAdvancesAlongItsDirection | Jet-Journey/Assets/Scipts/99Cars/AICarController.cs:320-330 | a straight segment advances pos along its own lane-offset direction |
| DrivePlan.CurveTrackIgnoresLateral | Jet-Journey/Assets/Scipts/99Cars/AICarController.cs:345-363 | on a curve the lateral steering changes only the segment directions, never the start positions, distances, advance directions or end |
| DrivePlan.CurveWithoutStrength | Jet-Journey/Assets/Scipts/99Cars/AICarController.cs:50-51 | with turnStrength at its default zero, each curved sub-segment steers along the normalized base direction |
| DrivePlan.StraightLandsOnNext | Jet-Journey/Assets/Scipts/99Cars/AICarController.cs:297-330 | with no lane offset, a straight segment from a toward b with length \|b - a\| ends exactly on b |
| DrivePlan.StraightPlanRetracesPath | Jet-Journey/Assets/Scipts/99Cars/AICarController.cs:283-330 | on a path without turns and with no lane offset, started on the first waypoint, segment j starts on waypoint j with the pair's length, and the plan ends on the last waypoint |
| AICars.PersonalityFor | Jet-Journey/Assets/Scipts/99Cars/AICarController.cs:205-236 | r < 0.35 gives Racer, 0.35 <= r < 0.6 Challenger, otherwise Drifter (each direction of each case) |
| AICars.HandlingOf | Jet-Journey/Assets/Scipts/99Cars/AICarController.cs:205-236 | Racer (7, 9, 35), Challenger (6, 7, 40), Drifter (4, 4, 55) as (turnSpeed, responsiveness, maxSteerAngle) |
| AICars.LaneHalfWidth | Jet-Journey/Assets/Scipts/99Cars/AICarController.cs:188-204 | the lane half-width is 0.5, 1 or 2 for Racer, Challenger, Drifter |
| AICars.LaneOffsetFor | Jet-Journey/Assets/Scipts/99Cars/AICarController.cs:188-204 | the drawn lane offset lies in [-w, w] for the personality's half-width w, hence within 2 |
| AICars.TierFor | Jet-Journey/Assets/Scipts/99Cars/AICarController.cs:237-272 | r < 0.25 Slow, < 0.6 Normal, < 0.85 Fast, else Elite (each direction of each case) |
| AICars.MultiplierRange | Jet-Journey/Assets/Scipts/99Cars/AICarController.cs:237-272 | every tier's multiplier interval is non-empty and within [0.85, 1.3] |
| AICars.MultiplierFor | Jet-Journey/Assets/Scipts/99Cars/AICarController.cs:237-272 | the drawn speed multiplier lies in its tier's interval |
| AICars.CatchBias | Jet-Journey/Assets/Scipts/99Cars/AICarController.cs:237-272 | catchPlayerBias is in (0, 1] and is 1 exactly for Elite |
| AICars.TiersAreOrdered | Jet-Journey/Assets/Scipts/99Cars/AICarController.cs:237-272 | across different tiers, a larger tier draw never gives a smaller multiplier and always gives a larger catch bias |
| AICars.PersonalityFactor | Jet-Journey/Assets/Scipts/99Cars/AICarController.cs:413-426 | the personality factor lies in [0.9, 1.1] |
| AICars.SpeedFor | Jet-Journey/Assets/Scipts/99Cars/AICarController.cs:409-453 | for baseSpeed >= 0 the new speed lies in [0.8 baseSpeed, 1.6 baseSpeed]; it is the unclamped speed (tuned speed, plus the catch-up boost once when it fires) whenever that lies in the interval, and the nearer bound when it falls below or above |
| AICars.BoostAtMostOnce | Jet-Journey/Assets/Scipts/99Cars/AICarController.cs:428-446 | the unclamped speed is the tuned speed or the tuned speed plus catchUpBoost, never more |
| AICars.BoostNeedsPlayerAheadAndNear | Jet-Journey/Assets/Scipts/99Cars/AICarController.cs:428-446 | with no player, a player behind (dot <= 0.15) or 40 or more units away, no boost is added |
| AICars.CloseChaseUsesFullBias | Jet-Journey/Assets/Scipts/99Cars/AICarController.cs:433-441 | within 10 units ahead the boost chance is the full bias times dt |
| AICars.ZeroChanceNeverBoosts | Jet-Journey/Assets/Scipts/99Cars/AICarController.cs:437-441 | a zero bias or zero dt never grants the boost to a non-negative draw |
| AICars.SteerAngle | Jet-Journey/Assets/Scipts/99Cars/AICarController.cs:389-406 | the steering rotation is the signed angle times dt times responsiveness while the angle lies within [-maxSteerAngle, maxSteerAngle], and maxSteerAngle or -maxSteerAngle times the same gain when it lies above or below; so its magnitude never exceeds maxSteerAngle * dt * responsiveness |
| AICars.AvoidanceIsLevel | Jet-Journey/Assets/Scipts/99Cars/AICarController.cs:94 | the avoidance turn Cross(up, normal) has no vertical component |
| AICars.ReadIndex | Jet-Journey/Assets/Scipts/99Cars/AICarController.cs:145-148 | an index past the end is reset to 0, so the segment read is always in range |
| AICars.StepCursor | Jet-Journey/Assets/Scipts/99Cars/AICarController.cs:178-186 | reaching the segment's distance resets the accumulator to 0 and moves the index by exactly 1; otherwise the index stays and the accumulator adds the travel |
| AICars.CursorFollowsPlanCyclically | Jet-Journey/Assets/Scipts/99Cars/AICarController.cs:143-186 | the next segment read is the following one (wrapping) exactly when the current one completes; otherwise the same one with a non-decreasing accumulator |
| AICars.ReadIndexIdempotent | Jet-Journey/Assets/Scipts/99Cars/AICarController.cs:145-148 | stepping from the reset index equals stepping from the stored index |
| AICars.CursorStaysBounded | Jet-Journey/Assets/Scipts/99Cars/AICarController.cs:178-186 | the index never exceeds the plan length and the accumulator stays non-negative |
| AICars.AfterCollision | Jet-Journey/Assets/Scipts/99Cars/AICarController.cs:100-107 | a relative speed strictly above 4 crashes the car; 4 or less leaves the state unchanged |
| AICars.Waiting | Jet-Journey/Assets/Scipts/99Cars/AICarController.cs:100-112 | the schedule after FireDue holds exactly the fire times later than now, and never grows |
| AICars.ScheduleStep | Jet-Journey/Assets/Scipts/99Cars/AICarController.cs:100-112 | one more scheduled time stays in the schedule exactly when it is later than now, and makes a recovery due exactly when it is not |
| AICars.DroppedIffDue | Jet-Journey/Assets/Scipts/99Cars/AICarController.cs:105 | a scheduled recovery leaves the schedule exactly when some recovery is due |
| AICars.NothingDueKeepsAll | Jet-Journey/Assets/Scipts/99Cars/AICarController.cs:105 | when nothing is due the whole schedule keeps waiting |
| AICars.EarlierRecoveryEndsLaterCrash | Jet-Journey/Assets/Scipts/99Cars/AICarController.cs:100-112 | whenever one scheduled recovery is due while a later one is not, the due one runs (so the car is set Racing) and the later one stays scheduled |
| AICars.AICarController.constructor | Jet-Journey/Assets/Scipts/99Cars/AICarController.cs:20-61 | the inspector defaults (baseSpeed 12, catchUpBoost 4, avoidStrength 2, turnSpeed 6, maxSteerAngle 45, responsiveness 8, lookAheadDistance 6), Racing, empty plan, turnSmoothness and turnStrength 0 |
| AICars.AICarController.OnCollisionEnter | Jet-Journey/Assets/Scipts/99Cars/AICarController.cs:100-107 | the state becomes AfterCollision of the old state, and a recovery is scheduled 1.2 s later exactly on a crash; Recovering is never entered |
| AICars.AICarController.Recover | Jet-Journey/Assets/Scipts/99Cars/AICarController.cs:109-112 | the state becomes Racing unconditionally |
| AICars.AICarController.FireDue | Jet-Journey/Assets/Scipts/99Cars/AICarController.cs:105-112 | the due recoveries run and leave the schedule in order; the state is Racing exactly when one was due |
| AICars.AICarController.AssignPersonality | Jet-Journey/Assets/Scipts/99Cars/AICarController.cs:205-236 | the personality is PersonalityFor(r) and the handling fields are its tuple |
| AICars.AICarController.AssignSpeedTier | Jet-Journey/Assets/Scipts/99Cars/AICarController.cs:237-272 | the tier is TierFor(r), the multiplier is drawn from its range, the bias is its bias |
| AICars.AICarController.AssignLaneOffset | Jet-Journey/Assets/Scipts/99Cars/AICarController.cs:188-204 | the lane offset is drawn from the current personality's lane |
| AICars.AICarController.Awake | Jet-Journey/Assets/Scipts/99Cars/AICarController.cs:113-123 | tier, then personality, then lane offset from the new personality, then the player lookup |
| AICars.AICarController.BuildPath | Jet-Journey/Assets/Scipts/99Cars/AICarController.cs:274-282 | a missing or empty spline leaves the path alone; otherwise the path is the waypoint positions |
| AICars.AICarController.PlanTuning | Jet-Journey/Assets/Scipts/99Cars/AICarController.cs:339-353 | the plan's tuning keeps the controller's lane offset |
| AICars.AICarController.AddStraightSegmentAbsolute | Jet-Journey/Assets/Scipts/99Cars/AICarController.cs:317-332 | appends exactly the straight piece's segment and returns its end |
| AICars.AICarController.AddCurvedSegmentAbsolute | Jet-Journey/Assets/Scipts/99Cars/AICarController.cs:333-365 | appends exactly the curve's steps sub-segments and returns where pos ends |
| AICars.AICarController.BuildDrivePlan | Jet-Journey/Assets/Scipts/99Cars/AICarController.cs:283-316 | the plan is cleared, and is then the specification Plan of the path from the car's position (empty below two waypoints) |
| AICars.AICarController.Start | Jet-Journey/Assets/Scipts/99Cars/AICarController.cs:124-130 | BuildPath, then BuildDrivePlan |
| AICars.AICarController.ApplyAvoidance | Jet-Journey/Assets/Scipts/99Cars/AICarController.cs:79-99 | without a hit the desired direction is kept |
| AICars.AICarController.AvoidanceKeepsLevel | Jet-Journey/Assets/Scipts/99Cars/AICarController.cs:79-99 | avoidance keeps a level direction level |
| AICars.AICarController.SightOf | Jet-Journey/Assets/Scipts/99Cars/AICarController.cs:428-433 | the player is seen exactly when one was found |
| AICars.AICarController.UpdateSpeed | Jet-Journey/Assets/Scipts/99Cars/AICarController.cs:409-453 | the new speed is SpeedFor of the tier, personality, bias, boost and this tick's draw |
| AICars.AICarController.ExecuteDrivePlan | Jet-Journey/Assets/Scipts/99Cars/AICarController.cs:143-187 | the velocity steers toward the segment read at the reset index, and the cursor takes one StepCursor step by the distance travelled this tick |
| AICars.AICarController.SteerToward | Jet-Journey/Assets/Scipts/99Cars/AICarController.cs:150-167 | the velocity is lerped toward the clamped-steered desired direction at currentSpeed |
| AICars.AICarController.CountTravel | Jet-Journey/Assets/Scipts/99Cars/AICarController.cs:180-186 | the accumulator gains the distance the current velocity covers in dt, and reaching the segment length resets it to zero and moves to the next segment: exactly one StepCursor step |
| AICars.AICarController.StickToGround | Jet-Journey/Assets/Scipts/99Cars/AICarController.cs:506-534 | on a ground hit the car sits 1 unit above it with no vertical velocity; otherwise nothing changes |
| AICars.AICarController.FixedUpdate | Jet-Journey/Assets/Scipts/99Cars/AICarController.cs:132-141 | nothing changes unless the car is Racing with a non-empty plan; otherwise the speed is SpeedFor, the velocity is steered toward the current segment at that new speed, the cursor takes exactly one StepCursor step by the distance that velocity covers, and a ground hit then sets the height one above the ground and zeroes the vertical velocity, while no hit leaves position and velocity as steered |
| AICars.AICarController.RacingTick | Jet-Journey/Assets/Scipts/99Cars/AICarController.cs:137-140 | for a Racing car with a plan: the speed becomes SpeedFor; the velocity is steered toward the segment at the old cursor at that new speed; the cursor takes one StepCursor step by the distance the steered velocity covers; the ground stick then levels the velocity and sets the height on a hit |
| AICars.AICarController.AdvancePath | Jet-Journey/Assets/Scipts/99Cars/AICarController.cs:455-463 | on a non-empty path the index moves to the next waypoint (wrapping) exactly when the car is within lookAheadDistance, and stays in range |
| Spawn.Repeat | Jet-Journey/Assets/Scipts/99Cars/Spawn/AICarPoolManager.cs:57-65 | n copies of the car |
| Spawn.PushAllFrame | Jet-Journey/Assets/Scipts/99Cars/Spawn/AICarPoolManager.cs:144-167 | the push never moves the spawned car, never changes any rotation or active flag, and leaves cars the overlap did not report where they were |
| Spawn.PushedOnce | Jet-Journey/Assets/Scipts/99Cars/Spawn/AICarPoolManager.cs:153-165 | a neighbour reported once moves once, by the push offset computed from where it and the spawned car stood |
| Spawn.PushIsLevelAndFixedLength | Jet-Journey/Assets/Scipts/99Cars/Spawn/AICarPoolManager.cs:159-165 | outside the degenerate case the push has zero y and length pushStrength |
| Spawn.FirstClear | Jet-Journey/Assets/Scipts/99Cars/Spawn/AICarPoolManager.cs:84-89 | the accepted attempt, if any, is one of the tried attempts |
| Spawn.FirstClearIsFirst | Jet-Journey/Assets/Scipts/99Cars/Spawn/AICarPoolManager.cs:84-89 | the accepted attempt's candidate is clear of every recorded position, and every earlier attempt's is not; with none accepted, no attempt was clear |
| Spawn.RecordedIgnoresPushes | Jet-Journey/Assets/Scipts/99Cars/Spawn/AICarPoolManager.cs:69-120 | the positions SpawnAllCars records are Recorded of the draws alone: where cars stand and how they are pushed never changes them |
| Spawn.SpawnAllActivates | Jet-Journey/Assets/Scipts/99Cars/Spawn/AICarPoolManager.cs:69-120 | after spawning the first n cars, a car is active exactly when it is one of them or was already active |
| Spawn.RecordedPrefix | Jet-Journey/Assets/Scipts/99Cars/Spawn/AICarPoolManager.cs:69-77 | spawning more cars only appends to the record |
| Spawn.RecordedCountsPlaced | Jet-Journey/Assets/Scipts/99Cars/Spawn/AICarPoolManager.cs:84-120 | fallback placements are never recorded: the record has exactly one entry per car that found a clear attempt (Placed) |
| Spawn.AcceptedIsSeparated | Jet-Journey/Assets/Scipts/99Cars/Spawn/AICarPoolManager.cs:84-98 | a car placed by an attempt had a candidate at least minSpawnDistance from every position recorded before it, and its post-offset form is the next entry of the record; a car that falls back had no clear attempt and leaves the record unchanged |
| Spawn.AICarPoolManager.constructor | Jet-Journey/Assets/Scipts/99Cars/Spawn/AICarPoolManager.cs:9-32 | the inspector defaults (99 cars, 20..220 ahead, 8 sideways, 3.5 apart, 25 attempts, offsets ±0.15 and ±0.3, push 1.2) |
| Spawn.AICarPoolManager.Start | Jet-Journey/Assets/Scipts/99Cars/Spawn/AICarPoolManager.cs:42-55 | without a player the component disables itself and creates no pool; otherwise the pool is poolSize inactive prefab copies, each then spawned once by SpawnCar in order (SpawnAll), the record is Recorded of the draws with one entry per car that did not fall back (Placed), and every car ends active |
| Spawn.AICarPoolManager.CreatePool | Jet-Journey/Assets/Scipts/99Cars/Spawn/AICarPoolManager.cs:57-65 | exactly poolSize inactive copies of the prefab are added (none for a non-positive size) |
| Spawn.AICarPoolManager.SpawnAllCars | Jet-Journey/Assets/Scipts/99Cars/Spawn/AICarPoolManager.cs:69-77 | the record starts empty and car i is spawned by SpawnStep with its own draws, in pool order (SpawnAll); the record equals Recorded, which depends on the player frame, settings and draws only, and its length is the number of cars that did not fall back (Placed); every car ends active |
| Spawn.AICarPoolManager.GetRandomSpawnPosition | Jet-Journey/Assets/Scipts/99Cars/Spawn/AICarPoolManager.cs:122-130 | the candidate for the two draws, in the player's frame |
| Spawn.AICarPoolManager.IsPositionValid | Jet-Journey/Assets/Scipts/99Cars/Spawn/AICarPoolManager.cs:132-140 | true exactly when every recorded position is at least minSpawnDistance away (strictly closer is rejected) |
| Spawn.AICarPoolManager.SpawnCar | Jet-Journey/Assets/Scipts/99Cars/Spawn/AICarPoolManager.cs:79-120 | the record and pool become SpawnStep of the old ones: with the first clear attempt the post-offset position is recorded, the car placed there active and the neighbours pushed; with none the car is placed active at the fallback and nothing is recorded; previously active cars stay active |
| Spawn.AICarPoolManager.FindSpawnPosition | Jet-Journey/Assets/Scipts/99Cars/Spawn/AICarPoolManager.cs:84-89 | the retry loop finds exactly FirstClear over the first maxSpawnAttempts draws, with that candidate's position |
| Spawn.AICarPoolManager.PlaceSpawned | Jet-Journey/Assets/Scipts/99Cars/Spawn/AICarPoolManager.cs:91-103 | the offsets, the pose, the record, the activation and the push, and no active car is deactivated |
| Spawn.AICarPoolManager.PlaceFallback | Jet-Journey/Assets/Scipts/99Cars/Spawn/AICarPoolManager.cs:108-119 | forwardMax ahead with a random side offset, active, not recorded; nothing else in the pool changes |
| Spawn.AICarPoolManager.ResolveSpawnOverlap | Jet-Journey/Assets/Scipts/99Cars/Spawn/AICarPoolManager.cs:144-167 | the pool becomes PushAll of the hits in order, the spawned car skipped |
| Spline.Next | Jet-Journey/Assets/Scipts/99Cars/AICarSplineFollower.cs:28-32 | no-op with no waypoints; otherwise stays in [0, Length) and wraps Length-1 to 0 |
| Spline.AdvanceSplits | Jet-Journey/Assets/Scipts/99Cars/AICarSplineFollower.cs:31 | a + b advances are a advances followed by b |
| Spline.AdvanceClimbs | Jet-Journey/Assets/Scipts/99Cars/AICarSplineFollower.cs:31 | short of the end, k advances move the cursor k places |
| Spline.FullLapReturns | Jet-Journey/Assets/Scipts/99Cars/AICarSplineFollower.cs:31 | Length consecutive advances return the cursor to where it started |
| Spline.EmptyNeverAdvances | Jet-Journey/Assets/Scipts/99Cars/AICarSplineFollower.cs:30 | with no waypoints the cursor never moves |
| Spline.AICarSplineFollower.constructor | Jet-Journey/Assets/Scipts/99Cars/AICarSplineFollower.cs:7-9 | the cursor starts at 0 |
| Spline.AICarSplineFollower.GetForwardDirection | Jet-Journey/Assets/Scipts/99Cars/AICarSplineFollower.cs:16-20 | Vector3.forward with no waypoints, otherwise the current waypoint's forward axis |
| Spline.AICarSplineFollower.GetCurrentWaypointPosition | Jet-Journey/Assets/Scipts/99Cars/AICarSplineFollower.cs:22-26 | the follower's own position with no waypoints, otherwise the current waypoint's |
| Spline.AICarSplineFollower.AdvanceWaypoint | Jet-Journey/Assets/Scipts/99Cars/AICarSplineFollower.cs:28-32 | the cursor takes one Next step and stays valid |
| Spline.AICarSplineFollower.SnapToSpline | Jet-Journey/Assets/Scipts/99Cars/AICarSplineFollower.cs:34-40 | with waypoints, the car takes the current waypoint's position and heading; with none it is untouched; the cursor never changes |
| LevelOfDetail.Classify | Jet-Journey/Assets/Scipts/99Cars/AICarLOD.cs:30-37 | FullPhysics exactly below fullDist², Simple exactly from fullDist² to below simpleDist², Fake otherwise |
| LevelOfDetail.FurtherIsNeverMoreDetailed | Jet-Journey/Assets/Scipts/99Cars/AICarLOD.cs:32-37 | with ordered thresholds a larger distance never gives a more detailed mode |
| LevelOfDetail.SquaresCompare | Jet-Journey/Assets/Scipts/99Cars/AICarLOD.cs:22-23 | for non-negative values, comparing squares agrees with comparing the values |
| LevelOfDetail.ClassifyByDistance | Jet-Journey/Assets/Scipts/99Cars/AICarLOD.cs:22-37 | read in distances: closer than fullDist is FullPhysics, closer than simpleDist is Simple, otherwise Fake |
| LevelOfDetail.BoundaryIsSimple | Jet-Journey/Assets/Scipts/99Cars/AICarLOD.cs:32-35 | a car exactly fullDist away gets Simple |
| LevelOfDetail.AICarLOD.constructor | Jet-Journey/Assets/Scipts/99Cars/AICarLOD.cs:6-9 | fullDist 40, simpleDist 120 |
| LevelOfDetail.AICarLOD.Awake | Jet-Journey/Assets/Scipts/99Cars/AICarLOD.cs:17-24 | the squared thresholds are the squares of the distances |
| LevelOfDetail.AICarLOD.Update | Jet-Journey/Assets/Scipts/99Cars/AICarLOD.cs:26-38 | with no player the mode is unchanged; otherwise it is Classify of the squared distance; currentLOD is never written |
| FinishLine.NatToString | Jet-Journey/Assets/Scipts/Ui/FinishLineManager.cs:54 | the rendering is a non-empty digit string without a leading zero |
| FinishLine.NatToStringRoundTrip | Jet-Journey/Assets/Scipts/Ui/FinishLineManager.cs:54 | a natural's rendering reads back as itself |
| FinishLine.IntToStringRoundTrip | Jet-Journey/Assets/Scipts/Ui/FinishLineManager.cs:54-59 | an int's rendering reads back as itself |
| FinishLine.CrossedTextShowsCount | Jet-Journey/Assets/Scipts/Ui/FinishLineManager.cs:51-55 | the counter text "Crossed: {count} / {totalCars}" determines the count |
| FinishLine.ResultTextShowsPosition | Jet-Journey/Assets/Scipts/Ui/FinishLineManager.cs:57-65 | the result text "You Finished: {p} / {totalCars}" determines the position |
| FinishLine.FinishLineManager.constructor | Jet-Journey/Assets/Scipts/Ui/FinishLineManager.cs:8-16 | totalCars 100, count 0, race not finished |
| FinishLine.FinishLineManager.Start | Jet-Journey/Assets/Scipts/Ui/FinishLineManager.cs:17-24 | the counter text shows 0 crossings and the result text is blank, where the texts are assigned |
| FinishLine.FinishLineManager.OnTriggerEnter | Jet-Journey/Assets/Scipts/Ui/FinishLineManager.cs:26-47 | once finished nothing changes; a CarBody or CarBodyPlayer adds exactly one and refreshes the counter text; any other tag adds nothing; the player's body latches the finish and shows its position, the count after its own crossing (so at least 1) |
| FinishLine.FinishLineManager.UpdateCrossedUI | Jet-Journey/Assets/Scipts/Ui/FinishLineManager.cs:51-55 | the counter text shows the current count when assigned |
| FinishLine.FinishLineManager.ShowPlayerResult | Jet-Journey/Assets/Scipts/Ui/FinishLineManager.cs:57-65 | the result text shows the position when assigned |
| FinishLine.PlayerPositionIsCarsAhead | Jet-Journey/Assets/Scipts/Ui/FinishLineManager.cs:26-47 | over a race, the player's reported position is the number of car bodies up to and including the player, and it is at least 1 |
| FinishLine.RunCounts | Jet-Journey/Assets/Scipts/Ui/FinishLineManager.cs:26-47 | the count after a run of crossings up to the player's, from any starting count |
| PlayerCar.TargetSpeed | Jet-Journey/Assets/Scipts/PlayerScipts/PlayerCarController.cs:80-109 | within [cruiseSpeed, maxSpeed] when ordered; at most cruiseSpeed plus one raceBoost; cruiseSpeed when nothing presses or the boost is negative; cruiseSpeed + raceBoost when pressed and it fits, maxSpeed when pressed and it does not |
| PlayerCar.MotorTorque | Jet-Journey/Assets/Scipts/PlayerScipts/PlayerCarController.cs:122-124 | the torque lies in [0, motorPower]; zero when the car is at or above the smoothed target; speedError times motorPower while that lies in [0, motorPower]; the full motorPower for a speed error of 1 or more |
| PlayerCar.CenteringNarrows | Jet-Journey/Assets/Scipts/PlayerScipts/PlayerCarController.cs:157-165 | auto-centering never widens the steer angle nor flips its side |
| PlayerCar.SteerTargetBounded | Jet-Journey/Assets/Scipts/PlayerScipts/PlayerCarController.cs:144-148 | the speed factor lies between highSpeedSteerFactor and 1, so the steering target never exceeds the input times maxSteerAngle |
| PlayerCar.HardClampCapsSpeed | Jet-Journey/Assets/Scipts/PlayerScipts/PlayerCarController.cs:135-137 | the hard clamp leaves a velocity of length exactly maxSpeed |
| PlayerCar.PlayerCarController.constructor | Jet-Journey/Assets/Scipts/PlayerScipts/PlayerCarController.cs:16-41 | the inspector defaults (cruise 12, boost 1.8, max 16, power 1500, steer 30, return 6, high-speed factor 0.6) |
| PlayerCar.PlayerCarController.Update | Jet-Journey/Assets/Scipts/PlayerScipts/PlayerCarController.cs:63-67 | the turn input is the horizontal axis |
| PlayerCar.PlayerCarController.FixedUpdate | Jet-Journey/Assets/Scipts/PlayerScipts/PlayerCarController.cs:71-76 | the target speed is TargetSpeed; the smoothed target eases toward it; the velocity is capped at maxSpeed; the steer angle is damped toward the target computed from the capped speed; rear wheels take the motor torque for the new smoothed target and no brake, front wheels the new angle |
| PlayerCar.PlayerCarController.UpdateTargetSpeed | Jet-Journey/Assets/Scipts/PlayerScipts/PlayerCarController.cs:80-109 | the target speed is TargetSpeed of whether some AICar-tagged collider has forwardDot > -0.2; the boost is added at most once |
| PlayerCar.PlayerCarController.ApplyMotor | Jet-Journey/Assets/Scipts/PlayerScipts/PlayerCarController.cs:111-138 | the smoothed target is Lerp(old, target, dt * 2.5), hence between them; only Rear wheels get the clamped torque and zero brake; an over-fast car is scaled back to maxSpeed |
| PlayerCar.PlayerCarController.SteerSmooth | Jet-Journey/Assets/Scipts/PlayerScipts/PlayerCarController.cs:142-172 | the angle is the damped target, eased toward zero with no input, and only Front wheels take it |
| PlayerCar.PlayerCarController.SteerFrontWheels | Jet-Journey/Assets/Scipts/PlayerScipts/PlayerCarController.cs:167-171 | only Front wheels' steerAngle is written |
| Explosion.ThresholdIsInclusive | Jet-Journey/Assets/Scipts/GroundCheck.cs:21 | an impact exactly at the threshold explodes, any smaller one does not |
| Explosion.GroundCheck.constructor | Jet-Journey/Assets/Scipts/GroundCheck.cs:6-10 | threshold 8, not exploded |
| Explosion.GroundCheck.OnCollisionEnter | Jet-Journey/Assets/Scipts/GroundCheck.cs:12-26 | once exploded nothing changes; otherwise the latch is set exactly by an AICar collision of impact at least the threshold |
| Explosion.GroundCheck.Explode | Jet-Journey/Assets/Scipts/GroundCheck.cs:27-41 | the latch is set, the effect and sound appear once each if assigned, and the object is destroyed |
| Explosion.LatchedIffSomeHit | Jet-Journey/Assets/Scipts/GroundCheck.cs:12-26 | over any run of collisions the car ends exploded exactly when one of them qualifies |

## Left out

- Rotations are not modelled: quaternions, `Slerp`, `MoveRotation`, ground-normal alignment in
  StickToGround, and the car's heading in ExecuteDrivePlan. A pooled car's rotation and a
  snapped car's rotation are kept as their forward axis.
- The `Engine` operations (magnitude, normalized, Angle, SignedAngle, AngleAxis rotation, the
  look rotation's right axis) are unknown functions. Nothing trigonometric is proved about them.
- Floating point is modelled as exact reals: no rounding, NaN or infinity.
- `AddCurvedTurn` and `GetDesiredDirection` are never called by the game and are not modelled.
- `GetPersonalityColor`, gizmo drawing, `WheelAnimation`, `Debug.Log` and `Time.timeScale`
  are rendering and engine settings, and are not modelled.
- UI `Text` objects are kept as a flag saying whether the reference is assigned, plus the
  string shown.
- `AudioManager` and `WaypointTurnData` are not part of this model.
- `Invoke` is modelled only as a list of fire times. `FireDue` runs the due ones in order.
- Cars are values identified by their pool index, so aliasing between `GameObject`s is not
  modelled.
- `OverlapBox` hits are given as pool indices. The fact that inactive cars are never reported
  is not enforced.
- Spawn.AICarPoolManager.Start: the draws and hits for every car are assumed to be supplied
  (enough of them, all unit draws, all hit indices inside the pool).
- Wheel colliders are values in a sequence of the player car, not shared engine objects.
- PlayerCar.PlayerCarController.SteerSmooth: requires maxSpeed to be non-zero. With zero the
  source divides by zero in floating point, which is not modelled.
- PlayerCar.PlayerCarController.SteerSmooth: `Mathf.SmoothDamp` is a function parameter, and
  its velocity state (`steerVelocity`) is not modelled.
- AICars.AICarController.ExecuteDrivePlan: requires that magnitudes are non-negative and dt is
  non-negative, as the engine guarantees.
- AICars.AICarController.FixedUpdate: the same engine assumptions as ExecuteDrivePlan.
- AICars.AICarController.RacingTick: the same engine assumptions as ExecuteDrivePlan.
- PlayerCar.PlayerCarController.FixedUpdate: requires maxSpeed to be non-zero, for the same
  reason as SteerSmooth.
- The spline follower's static `Instance` and the pool manager's `Debug.LogError` are left
  out.
