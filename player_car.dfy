/**
 * PlayerCarController's physics step: the target speed, raised once when an AI car is ahead or
 * alongside; the motor, which eases a smoothed target towards it and drives the rear wheels
 * with a clamped torque; and the steering, which writes the front wheels' steer angle.
 */
module PlayerCar {
  import opened Unity

  datatype Axel = Front | Rear

  /** A wheel's axle and the wheel-collider fields the controller writes. */
  datatype Wheel = Wheel(axel: Axel, motorTorque: real, brakeTorque: real, steerAngle: real)

  /** A collider `Physics.OverlapSphere` reported: its tag and its transform's position. */
  datatype Nearby = Nearby(tag: string, position: Vec3)

  const AICarTag := "AICar"

  /** An AI car that puts racing pressure on the player: ahead of it, or roughly alongside. */
  predicate Pressing(e: Engine, self: Vec3, forward: Vec3, hit: Nearby)
  {
    hit.tag == AICarTag && Dot(forward, Normalized(e, Sub(hit.position, self))) > -0.2
  }

  /** Some reported collider presses the player. */
  predicate UnderPressure(e: Engine, self: Vec3, forward: Vec3, hits: seq<Nearby>)
  {
    exists k :: 0 <= k < |hits| && Pressing(e, self, forward, hits[k])
  }

  /**
   * The target speed: the cruise speed, plus the race boost once when pressed, clamped to
   * [cruiseSpeed, maxSpeed].
   */
  function TargetSpeed(cruiseSpeed: real, raceBoost: real, maxSpeed: real, pressed: bool): (r: real)
    ensures cruiseSpeed <= maxSpeed ==> cruiseSpeed <= r <= maxSpeed
    ensures r <= cruiseSpeed + (if pressed && raceBoost > 0.0 then raceBoost else 0.0)
    ensures cruiseSpeed <= maxSpeed && !pressed ==> r == cruiseSpeed
    ensures pressed && 0.0 <= raceBoost && cruiseSpeed + raceBoost <= maxSpeed ==> r == cruiseSpeed + raceBoost
    ensures pressed && cruiseSpeed <= maxSpeed && maxSpeed < cruiseSpeed + raceBoost ==> r == maxSpeed
    ensures pressed && raceBoost < 0.0 ==> r == cruiseSpeed
  {
    Clamp(cruiseSpeed + (if pressed then raceBoost else 0.0), cruiseSpeed, maxSpeed)
  }

  /** The motor torque for a speed error: error times power, clamped to [0, motorPower]. */
  function MotorTorque(speedError: real, motorPower: real): (torque: real)
    ensures motorPower >= 0.0 ==> 0.0 <= torque <= motorPower
    ensures motorPower >= 0.0 && speedError <= 0.0 ==> torque == 0.0
    ensures 0.0 <= speedError * motorPower <= motorPower ==> torque == speedError * motorPower
    ensures motorPower >= 0.0 && speedError >= 1.0 ==> torque == motorPower
  {
    NonpositiveProduct(speedError, motorPower);
    if motorPower >= 0.0 && speedError >= 1.0 then
      MulNonneg(speedError - 1.0, motorPower);
      Clamp(speedError * motorPower, 0.0, motorPower)
    else
      Clamp(speedError * motorPower, 0.0, motorPower)
  }

  lemma NonpositiveProduct(x: real, y: real)
    ensures x <= 0.0 && y >= 0.0 ==> x * y <= 0.0
  {
    if x <= 0.0 && y >= 0.0 {
      MulNonneg(-x, y);
    }
  }

  /** Auto-centering never widens the steer angle and never flips its side. */
  lemma CenteringNarrows(angle: real, t: real)
    ensures Abs(Lerp(angle, 0.0, t)) <= Abs(angle)
    ensures angle >= 0.0 ==> Lerp(angle, 0.0, t) >= 0.0
    ensures angle <= 0.0 ==> Lerp(angle, 0.0, t) <= 0.0
  {
  }

  /**
   * The speed-dependent steering factor lies between 1 and highSpeedSteerFactor, so with a
   * factor in [0, 1] the steering target never exceeds the input times the maximum angle.
   */
  lemma SteerTargetBounded(turnInput: real, maxSteerAngle: real, factor: real, ratio: real)
    requires 0.0 <= factor <= 1.0 && maxSteerAngle >= 0.0
    ensures var f := Lerp(1.0, factor, ratio);
            factor <= f <= 1.0 &&
            Abs(SteerTarget(turnInput, maxSteerAngle, factor, ratio)) <= Abs(turnInput) * maxSteerAngle
  {
    var f := Lerp(1.0, factor, ratio);
    var a := turnInput * maxSteerAngle;
    AbsOfScaled(turnInput, maxSteerAngle);
    AbsOfScaled(a, f);
    MulNonneg(Abs(a), 1.0 - f);
    assert Abs(a) - Abs(a) * f == Abs(a) * (1.0 - f);
  }

  lemma AbsOfScaled(x: real, k: real)
    requires k >= 0.0
    ensures Abs(x * k) == Abs(x) * k
  {
    if x < 0.0 {
      MulNonneg(-x, k);
      assert (-x) * k == -(x * k);
    } else {
      MulNonneg(x, k);
    }
  }

  /** The steering target for a turn input and a speed ratio (speed over maxSpeed). */
  function SteerTarget(turnInput: real, maxSteerAngle: real, highSpeedSteerFactor: real, ratio: real): real
  {
    turnInput * maxSteerAngle * Lerp(1.0, highSpeedSteerFactor, ratio)
  }

  /** A velocity scaled back to maxSpeed along its own direction has length maxSpeed. */
  lemma HardClampCapsSpeed(e: Engine, v: Vec3, maxSpeed: real)
    requires MagnitudeIsLength(e) && NormalizedScales(e)
    requires maxSpeed >= 0.00001 && e.magnitude(v) > maxSpeed
    ensures SqrMagnitude(Scale(Normalized(e, v), maxSpeed)) == maxSpeed * maxSpeed
  {
    NormalizedIsUnit(e, v);
    ScaledUnit(Normalized(e, v), maxSpeed);
  }

  class PlayerCarController {
    var cruiseSpeed: real
    var raceBoost: real
    var maxSpeed: real
    var motorPower: real
    var maxSteerAngle: real
    var steerSmoothTime: real
    var steerReturnSpeed: real
    var highSpeedSteerFactor: real

    var targetSpeed: real
    var smoothedTargetSpeed: real
    var currentSteerAngle: real
    var turnInput: real

    /** The car's transform and its rigidbody's velocity. */
    var position: Vec3
    var forward: Vec3
    var velocity: Vec3
    var wheels: seq<Wheel>

    /** The inspector defaults. */
    constructor (wheels: seq<Wheel>, position: Vec3, forward: Vec3)
      ensures cruiseSpeed == 12.0 && raceBoost == 1.8 && maxSpeed == 16.0 && motorPower == 1500.0
      ensures maxSteerAngle == 30.0 && steerSmoothTime == 0.15 && steerReturnSpeed == 6.0
      ensures highSpeedSteerFactor == 0.6
      ensures targetSpeed == 0.0 && smoothedTargetSpeed == 0.0 && currentSteerAngle == 0.0 && turnInput == 0.0
      ensures this.wheels == wheels && this.position == position && this.forward == forward && velocity == Zero
    {
      cruiseSpeed := 12.0;
      raceBoost := 1.8;
      maxSpeed := 16.0;
      motorPower := 1500.0;
      maxSteerAngle := 30.0;
      steerSmoothTime := 0.15;
      steerReturnSpeed := 6.0;
      highSpeedSteerFactor := 0.6;
      targetSpeed := 0.0;
      smoothedTargetSpeed := 0.0;
      currentSteerAngle := 0.0;
      turnInput := 0.0;
      this.wheels := wheels;
      this.position := position;
      this.forward := forward;
      velocity := Zero;
    }

    /** Update's input read: the horizontal axis becomes the turn input. */
    method Update(horizontalAxis: real)
      modifies this`turnInput
      ensures turnInput == horizontalAxis
    {
      turnInput := horizontalAxis;
    }

    /**
     * FixedUpdate: target speed, then motor, then steering. The motor eases towards the new
     * target speed and caps the velocity; the steering reads that capped velocity. The rear
     * wheels end with the motor's torque and no brake, the front wheels with the new angle.
     */
    method FixedUpdate(e: Engine, hits: seq<Nearby>, dt: real, smoothDamp: (real, real, real) -> real)
      requires maxSpeed != 0.0
      modifies this`targetSpeed, this`smoothedTargetSpeed, this`wheels, this`velocity, this`currentSteerAngle
      ensures targetSpeed == TargetSpeed(cruiseSpeed, raceBoost, maxSpeed, UnderPressure(e, position, forward, hits))
      ensures smoothedTargetSpeed == Lerp(old(smoothedTargetSpeed), targetSpeed, dt * 2.5)
      ensures velocity == if e.magnitude(old(velocity)) > maxSpeed
                          then Scale(Normalized(e, old(velocity)), maxSpeed) else old(velocity)
      ensures var damped := smoothDamp(old(currentSteerAngle),
                                       SteerTarget(turnInput, maxSteerAngle, highSpeedSteerFactor,
                                                   e.magnitude(velocity) / maxSpeed),
                                       steerSmoothTime);
              currentSteerAngle ==
                if Abs(turnInput) < 0.01 then Lerp(damped, 0.0, dt * steerReturnSpeed) else damped
      ensures var torque := MotorTorque(smoothedTargetSpeed - e.magnitude(old(velocity)), motorPower);
              |wheels| == old(|wheels|) &&
              forall k :: 0 <= k < |wheels| ==>
                wheels[k] == if old(wheels[k]).axel == Rear
                             then old(wheels[k]).(motorTorque := torque, brakeTorque := 0.0)
                             else old(wheels[k]).(steerAngle := currentSteerAngle)
    {
      UpdateTargetSpeed(e, hits);
      ApplyMotor(e, dt);
      SteerSmooth(e, dt, smoothDamp);
    }

    /**
     * UpdateTargetSpeed: the cruise speed, plus the race boost when the first AI car that
     * presses the player is found -- the loop stops there, so the boost is added at most once
     * -- clamped to [cruiseSpeed, maxSpeed].
     */
    method UpdateTargetSpeed(e: Engine, hits: seq<Nearby>)
      modifies this`targetSpeed
      ensures targetSpeed == TargetSpeed(cruiseSpeed, raceBoost, maxSpeed, UnderPressure(e, position, forward, hits))
    {
      targetSpeed := cruiseSpeed;
      var i := 0;
      while i < |hits|
        invariant 0 <= i <= |hits| && targetSpeed == cruiseSpeed
        invariant forall k :: 0 <= k < i ==> !Pressing(e, position, forward, hits[k])
      {
        var hit := hits[i];
        if hit.tag != AICarTag {
          i := i + 1;
          continue;
        }
        var dir := Sub(hit.position, position);
        var forwardDot := Dot(forward, Normalized(e, dir));
        if forwardDot > -0.2 {
          targetSpeed := targetSpeed + raceBoost;
          assert Pressing(e, position, forward, hits[i]);
          break;
        }
        i := i + 1;
      }
      targetSpeed := Clamp(targetSpeed, cruiseSpeed, maxSpeed);
    }

    /**
     * ApplyMotor: the smoothed target moves towards the target speed by Lerp with
     * t = dt * 2.5; the rear wheels get the clamped torque and no brake, the front wheels are
     * left alone; a car faster than maxSpeed is scaled back to maxSpeed along its velocity.
     */
    method ApplyMotor(e: Engine, dt: real)
      modifies this`smoothedTargetSpeed, this`wheels, this`velocity
      ensures smoothedTargetSpeed == Lerp(old(smoothedTargetSpeed), targetSpeed, dt * 2.5)
      ensures var torque := MotorTorque(smoothedTargetSpeed - e.magnitude(old(velocity)), motorPower);
              |wheels| == old(|wheels|) &&
              forall k :: 0 <= k < |wheels| ==>
                if old(wheels[k]).axel == Rear
                then wheels[k] == old(wheels[k]).(motorTorque := torque, brakeTorque := 0.0)
                else wheels[k] == old(wheels[k])
      ensures velocity == if e.magnitude(old(velocity)) > maxSpeed
                          then Scale(Normalized(e, old(velocity)), maxSpeed) else old(velocity)
    {
      var currentSpeed := e.magnitude(velocity);
      smoothedTargetSpeed := Lerp(smoothedTargetSpeed, targetSpeed, dt * 2.5);
      var speedError := smoothedTargetSpeed - currentSpeed;
      var torque := speedError * motorPower;
      torque := Clamp(torque, 0.0, motorPower);
      assert torque == MotorTorque(speedError, motorPower);
      ghost var before := wheels;
      var i := 0;
      while i < |wheels|
        modifies this`wheels
        invariant 0 <= i <= |wheels| == |before|
        invariant forall k :: 0 <= k < i ==>
                    if before[k].axel == Rear
                    then wheels[k] == before[k].(motorTorque := torque, brakeTorque := 0.0)
                    else wheels[k] == before[k]
        invariant forall k :: i <= k < |wheels| ==> wheels[k] == before[k]
      {
        if wheels[i].axel != Rear {
          i := i + 1;
          continue;
        }
        wheels := wheels[i := wheels[i].(motorTorque := torque, brakeTorque := 0.0)];
        i := i + 1;
      }
      if currentSpeed > maxSpeed {
        velocity := Scale(Normalized(e, velocity), maxSpeed);
      }
    }

    /**
     * SteerSmooth: the steering target scales the turn input by the maximum angle and a factor
     * that falls from 1 towards highSpeedSteerFactor as the speed nears maxSpeed; the angle is
     * damped towards it, then eased back to zero when there is no input; only the front wheels
     * take the new angle.
     */
    method SteerSmooth(e: Engine, dt: real, smoothDamp: (real, real, real) -> real)
      requires maxSpeed != 0.0
      modifies this`currentSteerAngle, this`wheels
      ensures var damped := smoothDamp(old(currentSteerAngle),
                                       SteerTarget(turnInput, maxSteerAngle, highSpeedSteerFactor,
                                                   e.magnitude(velocity) / maxSpeed),
                                       steerSmoothTime);
              currentSteerAngle ==
                if Abs(turnInput) < 0.01 then Lerp(damped, 0.0, dt * steerReturnSpeed) else damped
      ensures |wheels| == old(|wheels|)
      ensures forall k :: 0 <= k < |wheels| ==>
                if old(wheels[k]).axel == Front
                then wheels[k] == old(wheels[k]).(steerAngle := currentSteerAngle)
                else wheels[k] == old(wheels[k])
    {
      var speed := e.magnitude(velocity);
      var speedFactor := Lerp(1.0, highSpeedSteerFactor, speed / maxSpeed);
      var targetSteer := turnInput * maxSteerAngle * speedFactor;
      assert targetSteer == SteerTarget(turnInput, maxSteerAngle, highSpeedSteerFactor, speed / maxSpeed);
      currentSteerAngle := smoothDamp(currentSteerAngle, targetSteer, steerSmoothTime);
      if Abs(turnInput) < 0.01 {
        currentSteerAngle := Lerp(currentSteerAngle, 0.0, dt * steerReturnSpeed);
      }
      SteerFrontWheels();
    }

    /** SteerSmooth's wheel loop: every front wheel takes the current steer angle. */
    method SteerFrontWheels()
      modifies this`wheels
      ensures |wheels| == old(|wheels|)
      ensures forall k :: 0 <= k < |wheels| ==>
                if old(wheels[k]).axel == Front
                then wheels[k] == old(wheels[k]).(steerAngle := currentSteerAngle)
                else wheels[k] == old(wheels[k])
    {
      ghost var before := wheels;
      var i := 0;
      while i < |wheels|
        invariant 0 <= i <= |wheels| == |before|
        invariant forall k :: 0 <= k < i ==>
                    if before[k].axel == Front
                    then wheels[k] == before[k].(steerAngle := currentSteerAngle)
                    else wheels[k] == before[k]
        invariant forall k :: i <= k < |wheels| ==> wheels[k] == before[k]
      {
        if wheels[i].axel == Front {
          wheels := wheels[i := wheels[i].(steerAngle := currentSteerAngle)];
        }
        i := i + 1;
      }
    }
  }
}
