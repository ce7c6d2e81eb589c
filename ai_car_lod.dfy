/**
 * AICarLOD: picks the movement mode of its car's controller each frame from the squared
 * distance to the player: full physics close by, the simple mode further out, the fake mode
 * beyond. The squared thresholds are computed once, in Awake.
 */
module LevelOfDetail {
  import opened Unity
  import AICars

  /** The component's own level enum; nothing in it assigns a level after construction. */
  datatype LODLevel = Full | Simple | Fake

  /**
   * The if-chain of Update: strictly below the full threshold is full physics, otherwise
   * strictly below the simple threshold is the simple mode, otherwise the fake mode.
   */
  function Classify(distSqr: real, fullSqr: real, simpleSqr: real): (m: AICars.MovementMode)
    ensures m == AICars.FullPhysics <==> distSqr < fullSqr
    ensures m == AICars.Simple <==> fullSqr <= distSqr < simpleSqr
    ensures m == AICars.Fake <==> fullSqr <= distSqr && simpleSqr <= distSqr
  {
    if distSqr < fullSqr then AICars.FullPhysics
    else if distSqr < simpleSqr then AICars.Simple
    else AICars.Fake
  }

  /** How much detail a mode keeps: more detail, smaller rank. */
  function Rank(m: AICars.MovementMode): nat
  {
    if m.FullPhysics? then 0 else if m.Simple? then 1 else 2
  }

  /** With ordered thresholds, a car further away never gets a more detailed mode. */
  lemma FurtherIsNeverMoreDetailed(d1: real, d2: real, fullSqr: real, simpleSqr: real)
    requires fullSqr <= simpleSqr && d1 <= d2
    ensures Rank(Classify(d1, fullSqr, simpleSqr)) <= Rank(Classify(d2, fullSqr, simpleSqr))
  {
  }

  /** For non-negative values, comparing squares is comparing the values. */
  lemma SquaresCompare(d: real, t: real)
    requires d >= 0.0 && t >= 0.0
    ensures d * d < t * t <==> d < t
  {
    if d < t {
      MulPositive(t - d, t + d);
      assert t * t - d * d == (t - d) * (t + d);
    } else {
      MulNonneg(d - t, d + t);
      assert d * d - t * t == (d - t) * (d + t);
    }
  }

  lemma MulPositive(x: real, y: real)
    requires x > 0.0 && y > 0.0
    ensures x * y > 0.0
  {
  }

  /**
   * Read through real distances: with non-negative thresholds, a car strictly closer than
   * fullDist runs full physics, one closer than simpleDist but not than fullDist the simple
   * mode, and every other car the fake mode.
   */
  lemma ClassifyByDistance(e: Engine, offset: Vec3, fullDist: real, simpleDist: real)
    requires MagnitudeIsLength(e)
    requires 0.0 <= fullDist && 0.0 <= simpleDist
    ensures var m := Classify(SqrMagnitude(offset), fullDist * fullDist, simpleDist * simpleDist);
            var dist := e.magnitude(offset);
            (m == AICars.FullPhysics <==> dist < fullDist) &&
            (m == AICars.Simple <==> fullDist <= dist < simpleDist) &&
            (m == AICars.Fake <==> fullDist <= dist && simpleDist <= dist)
  {
    var dist := e.magnitude(offset);
    assert 0.0 <= dist && dist * dist == SqrMagnitude(offset);
    SquaresCompare(dist, fullDist);
    SquaresCompare(dist, simpleDist);
  }

  /** A car exactly fullDist away is not close enough for full physics. */
  lemma BoundaryIsSimple(fullDist: real, simpleDist: real)
    requires 0.0 <= fullDist < simpleDist
    ensures Classify(fullDist * fullDist, fullDist * fullDist, simpleDist * simpleDist) == AICars.Simple
  {
    SquaresCompare(fullDist, simpleDist);
  }

  class AICarLOD {
    /** Never assigned by the component. */
    var currentLOD: LODLevel
    var fullDist: real
    var simpleDist: real
    var hasPlayer: bool
    var controller: AICars.AICarController
    var fullDistSqr: real
    var simpleDistSqr: real
    /** The car's own transform position. */
    var position: Vec3

    /** The inspector defaults, on the car's controller. */
    constructor (controller: AICars.AICarController, position: Vec3)
      ensures fullDist == 40.0 && simpleDist == 120.0 && currentLOD == Full
      ensures this.controller == controller && this.position == position && !hasPlayer
      ensures fullDistSqr == 0.0 && simpleDistSqr == 0.0
    {
      currentLOD := Full;
      fullDist := 40.0;
      simpleDist := 120.0;
      hasPlayer := false;
      this.controller := controller;
      fullDistSqr := 0.0;
      simpleDistSqr := 0.0;
      this.position := position;
    }

    /** Awake: looks the player up and fixes the squared thresholds. */
    method Awake(playerFound: bool)
      modifies this`hasPlayer, this`fullDistSqr, this`simpleDistSqr
      ensures hasPlayer == playerFound
      ensures fullDistSqr == fullDist * fullDist && simpleDistSqr == simpleDist * simpleDist
    {
      hasPlayer := playerFound;
      fullDistSqr := fullDist * fullDist;
      simpleDistSqr := simpleDist * simpleDist;
    }

    /**
     * Update: without a player nothing changes; otherwise the controller's movement mode is
     * the classification of the squared distance to the player. The component's own state,
     * `currentLOD` included, is never written.
     */
    method Update(playerPosition: Vec3)
      modifies controller`movementMode
      ensures !hasPlayer ==> controller.movementMode == old(controller.movementMode)
      ensures hasPlayer ==> controller.movementMode ==
                            Classify(SqrMagnitude(Sub(position, playerPosition)), fullDistSqr, simpleDistSqr)
    {
      if !hasPlayer {
        return;
      }
      var distSqr := SqrMagnitude(Sub(position, playerPosition));
      if distSqr < fullDistSqr {
        controller.movementMode := AICars.FullPhysics;
      } else if distSqr < simpleDistSqr {
        controller.movementMode := AICars.Simple;
      } else {
        controller.movementMode := AICars.Fake;
      }
    }
  }
}
