/**
 * GroundCheck: a car that another AI car hits hard enough explodes once -- it spawns the
 * explosion effect and plays the explosion sound when they are assigned, then destroys its
 * own game object. A latch keeps any later collision from doing anything.
 */
module Explosion {
  import opened Unity

  const AICarTag := "AICar"

  /** Whether a collision explodes the car: an AI car, at an impact of at least the threshold. */
  predicate Explodes(tag: string, impact: real, threshold: real)
  {
    tag == AICarTag && impact >= threshold
  }

  /** The threshold is inclusive: an impact exactly at it explodes, any less does not. */
  lemma ThresholdIsInclusive(threshold: real, impact: real)
    ensures Explodes(AICarTag, threshold, threshold)
    ensures impact < threshold ==> !Explodes(AICarTag, impact, threshold)
  {
  }

  class GroundCheck {
    var crashForceThreshold: real
    var hasEffect: bool
    var hasSound: bool
    var hasExploded: bool
    /** What the explosion left behind: effects spawned, sounds played, the object destroyed. */
    var effectsSpawned: nat
    var soundsPlayed: nat
    var destroyed: bool

    /** The inspector default, with the effect and the sound assigned or not. */
    constructor (hasEffect: bool, hasSound: bool)
      ensures crashForceThreshold == 8.0 && this.hasEffect == hasEffect && this.hasSound == hasSound
      ensures Valid() && !hasExploded && !destroyed
    {
      crashForceThreshold := 8.0;
      this.hasEffect := hasEffect;
      this.hasSound := hasSound;
      hasExploded := false;
      effectsSpawned := 0;
      soundsPlayed := 0;
      destroyed := false;
    }

    /**
     * Before the explosion nothing has been spawned, played or destroyed; after it, the effect
     * and the sound exist once each if assigned, and the object is destroyed.
     */
    predicate Valid()
      reads this
    {
      if hasExploded
      then effectsSpawned == (if hasEffect then 1 else 0) &&
           soundsPlayed == (if hasSound then 1 else 0) && destroyed
      else effectsSpawned == 0 && soundsPlayed == 0 && !destroyed
    }

    /**
     * OnCollisionEnter: once exploded, nothing happens; otherwise a collision that explodes the
     * car (an AI car, impact magnitude at least the threshold) runs Explode, and any other
     * collision changes nothing.
     */
    method OnCollisionEnter(e: Engine, tag: string, relativeVelocity: Vec3)
      requires Valid()
      modifies this`hasExploded, this`effectsSpawned, this`soundsPlayed, this`destroyed
      ensures Valid()
      ensures hasExploded == (old(hasExploded) ||
                              Explodes(tag, e.magnitude(relativeVelocity), crashForceThreshold))
      ensures old(hasExploded) ==> effectsSpawned == old(effectsSpawned) && soundsPlayed == old(soundsPlayed)
    {
      if hasExploded {
        return;
      }
      if tag == AICarTag {
        var impactForce := e.magnitude(relativeVelocity);
        if impactForce >= crashForceThreshold {
          Explode();
        }
      }
    }

    /** Explode: latch, spawn the effect and play the sound if assigned, destroy the object. */
    method Explode()
      requires Valid() && !hasExploded
      modifies this`hasExploded, this`effectsSpawned, this`soundsPlayed, this`destroyed
      ensures Valid() && hasExploded
    {
      hasExploded := true;
      if hasEffect {
        effectsSpawned := effectsSpawned + 1;
      }
      if hasSound {
        soundsPlayed := soundsPlayed + 1;
      }
      destroyed := true;
    }
  }

  /** The latch after a run of collisions, each given by its tag and impact. */
  function Latched(hits: seq<(string, real)>, threshold: real, exploded: bool): bool
  {
    if hits == [] then exploded
    else Latched(hits[1..], threshold, exploded || Explodes(hits[0].0, hits[0].1, threshold))
  }

  /**
   * Over any run of collisions the car explodes exactly when one of them explodes it, and it
   * explodes only once: the latch, once set, stays set.
   */
  lemma {:induction false} LatchedIffSomeHit(hits: seq<(string, real)>, threshold: real, exploded: bool)
    ensures Latched(hits, threshold, exploded) <==>
            exploded || exists k :: 0 <= k < |hits| && Explodes(hits[k].0, hits[k].1, threshold)
  {
    if hits != [] {
      LatchedIffSomeHit(hits[1..], threshold, exploded || Explodes(hits[0].0, hits[0].1, threshold));
      if exists k :: 0 <= k < |hits| && Explodes(hits[k].0, hits[k].1, threshold) {
        var k :| 0 <= k < |hits| && Explodes(hits[k].0, hits[k].1, threshold);
        if k > 0 {
          assert hits[1..][k - 1] == hits[k];
        }
      }
      if exists k :: 0 <= k < |hits[1..]| && Explodes(hits[1..][k].0, hits[1..][k].1, threshold) {
        var k :| 0 <= k < |hits[1..]| && Explodes(hits[1..][k].0, hits[1..][k].1, threshold);
        assert hits[k + 1] == hits[1..][k];
      }
    }
  }
}
