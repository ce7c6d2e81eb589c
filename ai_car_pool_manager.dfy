/**
 * AICarPoolManager: creates a pool of inactive AI cars and places every one of them somewhere
 * ahead of the player, retrying random candidates until one keeps its distance from every
 * position used so far, falling back to a fixed distance ahead when all attempts fail.
 *
 * A car of the pool is a `Car` value and is identified by its index in `pool`; moving a car
 * replaces its value. `Physics.OverlapBox` is given as the pool indices it reports, and every
 * `Random.Range` as the unit draw behind it.
 */
module Spawn {
  import opened Unity

  /** The player's transform: its position and its forward and right axes. */
  datatype Frame = Frame(position: Vec3, forward: Vec3, right: Vec3)

  /** A pooled car: where it is, the forward axis of its rotation, whether it is active. */
  datatype Car = Car(position: Vec3, facing: Vec3, active: bool)

  /** The point `forward` units ahead of and `side` units right of the player. */
  function At(frame: Frame, forward: real, side: real): Vec3
  {
    Add(Add(frame.position, Scale(frame.forward, forward)), Scale(frame.right, side))
  }

  /** The unit draws one SpawnCar call may consume. */
  datatype SpawnDraws = SpawnDraws(
    candidates: seq<(real, real)>,  // per attempt: the forward and the side draw
    jitter: (real, real),           // the lateral and the forward micro offset
    fallbackSide: real              // the side draw of the fallback placement
  )

  predicate DrawsAreUnit(d: SpawnDraws)
  {
    UnitPairs(d.candidates) && Unit(d.jitter.0) && Unit(d.jitter.1) && Unit(d.fallbackSide)
  }

  /** A position is clear when no used position lies strictly closer than minDist. */
  predicate Clear(e: Engine, used: seq<Vec3>, pos: Vec3, minDist: real)
  {
    forall i :: 0 <= i < |used| ==> Distance(e, pos, used[i]) >= minDist
  }

  /** `n` copies of a car. */
  function Repeat(c: Car, n: nat): (cars: seq<Car>)
    ensures |cars| == n && forall i :: 0 <= i < n ==> cars[i] == c
  {
    if n == 0 then [] else Repeat(c, n - 1) + [c]
  }

  /* ---------------- the push of neighbours ---------------- */

  /**
   * How far ResolveSpawnOverlap pushes a neighbour at `other` away from the spawned car: along
   * the level offset between them, or along the spawned car's right axis when that offset is
   * shorter than 0.1, normalized and scaled by the push strength.
   */
  function PushOffset(e: Engine, spawned: Car, other: Vec3, push: real): Vec3
  {
    var d := Sub(other, spawned.position);
    var level := Vec3(d.x, 0.0, d.z);
    var dir := if SqrMagnitude(level) < 0.01 then e.lookRight(spawned.facing) else level;
    Scale(Normalized(e, dir), push)
  }

  /** One iteration of ResolveSpawnOverlap's loop: the spawned car itself is skipped. */
  function PushOne(e: Engine, cars: seq<Car>, self: nat, h: nat, push: real): (r: seq<Car>)
    requires self < |cars| && h < |cars|
    ensures |r| == |cars|
  {
    if h == self then cars
    else cars[h := cars[h].(position := Add(cars[h].position, PushOffset(e, cars[self], cars[h].position, push)))]
  }

  predicate HitsInPool(hits: seq<nat>, n: nat)
  {
    forall k :: 0 <= k < |hits| ==> hits[k] < n
  }

  /** The whole loop over the overlap hits, in order. */
  function PushAll(e: Engine, cars: seq<Car>, self: nat, hits: seq<nat>, push: real): (r: seq<Car>)
    requires self < |cars| && HitsInPool(hits, |cars|)
    ensures |r| == |cars|
    decreases |hits|
  {
    if hits == [] then cars
    else PushAll(e, PushOne(e, cars, self, hits[0], push), self, hits[1..], push)
  }

  /**
   * The push never moves the spawned car, never changes any car's rotation or active flag, and
   * leaves every car the overlap did not report where it was.
   */
  lemma {:induction false} PushAllFrame(e: Engine, cars: seq<Car>, self: nat, hits: seq<nat>,
                                        push: real, j: nat)
    requires self < |cars| && HitsInPool(hits, |cars|) && j < |cars|
    ensures var r := PushAll(e, cars, self, hits, push);
            r[j].facing == cars[j].facing && r[j].active == cars[j].active &&
            (j == self || j !in hits ==> r[j] == cars[j])
    decreases |hits|
  {
    if hits != [] {
      var next := PushOne(e, cars, self, hits[0], push);
      assert HitsInPool(hits[1..], |next|);
      PushAllFrame(e, next, self, hits[1..], push, j);
      assert j !in hits ==> j !in hits[1..] && j != hits[0];
    }
  }

  /**
   * A neighbour the overlap reports exactly once is moved exactly once, by the push offset
   * computed from where it and the spawned car stood.
   */
  lemma {:induction false} PushedOnce(e: Engine, cars: seq<Car>, self: nat, hits: seq<nat>,
                                      push: real, j: nat)
    requires self < |cars| && HitsInPool(hits, |cars|) && j < |cars| && j != self
    requires multiset(hits)[j] == 1
    ensures PushAll(e, cars, self, hits, push)[j].position ==
            Add(cars[j].position, PushOffset(e, cars[self], cars[j].position, push))
    decreases |hits|
  {
    assert hits == [hits[0]] + hits[1..];
    var next := PushOne(e, cars, self, hits[0], push);
    assert HitsInPool(hits[1..], |next|);
    assert next[self] == cars[self];
    if hits[0] == j {
      assert multiset(hits[1..])[j] == 0;
      PushAllFrame(e, next, self, hits[1..], push, j);
    } else {
      assert multiset(hits[1..])[j] == 1;
      assert next[j] == cars[j];
      PushedOnce(e, next, self, hits[1..], push, j);
    }
  }

  /** A magnitude whose square is at least 0.01 exceeds the normalization cut-off 1e-5. */
  lemma LargeSquareLargeRoot(m: real, sq: real)
    requires m >= 0.0 && m * m == sq && sq >= 0.01
    ensures m > 0.00001
  {
    if m <= 0.00001 {
      MulNonneg(0.00001 - m, m);
    }
  }

  /**
   * Away from the degenerate case the push is level and exactly pushStrength long: its y is
   * zero and its squared length is pushStrength squared.
   */
  lemma PushIsLevelAndFixedLength(e: Engine, spawned: Car, other: Vec3, push: real)
    requires MagnitudeIsLength(e) && NormalizedScales(e)
    requires var d := Sub(other, spawned.position); SqrMagnitude(Vec3(d.x, 0.0, d.z)) >= 0.01
    ensures PushOffset(e, spawned, other, push).y == 0.0
    ensures SqrMagnitude(PushOffset(e, spawned, other, push)) == push * push
  {
    var d := Sub(other, spawned.position);
    var level := Vec3(d.x, 0.0, d.z);
    var m := e.magnitude(level);
    assert 0.0 <= m && m * m == SqrMagnitude(level);
    LargeSquareLargeRoot(m, SqrMagnitude(level));
    NormalizedIsUnit(e, level);
    NormalizedIsLevel(e, level);
    ScaledUnit(Normalized(e, level), push);
  }

  /* ---------------- the retry loop ---------------- */

  /** The spawn area ahead of the player and the separation the retry loop asks for. */
  datatype Area = Area(forwardMin: real, forwardMax: real, sideRange: real, minDistance: real)

  predicate UnitPairs(draws: seq<(real, real)>)
  {
    forall k :: 0 <= k < |draws| ==> Unit(draws[k].0) && Unit(draws[k].1)
  }

  /** GetRandomSpawnPosition for a forward draw and a side draw. */
  function Candidate(frame: Frame, area: Area, draw: (real, real)): Vec3
    requires Unit(draw.0) && Unit(draw.1)
  {
    At(frame, Range(area.forwardMin, area.forwardMax, draw.0), Range(-area.sideRange, area.sideRange, draw.1))
  }

  /** The first attempt, from `from` on and below `n`, whose candidate is clear. */
  function FirstClear(e: Engine, used: seq<Vec3>, frame: Frame, area: Area, draws: seq<(real, real)>,
                      from: nat, n: nat): (r: Option<nat>)
    requires n <= |draws| && UnitPairs(draws)
    ensures r.Some? ==> from <= r.value < n
    decreases n - from
  {
    if from >= n then None
    else if Clear(e, used, Candidate(frame, area, draws[from]), area.minDistance) then Some(from)
    else FirstClear(e, used, frame, area, draws, from + 1, n)
  }

  /**
   * The attempt the retry loop accepts is clear and every earlier one is not; when it accepts
   * none, no attempt was clear.
   */
  lemma {:induction false} FirstClearIsFirst(e: Engine, used: seq<Vec3>, frame: Frame, area: Area,
                                             draws: seq<(real, real)>, from: nat, n: nat)
    requires n <= |draws| && UnitPairs(draws)
    ensures var r := FirstClear(e, used, frame, area, draws, from, n);
            (r.Some? ==> Clear(e, used, Candidate(frame, area, draws[r.value]), area.minDistance)) &&
            (forall k :: from <= k < n && (r.None? || k < r.value) ==>
               !Clear(e, used, Candidate(frame, area, draws[k]), area.minDistance))
    decreases n - from
  {
    if from < n && !Clear(e, used, Candidate(frame, area, draws[from]), area.minDistance) {
      FirstClearIsFirst(e, used, frame, area, draws, from + 1, n);
    }
  }

  /**
   * What of the manager a spawn depends on: the spawn area and separation, the number of
   * attempts, the micro-offset ranges and the push strength.
   */
  datatype Settings = Settings(area: Area, attempts: nat, lateralMin: real, lateralMax: real,
                               forwardOffsetMin: real, forwardOffsetMax: real, push: real)

  /** The draws of one SpawnCar call are unit draws and suffice for every attempt. */
  predicate Fits(s: Settings, d: SpawnDraws)
  {
    DrawsAreUnit(d) && s.attempts <= |d.candidates|
  }

  predicate AllFit(s: Settings, draws: seq<SpawnDraws>)
  {
    forall i :: 0 <= i < |draws| ==> Fits(s, draws[i])
  }

  predicate AllInPool(hits: seq<seq<nat>>, n: nat)
  {
    forall i :: 0 <= i < |hits| ==> HitsInPool(hits[i], n)
  }

  /** An accepted candidate moved by the micro offsets along the player's right and forward axes. */
  function Jitter(frame: Frame, s: Settings, pos: Vec3, jitter: (real, real)): Vec3
    requires Unit(jitter.0) && Unit(jitter.1)
  {
    var p := Add(pos, Scale(frame.right, Range(s.lateralMin, s.lateralMax, jitter.0)));
    Add(p, Scale(frame.forward, Range(s.forwardOffsetMin, s.forwardOffsetMax, jitter.1)))
  }

  /** The fallback position: forwardMax ahead of the player, a random side offset. */
  function Fallback(frame: Frame, area: Area, uSide: real): Vec3
    requires Unit(uSide)
  {
    At(frame, area.forwardMax, Range(-area.sideRange, area.sideRange, uSide))
  }

  /**
   * The position one SpawnCar call records, given the positions recorded before it: the first
   * clear candidate, jittered; None when every attempt failed and the car falls back.
   */
  function Accepted(e: Engine, used: seq<Vec3>, frame: Frame, s: Settings, d: SpawnDraws): Option<Vec3>
    requires Fits(s, d)
  {
    var k := FirstClear(e, used, frame, s.area, d.candidates, 0, s.attempts);
    if k.Some? then Some(Jitter(frame, s, Candidate(frame, s.area, d.candidates[k.value]), d.jitter))
    else None
  }

  /** The recorded positions and the pool. */
  datatype Placement = Placement(used: seq<Vec3>, cars: seq<Car>)

  /**
   * One SpawnCar call on car `index`: an accepted position is recorded, given to the activated
   * car, which then pushes its neighbours; otherwise the car is activated at the fallback
   * position and nothing is recorded.
   */
  function SpawnStep(e: Engine, frame: Frame, s: Settings, p: Placement, index: nat, d: SpawnDraws,
                     hits: seq<nat>): (r: Placement)
    requires index < |p.cars| && Fits(s, d) && HitsInPool(hits, |p.cars|)
    ensures |r.cars| == |p.cars|
  {
    match Accepted(e, p.used, frame, s, d)
    case Some(pos) =>
      Placement(p.used + [pos], PushAll(e, p.cars[index := Car(pos, frame.forward, true)], index, hits, s.push))
    case None =>
      Placement(p.used, p.cars[index := Car(Fallback(frame, s.area, d.fallbackSide), frame.forward, true)])
  }

  /**
   * SpawnAllCars on the first |draws| cars: the record starts empty, and car i is spawned by
   * SpawnStep with the i-th draws and overlap hits.
   */
  function SpawnAll(e: Engine, frame: Frame, s: Settings, cars: seq<Car>, draws: seq<SpawnDraws>,
                    hits: seq<seq<nat>>): (r: Placement)
    requires |draws| <= |cars| && |draws| <= |hits| && AllFit(s, draws) && AllInPool(hits, |cars|)
    ensures |r.cars| == |cars|
    decreases |draws|
  {
    if draws == [] then Placement([], cars)
    else
      var n := |draws| - 1;
      SpawnStep(e, frame, s, SpawnAll(e, frame, s, cars, draws[..n], hits), n, draws[n], hits[n])
  }

  /**
   * The positions recorded by spawning one car per entry of `draws`, computed from the player's
   * frame, the settings and the draws alone.
   */
  function Recorded(e: Engine, frame: Frame, s: Settings, draws: seq<SpawnDraws>): (r: seq<Vec3>)
    requires AllFit(s, draws)
    ensures |r| <= |draws|
    decreases |draws|
  {
    if draws == [] then []
    else
      var n := |draws| - 1;
      var prev := Recorded(e, frame, s, draws[..n]);
      match Accepted(e, prev, frame, s, draws[n])
      case Some(pos) => prev + [pos]
      case None => prev
  }

  /** Where the cars stand and whether they are pushed never changes what is recorded. */
  lemma {:induction false} RecordedIgnoresPushes(e: Engine, frame: Frame, s: Settings, cars: seq<Car>,
                                                 draws: seq<SpawnDraws>, hits: seq<seq<nat>>)
    requires |draws| <= |cars| && |draws| <= |hits| && AllFit(s, draws) && AllInPool(hits, |cars|)
    ensures SpawnAll(e, frame, s, cars, draws, hits).used == Recorded(e, frame, s, draws)
    decreases |draws|
  {
    if draws != [] {
      var n := |draws| - 1;
      RecordedIgnoresPushes(e, frame, s, cars, draws[..n], hits);
    }
  }

  /**
   * After spawning the first |draws| cars, exactly those cars and the ones already active are
   * active.
   */
  lemma {:induction false} SpawnAllActivates(e: Engine, frame: Frame, s: Settings, cars: seq<Car>,
                                             draws: seq<SpawnDraws>, hits: seq<seq<nat>>, j: nat)
    requires |draws| <= |cars| && |draws| <= |hits| && AllFit(s, draws) && AllInPool(hits, |cars|)
    requires j < |cars|
    ensures SpawnAll(e, frame, s, cars, draws, hits).cars[j].active <==> j < |draws| || cars[j].active
    decreases |draws|
  {
    if draws != [] {
      var n := |draws| - 1;
      var prev := SpawnAll(e, frame, s, cars, draws[..n], hits);
      SpawnAllActivates(e, frame, s, cars, draws[..n], hits, j);
      match Accepted(e, prev.used, frame, s, draws[n])
      case Some(pos) =>
        PushAllFrame(e, prev.cars[n := Car(pos, frame.forward, true)], n, hits[n], s.push, j);
      case None =>
    }
  }

  /** One more car adds at most one entry at the end of the record. */
  lemma RecordedGrows(e: Engine, frame: Frame, s: Settings, draws: seq<SpawnDraws>)
    requires AllFit(s, draws) && |draws| > 0
    ensures var prev := Recorded(e, frame, s, draws[..|draws| - 1]);
            prev <= Recorded(e, frame, s, draws) && |Recorded(e, frame, s, draws)| <= |prev| + 1
  {
  }

  /** Spawning more cars only appends to the record. */
  lemma {:induction false} RecordedPrefix(e: Engine, frame: Frame, s: Settings, draws: seq<SpawnDraws>, i: nat)
    requires AllFit(s, draws) && i <= |draws|
    ensures Recorded(e, frame, s, draws[..i]) <= Recorded(e, frame, s, draws)
    decreases |draws|
  {
    if i < |draws| {
      var n := |draws| - 1;
      var early, prev, all := Recorded(e, frame, s, draws[..i]), Recorded(e, frame, s, draws[..n]),
                              Recorded(e, frame, s, draws);
      assert early <= prev by {
        assert draws[..n][..i] == draws[..i];
        RecordedPrefix(e, frame, s, draws[..n], i);
      }
      assert prev <= all by {
        RecordedGrows(e, frame, s, draws);
      }
    } else {
      assert draws[..i] == draws;
    }
  }

  /**
   * The separation the retry loop keeps: when car i is placed by an attempt, that attempt's
   * candidate is clear of every position recorded before it, and its jittered form is the next
   * entry of the whole record; when car i falls back, none of its attempts was clear.
   */
  lemma AcceptedIsSeparated(e: Engine, frame: Frame, s: Settings, draws: seq<SpawnDraws>, i: nat)
    requires AllFit(s, draws) && i < |draws|
    ensures var prev := Recorded(e, frame, s, draws[..i]);
            var all := Recorded(e, frame, s, draws);
            var k := FirstClear(e, prev, frame, s.area, draws[i].candidates, 0, s.attempts);
            (k.Some? ==>
               var c := Candidate(frame, s.area, draws[i].candidates[k.value]);
               Clear(e, prev, c, s.area.minDistance) &&
               |prev| < |all| && all[..|prev|] == prev && all[|prev|] == Jitter(frame, s, c, draws[i].jitter)) &&
            (k.None? ==>
               Recorded(e, frame, s, draws[..i + 1]) == prev &&
               forall a :: 0 <= a < s.attempts ==>
                 !Clear(e, prev, Candidate(frame, s.area, draws[i].candidates[a]), s.area.minDistance))
  {
    var d := draws[i];
    var prev := Recorded(e, frame, s, draws[..i]);
    assert draws[..i + 1][..i] == draws[..i];
    RecordedPrefix(e, frame, s, draws, i + 1);
    FirstClearIsFirst(e, prev, frame, s.area, d.candidates, 0, s.attempts);
  }

  /**
   * The number of cars, of one per entry of `draws`, that found a clear attempt against the
   * positions recorded before them; the others fall back.
   */
  function Placed(e: Engine, frame: Frame, s: Settings, draws: seq<SpawnDraws>): (r: nat)
    requires AllFit(s, draws)
    ensures r <= |draws|
    decreases |draws|
  {
    if draws == [] then 0
    else
      var n := |draws| - 1;
      var prev := Recorded(e, frame, s, draws[..n]);
      var k := FirstClear(e, prev, frame, s.area, draws[n].candidates, 0, s.attempts);
      Placed(e, frame, s, draws[..n]) + (if k.Some? then 1 else 0)
  }

  /** Fallback placements are never recorded: the record holds one entry per placed car. */
  lemma {:induction false} RecordedCountsPlaced(e: Engine, frame: Frame, s: Settings, draws: seq<SpawnDraws>)
    requires AllFit(s, draws)
    ensures |Recorded(e, frame, s, draws)| == Placed(e, frame, s, draws)
    decreases |draws|
  {
    if draws != [] {
      RecordedCountsPlaced(e, frame, s, draws[..|draws| - 1]);
    }
  }

  class AICarPoolManager {
    var enabled: bool
    var aiCarPrefab: Car
    var poolSize: int
    var forwardMin: real
    var forwardMax: real
    var sideRange: real
    var minSpawnDistance: real
    var maxSpawnAttempts: int
    var lateralOffsetMin: real
    var lateralOffsetMax: real
    var forwardOffsetMin: real
    var forwardOffsetMax: real
    var pushStrength: real

    var player: Option<Frame>
    var pool: seq<Car>
    var usedSpawnPositions: seq<Vec3>

    /** The inspector defaults. */
    constructor (prefab: Car)
      ensures enabled && aiCarPrefab == prefab && poolSize == 99
      ensures forwardMin == 20.0 && forwardMax == 220.0 && sideRange == 8.0
      ensures minSpawnDistance == 3.5 && maxSpawnAttempts == 25
      ensures lateralOffsetMin == -0.15 && lateralOffsetMax == 0.15
      ensures forwardOffsetMin == -0.3 && forwardOffsetMax == 0.3 && pushStrength == 1.2
      ensures player == None && pool == [] && usedSpawnPositions == []
    {
      enabled := true;
      aiCarPrefab := prefab;
      poolSize := 99;
      forwardMin := 20.0;
      forwardMax := 220.0;
      sideRange := 8.0;
      minSpawnDistance := 3.5;
      maxSpawnAttempts := 25;
      lateralOffsetMin := -0.15;
      lateralOffsetMax := 0.15;
      forwardOffsetMin := -0.3;
      forwardOffsetMax := 0.3;
      pushStrength := 1.2;
      player := None;
      pool := [];
      usedSpawnPositions := [];
    }

    /**
     * Start: without a Player-tagged object the component disables itself and creates no pool;
     * otherwise it creates the pool and spawns all of it.
     */
    method Start(e: Engine, found: Option<Frame>, draws: seq<SpawnDraws>, hits: seq<seq<nat>>)
      requires pool == []
      requires found.Some? ==> poolSize <= |draws| && poolSize <= |hits| && AllFit(Config(), draws) &&
                               AllInPool(hits, MaxInt(poolSize, 0))
      modifies this`player, this`enabled, this`pool, this`usedSpawnPositions
      ensures player == found
      ensures found.None? ==> !enabled && pool == [] && usedSpawnPositions == old(usedSpawnPositions)
      ensures found.Some? ==>
                var n := MaxInt(poolSize, 0);
                enabled == old(enabled) && |pool| == n &&
                Placement(usedSpawnPositions, pool) ==
                  SpawnAll(e, found.value, Config(), Repeat(aiCarPrefab.(active := false), n), draws[..n], hits) &&
                usedSpawnPositions == Recorded(e, found.value, Config(), draws[..n]) &&
                |usedSpawnPositions| == Placed(e, found.value, Config(), draws[..n]) &&
                (forall i :: 0 <= i < n ==> pool[i].active)
    {
      player := found;
      if player.None? {
        enabled := false;
        return;
      }
      CreatePool();
      ghost var n := MaxInt(poolSize, 0);
      assert pool == Repeat(aiCarPrefab.(active := false), n) && |pool| == n;
      SpawnAllCars(e, draws, hits);
    }

    /** CreatePool: poolSize inactive copies of the prefab (none for a non-positive size). */
    method CreatePool()
      modifies this`pool
      ensures pool == old(pool) + Repeat(aiCarPrefab.(active := false), MaxInt(poolSize, 0))
    {
      var i := 0;
      while i < poolSize
        invariant 0 <= i <= MaxInt(poolSize, 0)
        invariant pool == old(pool) + Repeat(aiCarPrefab.(active := false), i)
      {
        var car := aiCarPrefab.(active := false);
        pool := pool + [car];
        i := i + 1;
      }
    }

    /**
     * SpawnAllCars: forget the used positions, then spawn every pooled car once, in order, by
     * SpawnCar. The record that results depends on the player's frame, the settings and the
     * draws only, and every car ends active.
     */
    method SpawnAllCars(e: Engine, draws: seq<SpawnDraws>, hits: seq<seq<nat>>)
      requires player.Some?
      requires |pool| <= |draws| && |pool| <= |hits| && AllFit(Config(), draws) && AllInPool(hits, |pool|)
      modifies this`pool, this`usedSpawnPositions
      ensures |pool| == old(|pool|)
      ensures Placement(usedSpawnPositions, pool) ==
              SpawnAll(e, player.value, Config(), old(pool), draws[..|pool|], hits)
      ensures usedSpawnPositions == Recorded(e, player.value, Config(), draws[..|pool|])
      ensures |usedSpawnPositions| == Placed(e, player.value, Config(), draws[..|pool|])
      ensures forall i :: 0 <= i < |pool| ==> pool[i].active
    {
      usedSpawnPositions := [];
      var i := 0;
      while i < |pool|
        invariant 0 <= i <= |pool| == old(|pool|)
        invariant forall j :: 0 <= j < i ==> pool[j].active
        invariant Placement(usedSpawnPositions, pool) ==
                  SpawnAll(e, player.value, Config(), old(pool), draws[..i], hits)
      {
        assert draws[..i + 1][..i] == draws[..i];
        ghost var before := Placement(usedSpawnPositions, pool);
        SpawnCar(e, i, draws[i], hits[i]);
        assert SpawnAll(e, player.value, Config(), old(pool), draws[..i + 1], hits) ==
               SpawnStep(e, player.value, Config(), before, i, draws[i], hits[i]);
        i := i + 1;
      }
      RecordedIgnoresPushes(e, player.value, Config(), old(pool), draws[..i], hits);
      RecordedCountsPlaced(e, player.value, Config(), draws[..i]);
    }

    /** The spawn area and separation of this manager. */
    function SpawnArea(): Area
      reads this`forwardMin, this`forwardMax, this`sideRange, this`minSpawnDistance
    {
      Area(forwardMin, forwardMax, sideRange, minSpawnDistance)
    }

    /** The settings of this manager. */
    function Config(): Settings
      reads this`forwardMin, this`forwardMax, this`sideRange, this`minSpawnDistance,
            this`maxSpawnAttempts, this`lateralOffsetMin, this`lateralOffsetMax,
            this`forwardOffsetMin, this`forwardOffsetMax, this`pushStrength
    {
      Settings(SpawnArea(), MaxInt(maxSpawnAttempts, 0), lateralOffsetMin, lateralOffsetMax,
               forwardOffsetMin, forwardOffsetMax, pushStrength)
    }

    /** GetRandomSpawnPosition: a point of the spawn area ahead of the player. */
    method GetRandomSpawnPosition(uForward: real, uSide: real) returns (pos: Vec3)
      requires player.Some? && Unit(uForward) && Unit(uSide)
      ensures pos == Candidate(player.value, SpawnArea(), (uForward, uSide))
    {
      var forward := Range(forwardMin, forwardMax, uForward);
      var side := Range(-sideRange, sideRange, uSide);
      pos := Add(Add(player.value.position, Scale(player.value.forward, forward)),
                 Scale(player.value.right, side));
    }

    /** IsPositionValid: no used position lies strictly closer than minSpawnDistance. */
    method IsPositionValid(e: Engine, pos: Vec3) returns (ok: bool)
      ensures ok <==> Clear(e, usedSpawnPositions, pos, minSpawnDistance)
    {
      var i := 0;
      while i < |usedSpawnPositions|
        invariant 0 <= i <= |usedSpawnPositions|
        invariant forall k :: 0 <= k < i ==> Distance(e, pos, usedSpawnPositions[k]) >= minSpawnDistance
      {
        if Distance(e, pos, usedSpawnPositions[i]) < minSpawnDistance {
          return false;
        }
        i := i + 1;
      }
      return true;
    }

    /**
     * SpawnCar: the first clear candidate among the first maxSpawnAttempts is jittered, recorded,
     * given to the car, which is activated and pushes its neighbours away; when none is clear the
     * car is placed at the fallback position, which is not recorded.
     */
    method SpawnCar(e: Engine, index: nat, d: SpawnDraws, hits: seq<nat>)
      requires player.Some? && index < |pool| && Fits(Config(), d) && HitsInPool(hits, |pool|)
      modifies this`pool, this`usedSpawnPositions
      ensures Placement(usedSpawnPositions, pool) ==
              SpawnStep(e, player.value, Config(), Placement(old(usedSpawnPositions), old(pool)), index, d, hits)
      ensures |pool| == old(|pool|) && pool[index].active
      ensures forall j :: 0 <= j < |pool| && old(pool)[j].active ==> pool[j].active
    {
      var found, spawnPos := FindSpawnPosition(e, d);
      if found.Some? {
        PlaceSpawned(e, index, spawnPos, d.jitter, hits);
      } else {
        PlaceFallback(index, d.fallbackSide);
      }
    }

    /**
     * SpawnCar's retry loop: the first of the first maxSpawnAttempts candidates that
     * IsPositionValid accepts, with its position.
     */
    method FindSpawnPosition(e: Engine, d: SpawnDraws) returns (found: Option<nat>, spawnPos: Vec3)
      requires player.Some? && Fits(Config(), d)
      ensures found == FirstClear(e, usedSpawnPositions, player.value, SpawnArea(), d.candidates, 0,
                                  MaxInt(maxSpawnAttempts, 0))
      ensures found.Some? ==> spawnPos == Candidate(player.value, SpawnArea(), d.candidates[found.value])
    {
      ghost var n := MaxInt(maxSpawnAttempts, 0);
      var attempt := 0;
      while attempt < maxSpawnAttempts
        invariant 0 <= attempt <= n
        invariant FirstClear(e, usedSpawnPositions, player.value, SpawnArea(), d.candidates, 0, n) ==
                  FirstClear(e, usedSpawnPositions, player.value, SpawnArea(), d.candidates, attempt, n)
      {
        spawnPos := GetRandomSpawnPosition(d.candidates[attempt].0, d.candidates[attempt].1);
        var ok := IsPositionValid(e, spawnPos);
        if ok {
          return Some(attempt), spawnPos;
        }
        attempt := attempt + 1;
      }
      return None, player.value.position;
    }

    /**
     * SpawnCar's accepted branch: the micro offsets, the car's new pose, the recorded position
     * (after the offsets), activation, then the push of the neighbours.
     */
    method PlaceSpawned(e: Engine, index: nat, candidate: Vec3, jitter: (real, real), hits: seq<nat>)
      requires player.Some? && index < |pool| && Unit(jitter.0) && Unit(jitter.1)
      requires HitsInPool(hits, |pool|)
      modifies this`pool, this`usedSpawnPositions
      ensures var spawnPos := Jitter(player.value, Config(), candidate, jitter);
              usedSpawnPositions == old(usedSpawnPositions) + [spawnPos] &&
              pool == PushAll(e, old(pool)[index := Car(spawnPos, player.value.forward, true)], index,
                              hits, pushStrength)
      ensures |pool| == old(|pool|) && pool[index].active
      ensures forall j :: 0 <= j < |pool| && old(pool)[j].active ==> pool[j].active
    {
      var spawnPos := candidate;
      spawnPos := Add(spawnPos, Scale(player.value.right, Range(lateralOffsetMin, lateralOffsetMax, jitter.0)));
      spawnPos := Add(spawnPos, Scale(player.value.forward, Range(forwardOffsetMin, forwardOffsetMax, jitter.1)));
      pool := pool[index := Car(spawnPos, player.value.forward, false)];
      usedSpawnPositions := usedSpawnPositions + [spawnPos];
      pool := pool[index := pool[index].(active := true)];
      ghost var placed := old(pool)[index := Car(spawnPos, player.value.forward, true)];
      assert pool == placed;
      ResolveSpawnOverlap(e, index, hits);
      PushAllFrame(e, placed, index, hits, pushStrength, index);
      forall j | 0 <= j < |pool| && old(pool)[j].active
        ensures pool[j].active
      {
        PushAllFrame(e, placed, index, hits, pushStrength, j);
      }
    }

    /** SpawnCar's fallback: forwardMax ahead, a random side offset, activated, not recorded. */
    method PlaceFallback(index: nat, uSide: real)
      requires player.Some? && index < |pool| && Unit(uSide)
      modifies this`pool
      ensures pool == old(pool)[index := Car(Fallback(player.value, SpawnArea(), uSide), player.value.forward, true)]
    {
      var fallbackPos := At(player.value, forwardMax, Range(-sideRange, sideRange, uSide));
      pool := pool[index := Car(fallbackPos, player.value.forward, false)];
      pool := pool[index := pool[index].(active := true)];
    }

    /**
     * ResolveSpawnOverlap: every car the overlap box reports, other than the spawned car itself,
     * is pushed away from it; nothing else changes.
     */
    method ResolveSpawnOverlap(e: Engine, spawned: nat, hits: seq<nat>)
      requires spawned < |pool| && HitsInPool(hits, |pool|)
      modifies this`pool
      ensures pool == PushAll(e, old(pool), spawned, hits, pushStrength)
    {
      var k := 0;
      while k < |hits|
        invariant 0 <= k <= |hits| && |pool| == old(|pool|)
        invariant HitsInPool(hits[k..], |pool|)
        invariant PushAll(e, old(pool), spawned, hits, pushStrength) ==
                  PushAll(e, pool, spawned, hits[k..], pushStrength)
      {
        var h := hits[k];
        assert hits[k..][0] == h && hits[k..][1..] == hits[k + 1..];
        ghost var next := PushOne(e, pool, spawned, h, pushStrength);
        assert PushAll(e, pool, spawned, hits[k..], pushStrength) ==
               PushAll(e, next, spawned, hits[k + 1..], pushStrength);
        if h == spawned {
          k := k + 1;
          continue;
        }
        var dir := Sub(pool[h].position, pool[spawned].position);
        dir := Vec3(dir.x, 0.0, dir.z);
        if SqrMagnitude(dir) < 0.01 {
          dir := e.lookRight(pool[spawned].facing);
        }
        pool := pool[h := pool[h].(position := Add(pool[h].position, Scale(Normalized(e, dir), pushStrength)))];
        assert pool == next;
        k := k + 1;
      }
      assert hits[k..] == [];
    }
  }
}
