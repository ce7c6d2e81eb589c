/**
 * The drive plan of an AI car (AICarController.BuildDrivePlan and its two helpers), as
 * specification functions over the waypoint path.
 *
 * Every consecutive waypoint pair (a, b) contributes a `Piece`: one straight segment, or --
 * when the pair turns by more than 3 degrees from the previous pair -- `CurveSteps` curved
 * sub-segments of equal length. Besides its segments a piece records the direction the
 * position accumulator `pos` advanced along for each segment, and where `pos` ended.
 */
module DrivePlan {
  import opened Unity

  datatype DriveSegment = DriveSegment(startPos: Vec3, direction: Vec3, distance: real)

  datatype Piece = Piece(segs: seq<DriveSegment>, advance: seq<Vec3>, end: Vec3)

  /**
   * What of the controller shapes its plan, fixed for a whole build: the lane offset, the
   * number of sub-segments per curve and the lateral steering of curved sub-segments
   * (`TuningOf` computes the last two from the controller's fields).
   */
  datatype Tuning = Tuning(laneOffset: real, steps: CurveCount, curveLateral: real)

  /** A curve is split into at least two sub-segments. */
  type CurveCount = n: int | n >= 2 witness 2

  /** A pair turns when its signed angle to the previous pair exceeds this, in degrees. */
  const TurnThreshold: real := 3.0

  /** SignedTurnAngle: the unsigned angle, negated when the turn is to the left of `up`. */
  function SignedTurnAngle(e: Engine, from: Vec3, to: Vec3): (r: real)
    ensures r == e.angle(from, to) || r == -e.angle(from, to)
    ensures Cross(from, to).y >= 0.0 ==> r == e.angle(from, to)
    ensures Cross(from, to).y < 0.0 ==> r == -e.angle(from, to)
  {
    e.angle(from, to) * Sign(Cross(from, to).y)
  }

  /** The number of curved sub-segments: `Mathf.Max(2, Mathf.RoundToInt(turnSmoothness))`. */
  function CurveSteps(turnSmoothness: real): (n: CurveCount)
    ensures n as real >= turnSmoothness - 0.5
    ensures turnSmoothness < 2.5 ==> n == 2
    ensures n == 2 || n as real <= turnSmoothness + 0.5
    ensures turnSmoothness >= 1.5 ==> n as real <= turnSmoothness + 0.5
  {
    MaxInt(2, RoundToInt(turnSmoothness))
  }

  /**
   * The tuning of a build: `Mathf.Max(2, Mathf.RoundToInt(turnSmoothness))` sub-segments per
   * curve, each steering sideways by `laneOffset * turnStrength * 0.1`.
   */
  function TuningOf(laneOffset: real, turnSmoothness: real, turnStrength: real): (t: Tuning)
    ensures t.laneOffset == laneOffset
    ensures t.steps == CurveSteps(turnSmoothness) && t.steps as real >= turnSmoothness - 0.5
    ensures t.curveLateral == laneOffset * turnStrength * 0.1
    ensures turnStrength == 0.0 ==> t.curveLateral == 0.0
  {
    Tuning(laneOffset, CurveSteps(turnSmoothness), laneOffset * turnStrength * 0.1)
  }

  /** `(dir + Vector3.Cross(dir, Vector3.up) * lateral).normalized` */
  function Steered(e: Engine, dir: Vec3, lateral: real): Vec3
  {
    Normalized(e, Add(dir, Scale(Cross(dir, Up), lateral)))
  }

  /** AddStraightSegmentAbsolute: the segment steers with the lane offset, and `pos` follows it. */
  function Straight(e: Engine, pos: Vec3, dir: Vec3, dist: real, laneOffset: real): Piece
  {
    var finalDir := Steered(e, dir, laneOffset * 0.1);
    Piece([DriveSegment(pos, finalDir, dist)], [finalDir], Add(pos, Scale(finalDir, dist)))
  }

  /**
   * The last k iterations of AddCurvedSegmentAbsolute's loop: rotate the base direction, emit a
   * segment steering with the lateral offset, advance `pos` along the base direction only.
   */
  function Curve(e: Engine, pos: Vec3, baseDir: Vec3, stepAngle: real, stepDist: real,
                 lateral: real, k: nat): (p: Piece)
    ensures |p.segs| == |p.advance| == k
    decreases k
  {
    if k == 0 then Piece([], [], pos)
    else
      var next := e.rotateUp(stepAngle, baseDir);
      var steer := Steered(e, next, lateral);
      var rest := Curve(e, Add(pos, Scale(next, stepDist)), next, stepAngle, stepDist, lateral, k - 1);
      Piece([DriveSegment(pos, steer, stepDist)] + rest.segs, [next] + rest.advance, rest.end)
  }

  /** One step of a curve: its first sub-segment, then the rest of the curve from where `pos` lands. */
  lemma CurveStep(e: Engine, pos: Vec3, baseDir: Vec3, stepAngle: real, stepDist: real,
                  lateral: real, k: nat)
    requires k > 0
    ensures var next := e.rotateUp(stepAngle, baseDir);
            var rest := Curve(e, Add(pos, Scale(next, stepDist)), next, stepAngle, stepDist, lateral, k - 1);
            var p := Curve(e, pos, baseDir, stepAngle, stepDist, lateral, k);
            p.segs == [DriveSegment(pos, Steered(e, next, lateral), stepDist)] + rest.segs &&
            p.end == rest.end
  {
  }

  /** The travel direction of pair i, from path[i] to path[i + 1]. */
  function PairDir(e: Engine, path: seq<Vec3>, i: nat): Vec3
    requires i + 1 < |path|
  {
    Normalized(e, Sub(path[i + 1], path[i]))
  }

  /** The signed angle between pair i - 1 and pair i. */
  function PairTurn(e: Engine, path: seq<Vec3>, i: nat): real
    requires 0 < i && i + 1 < |path|
  {
    SignedTurnAngle(e, PairDir(e, path, i - 1), PairDir(e, path, i))
  }

  /** Pair i is split into a curve; pair 0 never is. */
  predicate IsTurn(e: Engine, path: seq<Vec3>, i: nat)
    requires i + 1 < |path|
  {
    i > 0 && Abs(PairTurn(e, path, i)) > TurnThreshold
  }

  /** What the loop body of BuildDrivePlan emits for pair i, starting at `pos`. */
  function PairPiece(e: Engine, path: seq<Vec3>, i: nat, pos: Vec3, t: Tuning): Piece
    requires i + 1 < |path|
  {
    var totalDist := Distance(e, path[i], path[i + 1]);
    if IsTurn(e, path, i) then
      // AddCurvedSegmentAbsolute(pos, previous direction, signed angle, totalDist)
      Curve(e, pos, PairDir(e, path, i - 1), PairTurn(e, path, i) / t.steps as real,
            totalDist / t.steps as real, t.curveLateral, t.steps)
    else
      Straight(e, pos, PairDir(e, path, i), totalDist, t.laneOffset)
  }

  /** The segments emitted for pairs i, i + 1, ... of the path, `pos` starting at `pos`. */
  function PlanFrom(e: Engine, path: seq<Vec3>, i: nat, pos: Vec3, t: Tuning): Piece
    decreases |path| - i
  {
    if i + 1 >= |path| then Piece([], [], pos)
    else
      var p := PairPiece(e, path, i, pos, t);
      var rest := PlanFrom(e, path, i + 1, p.end, t);
      Piece(p.segs + rest.segs, p.advance + rest.advance, rest.end)
  }

  /** BuildDrivePlan: empty for fewer than two waypoints, otherwise every pair's piece in order. */
  function Plan(e: Engine, path: seq<Vec3>, start: Vec3, t: Tuning): seq<DriveSegment>
  {
    if |path| < 2 then [] else PlanFrom(e, path, 0, start, t).segs
  }

  /* ---------------- how many segments ---------------- */

  function PieceCount(e: Engine, path: seq<Vec3>, i: nat, t: Tuning): nat
    requires i + 1 < |path|
  {
    if IsTurn(e, path, i) then t.steps else 1
  }

  function CountFrom(e: Engine, path: seq<Vec3>, i: nat, t: Tuning): nat
    decreases |path| - i
  {
    if i + 1 >= |path| then 0 else PieceCount(e, path, i, t) + CountFrom(e, path, i + 1, t)
  }

  /** Each pair emits one segment, or CurveSteps segments when it turns. */
  lemma {:induction false} PlanCount(e: Engine, path: seq<Vec3>, i: nat, pos: Vec3, t: Tuning)
    ensures |PlanFrom(e, path, i, pos, t).segs| == CountFrom(e, path, i, t)
    ensures |PlanFrom(e, path, i, pos, t).advance| == CountFrom(e, path, i, t)
    decreases |path| - i
  {
    if i + 1 < |path| {
      var p := PairPiece(e, path, i, pos, t);
      PlanCount(e, path, i + 1, p.end, t);
    }
  }

  /** Pair 0 is always a single straight segment starting at the plan's start. */
  lemma FirstPairIsStraight(e: Engine, path: seq<Vec3>, start: Vec3, t: Tuning)
    requires |path| >= 2
    ensures |Plan(e, path, start, t)| >= 1
    ensures Plan(e, path, start, t)[0] ==
            DriveSegment(start, Steered(e, PairDir(e, path, 0), t.laneOffset * 0.1),
                         Distance(e, path[0], path[1]))
  {
    var p := PairPiece(e, path, 0, start, t);
    assert p == Straight(e, start, PairDir(e, path, 0), Distance(e, path[0], path[1]), t.laneOffset);
  }

  /* ---------------- how far ---------------- */

  function SumDist(segs: seq<DriveSegment>): real
  {
    if segs == [] then 0.0 else segs[0].distance + SumDist(segs[1..])
  }

  lemma {:induction false} SumDistAppend(a: seq<DriveSegment>, b: seq<DriveSegment>)
    ensures SumDist(a + b) == SumDist(a) + SumDist(b)
  {
    if a == [] {
      assert a + b == b;
    } else {
      assert (a + b)[0] == a[0];
      assert (a + b)[1..] == a[1..] + b;
      SumDistAppend(a[1..], b);
    }
  }

  /** The length of the polyline from waypoint i to the last one. */
  function PathLength(e: Engine, path: seq<Vec3>, i: nat): real
    decreases |path| - i
  {
    if i + 1 >= |path| then 0.0 else Distance(e, path[i], path[i + 1]) + PathLength(e, path, i + 1)
  }

  lemma {:induction false} CurveDistance(e: Engine, pos: Vec3, baseDir: Vec3, stepAngle: real,
                                         stepDist: real, lateral: real, k: nat)
    ensures SumDist(Curve(e, pos, baseDir, stepAngle, stepDist, lateral, k).segs) == k as real * stepDist
    decreases k
  {
    if k > 0 {
      var next := e.rotateUp(stepAngle, baseDir);
      var rest := Curve(e, Add(pos, Scale(next, stepDist)), next, stepAngle, stepDist, lateral, k - 1);
      CurveDistance(e, Add(pos, Scale(next, stepDist)), next, stepAngle, stepDist, lateral, k - 1);
      var p := Curve(e, pos, baseDir, stepAngle, stepDist, lateral, k);
      assert p.segs[1..] == rest.segs;
      assert (k - 1) as real * stepDist + stepDist == k as real * stepDist;
    }
  }

  /**
   * The sub-segments of a curve (AddCurvedSegmentAbsolute splits totalDist into t.steps equal
   * parts) add up to the distance between its two waypoints.
   */
  lemma CurvedPieceDistance(e: Engine, pos: Vec3, fromDir: Vec3, signedAngle: real,
                            totalDist: real, t: Tuning)
    ensures SumDist(Curve(e, pos, fromDir, signedAngle / t.steps as real, totalDist / t.steps as real,
                          t.curveLateral, t.steps).segs) == totalDist
  {
    CurveDistance(e, pos, fromDir, signedAngle / t.steps as real, totalDist / t.steps as real,
                  t.curveLateral, t.steps);
    EqualPartsSum(t.steps as real, totalDist);
  }

  /** n equal parts of d add back up to d. */
  lemma EqualPartsSum(n: real, d: real)
    requires n != 0.0
    ensures n * (d / n) == d
  {
  }

  /** The plan's segment lengths add up to the length of the waypoint polyline. */
  lemma {:induction false} PlanDistance(e: Engine, path: seq<Vec3>, i: nat, pos: Vec3, t: Tuning)
    ensures SumDist(PlanFrom(e, path, i, pos, t).segs) == PathLength(e, path, i)
    decreases |path| - i
  {
    if i + 1 < |path| {
      var p := PairPiece(e, path, i, pos, t);
      var rest := PlanFrom(e, path, i + 1, p.end, t);
      PlanDistance(e, path, i + 1, p.end, t);
      SumDistAppend(p.segs, rest.segs);
      if IsTurn(e, path, i) {
        CurvedPieceDistance(e, pos, PairDir(e, path, i - 1), PairTurn(e, path, i),
                            Distance(e, path[i], path[i + 1]), t);
      }
    }
  }

  /* ---------------- where each segment starts ---------------- */

  /**
   * The accumulator chain: the first segment starts at `start`, each later one where the
   * previous one's start plus its advance direction times its distance lands, and the last
   * landing point is `end`.
   */
  predicate Chained(segs: seq<DriveSegment>, advance: seq<Vec3>, start: Vec3, end: Vec3)
    decreases |segs|
  {
    |segs| == |advance| &&
    if segs == [] then end == start
    else segs[0].startPos == start &&
         Chained(segs[1..], advance[1..], Add(start, Scale(advance[0], segs[0].distance)), end)
  }

  lemma {:induction false} ChainedAppend(s1: seq<DriveSegment>, a1: seq<Vec3>,
                                         s2: seq<DriveSegment>, a2: seq<Vec3>,
                                         start: Vec3, mid: Vec3, end: Vec3)
    requires Chained(s1, a1, start, mid) && Chained(s2, a2, mid, end)
    ensures Chained(s1 + s2, a1 + a2, start, end)
    decreases |s1|
  {
    if s1 == [] {
      assert s1 + s2 == s2 && a1 + a2 == a2;
    } else {
      assert (s1 + s2)[0] == s1[0] && (a1 + a2)[0] == a1[0];
      assert (s1 + s2)[1..] == s1[1..] + s2;
      assert (a1 + a2)[1..] == a1[1..] + a2;
      ChainedAppend(s1[1..], a1[1..], s2, a2, Add(start, Scale(a1[0], s1[0].distance)), mid, end);
    }
  }

  /** Consecutive segments of a chain are joined by the advance direction. */
  lemma {:induction false} ChainedStep(segs: seq<DriveSegment>, advance: seq<Vec3>,
                                       start: Vec3, end: Vec3, j: nat)
    requires Chained(segs, advance, start, end)
    requires j + 1 < |segs|
    ensures segs[j + 1].startPos == Add(segs[j].startPos, Scale(advance[j], segs[j].distance))
    decreases j
  {
    if j > 0 {
      ChainedStep(segs[1..], advance[1..], Add(start, Scale(advance[0], segs[0].distance)), end, j - 1);
    } else {
      var rest := segs[1..];
      assert rest[0] == segs[1];
    }
  }

  lemma {:induction false} CurveChained(e: Engine, pos: Vec3, baseDir: Vec3, stepAngle: real,
                                        stepDist: real, lateral: real, k: nat)
    ensures var p := Curve(e, pos, baseDir, stepAngle, stepDist, lateral, k);
            Chained(p.segs, p.advance, pos, p.end)
    decreases k
  {
    if k > 0 {
      var next := e.rotateUp(stepAngle, baseDir);
      CurveChained(e, Add(pos, Scale(next, stepDist)), next, stepAngle, stepDist, lateral, k - 1);
      var p := Curve(e, pos, baseDir, stepAngle, stepDist, lateral, k);
      var rest := Curve(e, Add(pos, Scale(next, stepDist)), next, stepAngle, stepDist, lateral, k - 1);
      assert p.segs[1..] == rest.segs && p.advance[1..] == rest.advance;
    }
  }

  lemma StraightChained(e: Engine, pos: Vec3, dir: Vec3, dist: real, laneOffset: real)
    ensures var p := Straight(e, pos, dir, dist, laneOffset); Chained(p.segs, p.advance, pos, p.end)
  {
    var p := Straight(e, pos, dir, dist, laneOffset);
    assert p.segs[1..] == [] && p.advance[1..] == [];
  }

  lemma PairChained(e: Engine, path: seq<Vec3>, i: nat, pos: Vec3, t: Tuning)
    requires i + 1 < |path|
    ensures var p := PairPiece(e, path, i, pos, t); Chained(p.segs, p.advance, pos, p.end)
  {
    var totalDist := Distance(e, path[i], path[i + 1]);
    if IsTurn(e, path, i) {
      CurveChained(e, pos, PairDir(e, path, i - 1), PairTurn(e, path, i) / t.steps as real,
                   totalDist / t.steps as real, t.curveLateral, t.steps);
    } else {
      StraightChained(e, pos, PairDir(e, path, i), totalDist, t.laneOffset);
    }
  }

  /** The whole plan is one accumulator chain from the start position. */
  lemma {:induction false} PlanChained(e: Engine, path: seq<Vec3>, i: nat, pos: Vec3, t: Tuning)
    ensures var p := PlanFrom(e, path, i, pos, t); Chained(p.segs, p.advance, pos, p.end)
    decreases |path| - i
  {
    if i + 1 < |path| {
      var p := PairPiece(e, path, i, pos, t);
      var rest := PlanFrom(e, path, i + 1, p.end, t);
      PairChained(e, path, i, pos, t);
      PlanChained(e, path, i + 1, p.end, t);
      ChainedAppend(p.segs, p.advance, rest.segs, rest.advance, pos, p.end, rest.end);
    }
  }

  /**
   * Each segment after the first starts at the previous start plus the advance direction times
   * the previous distance: the segment's own direction on a straight pair, the rotated base
   * direction (not the steering direction) on a curved one.
   */
  lemma SegmentsAreJoined(e: Engine, path: seq<Vec3>, start: Vec3, t: Tuning, j: nat)
    requires |path| >= 2
    requires j + 1 < |Plan(e, path, start, t)|
    ensures var p := PlanFrom(e, path, 0, start, t); |p.advance| == |p.segs|
    ensures var p := PlanFrom(e, path, 0, start, t);
            p.segs[j + 1].startPos == Add(p.segs[j].startPos, Scale(p.advance[j], p.segs[j].distance))
  {
    var p := PlanFrom(e, path, 0, start, t);
    PlanChained(e, path, 0, start, t);
    ChainedStep(p.segs, p.advance, start, p.end, j);
  }

  /** A straight segment's position advances along its own (lane-offset) direction. */
  lemma StraightAdvancesAlongItsDirection(e: Engine, pos: Vec3, dir: Vec3, dist: real, laneOffset: real)
    ensures var p := Straight(e, pos, dir, dist, laneOffset); p.advance == [p.segs[0].direction]
  {
  }

  /**
   * On a curve the lane offset and the curve strength shape only the steering directions: the
   * start positions, the advance directions and the end position do not depend on them.
   */
  lemma {:induction false} CurveTrackIgnoresLateral(e: Engine, pos: Vec3, baseDir: Vec3,
                                                    stepAngle: real, stepDist: real,
                                                    lateral1: real, lateral2: real, k: nat)
    ensures var p1 := Curve(e, pos, baseDir, stepAngle, stepDist, lateral1, k);
            var p2 := Curve(e, pos, baseDir, stepAngle, stepDist, lateral2, k);
            p1.end == p2.end && p1.advance == p2.advance &&
            forall j :: 0 <= j < k ==>
              p1.segs[j].startPos == p2.segs[j].startPos && p1.segs[j].distance == p2.segs[j].distance
    decreases k
  {
    if k > 0 {
      var next := e.rotateUp(stepAngle, baseDir);
      var q := Add(pos, Scale(next, stepDist));
      CurveTrackIgnoresLateral(e, q, next, stepAngle, stepDist, lateral1, lateral2, k - 1);
      var p1 := Curve(e, pos, baseDir, stepAngle, stepDist, lateral1, k);
      var p2 := Curve(e, pos, baseDir, stepAngle, stepDist, lateral2, k);
      var r1 := Curve(e, q, next, stepAngle, stepDist, lateral1, k - 1);
      var r2 := Curve(e, q, next, stepAngle, stepDist, lateral2, k - 1);
      forall j | 0 <= j < k
        ensures p1.segs[j].startPos == p2.segs[j].startPos && p1.segs[j].distance == p2.segs[j].distance
      {
        if j > 0 {
          assert p1.segs[j] == r1.segs[j - 1] && p2.segs[j] == r2.segs[j - 1];
        }
      }
    }
  }

  /** With the curve strength at its default of zero, curved steering is the plain base direction. */
  lemma {:induction false} CurveWithoutStrength(e: Engine, pos: Vec3, baseDir: Vec3, stepAngle: real,
                                                stepDist: real, k: nat, j: nat)
    requires j < k
    ensures var p := Curve(e, pos, baseDir, stepAngle, stepDist, 0.0, k);
            p.segs[j].direction == Normalized(e, p.advance[j])
    decreases k
  {
    var next := e.rotateUp(stepAngle, baseDir);
    assert Add(next, Scale(Cross(next, Up), 0.0)) == next;
    if j > 0 {
      CurveWithoutStrength(e, Add(pos, Scale(next, stepDist)), next, stepAngle, stepDist, k - 1, j - 1);
    }
  }

  /* ---------------- a plan over straight pairs retraces the path ---------------- */

  /** Two non-negative reals with equal squares are equal. */
  lemma SquareRootUnique(a: real, b: real)
    requires a >= 0.0 && b >= 0.0 && a * a == b * b
    ensures a == b
  {
    assert (a - b) * (a + b) == 0.0;
    if a + b == 0.0 {
    } else {
      assert a - b == 0.0;
    }
  }

  /** Distance(a, b) is the magnitude of b - a as well as of a - b. */
  lemma DistanceSymmetric(e: Engine, a: Vec3, b: Vec3)
    requires MagnitudeIsLength(e)
    ensures Distance(e, a, b) == e.magnitude(Sub(b, a))
  {
    var m1, m2 := e.magnitude(Sub(a, b)), e.magnitude(Sub(b, a));
    assert SqrMagnitude(Sub(a, b)) == SqrMagnitude(Sub(b, a));
    SquareRootUnique(m1, m2);
  }

  /** Normalizing a unit vector leaves it unchanged. */
  lemma NormalizedUnit(e: Engine, u: Vec3)
    requires MagnitudeIsLength(e) && NormalizedScales(e)
    requires SqrMagnitude(u) == 1.0
    ensures Normalized(e, u) == u
  {
    SquareRootUnique(e.magnitude(u), 1.0);
    assert e.normalized(u) == Scale(u, 1.0 / e.magnitude(u));
  }

  /** With no lane offset, a straight segment from a toward b, as long as a to b, ends on b. */
  lemma StraightLandsOnNext(e: Engine, a: Vec3, b: Vec3)
    requires MagnitudeIsLength(e) && NormalizedScales(e)
    requires e.magnitude(Sub(b, a)) > 0.00001
    ensures Straight(e, a, Normalized(e, Sub(b, a)), Distance(e, a, b), 0.0).end == b
  {
    var v := Sub(b, a);
    var m := e.magnitude(v);
    var u := Normalized(e, v);
    assert u == Scale(v, 1.0 / m);
    NormalizedIsUnit(e, v);
    assert Add(u, Scale(Cross(u, Up), 0.0 * 0.1)) == u;
    NormalizedUnit(e, u);
    DistanceSymmetric(e, a, b);
    ScaleBack(v, m);
  }

  lemma ScaleBack(v: Vec3, m: real)
    requires m != 0.0
    ensures Scale(Scale(v, 1.0 / m), m) == v
  {
    var k := 1.0 / m;
    assert k * m == 1.0;
    assert v.x * k * m == v.x * (k * m);
    assert v.y * k * m == v.y * (k * m);
    assert v.z * k * m == v.z * (k * m);
  }

  /** A path none of whose pairs turns, and whose consecutive waypoints are distinct. */
  ghost predicate StraightPath(e: Engine, path: seq<Vec3>)
  {
    (forall j :: 0 <= j < |path| - 1 ==> !IsTurn(e, path, j)) &&
    (forall j :: 0 <= j < |path| - 1 ==> e.magnitude(Sub(path[j + 1], path[j])) > 0.00001)
  }

  /**
   * Started on a waypoint with no lane offset, the plan of a path without turns has one segment
   * per pair, the j-th starting on waypoint j and as long as pair j, and it ends on the last
   * waypoint: the accumulator retraces the polyline.
   */
  lemma {:induction false} StraightPlanRetracesPath(e: Engine, path: seq<Vec3>, i: nat, t: Tuning)
    requires MagnitudeIsLength(e) && NormalizedScales(e) && StraightPath(e, path) && t.laneOffset == 0.0
    requires i < |path|
    ensures var p := PlanFrom(e, path, i, path[i], t);
            |p.segs| == |path| - 1 - i && p.end == path[|path| - 1] &&
            forall j :: 0 <= j < |p.segs| ==>
              p.segs[j].startPos == path[i + j] && p.segs[j].distance == Distance(e, path[i + j], path[i + j + 1])
    decreases |path| - i
  {
    if i + 1 < |path| {
      var p := PairPiece(e, path, i, path[i], t);
      assert !IsTurn(e, path, i);
      StraightLandsOnNext(e, path[i], path[i + 1]);
      assert p.end == path[i + 1];
      StraightPlanRetracesPath(e, path, i + 1, t);
      var rest := PlanFrom(e, path, i + 1, path[i + 1], t);
      var all := PlanFrom(e, path, i, path[i], t);
      assert all.segs == p.segs + rest.segs;
      forall j | 0 <= j < |all.segs|
        ensures all.segs[j].startPos == path[i + j]
        ensures all.segs[j].distance == Distance(e, path[i + j], path[i + j + 1])
      {
        if j > 0 {
          assert all.segs[j] == rest.segs[j - 1];
        }
      }
    }
  }
}
