/**
 * AICarSplineFollower: a cursor over a fixed array of waypoints. The getters read the current
 * waypoint, AdvanceWaypoint moves the cursor one step and wraps at the end, SnapToSpline puts
 * a car on the current waypoint. Every operation is guarded against an empty array.
 */
module Spline {
  import opened Unity

  /** A waypoint transform: its position and its forward axis. */
  datatype Pose = Pose(position: Vec3, forward: Vec3)

  /** The transform of the car SnapToSpline moves; its rotation is kept as its forward axis. */
  class CarTransform {
    var position: Vec3
    var forward: Vec3

    constructor (position: Vec3, forward: Vec3)
      ensures this.position == position && this.forward == forward
    {
      this.position := position;
      this.forward := forward;
    }
  }

  /** One AdvanceWaypoint on a cursor over n waypoints: nothing when there are none. */
  function Next(i: nat, n: nat): (r: nat)
    ensures n == 0 ==> r == i
    ensures n > 0 ==> r < n
    ensures n > 0 && i == n - 1 ==> r == 0
    ensures i + 1 < n ==> r == i + 1
  {
    if n == 0 then i else (i + 1) % n
  }

  /** k AdvanceWaypoint calls in a row. */
  function Advance(i: nat, n: nat, k: nat): nat
  {
    if k == 0 then i else Next(Advance(i, n, k - 1), n)
  }

  /** Advancing a + b times is advancing a times, then b times. */
  lemma {:induction false} AdvanceSplits(i: nat, n: nat, a: nat, b: nat)
    ensures Advance(i, n, a + b) == Advance(Advance(i, n, a), n, b)
  {
    if b > 0 {
      AdvanceSplits(i, n, a, b - 1);
    }
  }

  /** Short of the end of the array, k advances move the cursor k places on. */
  lemma {:induction false} AdvanceClimbs(i: nat, n: nat, k: nat)
    requires i + k < n
    ensures Advance(i, n, k) == i + k
  {
    if k > 0 {
      AdvanceClimbs(i, n, k - 1);
    }
  }

  /** n advances over n waypoints bring the cursor back to where it started. */
  lemma FullLapReturns(i: nat, n: nat)
    requires i < n
    ensures Advance(i, n, n) == i
  {
    AdvanceClimbs(i, n, n - 1 - i);
    assert Advance(i, n, n - i) == 0;
    AdvanceSplits(i, n, n - i, i);
    if i > 0 {
      AdvanceClimbs(0, n, i);
    }
  }

  /** With no waypoints, any number of advances leaves the cursor alone. */
  lemma {:induction false} EmptyNeverAdvances(i: nat, k: nat)
    ensures Advance(i, 0, k) == i
  {
    if k > 0 {
      EmptyNeverAdvances(i, k - 1);
    }
  }

  class AICarSplineFollower {
    var waypoints: seq<Pose>
    var index: nat
    /** The follower's own transform position. */
    var position: Vec3

    /** The cursor points into the array whenever the array is not empty. */
    predicate Valid()
      reads this
    {
      waypoints == [] || index < |waypoints|
    }

    constructor (waypoints: seq<Pose>, position: Vec3)
      ensures Valid() && this.waypoints == waypoints && index == 0 && this.position == position
    {
      this.waypoints := waypoints;
      index := 0;
      this.position := position;
    }

    /** GetForwardDirection: the current waypoint's forward axis, `Vector3.forward` with none. */
    function GetForwardDirection(): (r: Vec3)
      reads this
      requires Valid()
      ensures waypoints == [] ==> r == Forward
      ensures waypoints != [] ==> r == waypoints[index].forward
    {
      if |waypoints| == 0 then Forward else waypoints[index].forward
    }

    /** GetCurrentWaypointPosition: the current waypoint's position, the follower's own with none. */
    function GetCurrentWaypointPosition(): (r: Vec3)
      reads this
      requires Valid()
      ensures waypoints == [] ==> r == position
      ensures waypoints != [] ==> r == waypoints[index].position
    {
      if |waypoints| == 0 then position else waypoints[index].position
    }

    /** AdvanceWaypoint: one step of the cursor, wrapping from the last waypoint to the first. */
    method AdvanceWaypoint()
      requires Valid()
      modifies this`index
      ensures Valid() && index == Next(old(index), |waypoints|)
    {
      if |waypoints| == 0 {
        return;
      }
      index := (index + 1) % |waypoints|;
    }

    /** SnapToSpline: the car takes the current waypoint's position and heading; the cursor stays. */
    method SnapToSpline(car: CarTransform)
      requires Valid()
      modifies car
      ensures waypoints == [] ==> car.position == old(car.position) && car.forward == old(car.forward)
      ensures waypoints != [] ==> car.position == GetCurrentWaypointPosition() &&
                                  car.forward == GetForwardDirection()
    {
      if |waypoints| == 0 {
        return;
      }
      car.position := waypoints[index].position;
      car.forward := waypoints[index].forward;
    }
  }
}
