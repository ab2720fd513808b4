/** The demand centroid of a service: the medoid of its recent positions. */
module Medoid {
  import opened Settings

  /** The total distance from x to some points. */
  function Cost(distance: (Position, Position) -> real, x: Position, points: seq<Position>): real {
    if points == [] then 0.0
    else
      var n := |points| - 1;
      Cost(distance, x, points[..n]) + distance(x, points[n])
  }

  ghost predicate IsMetric(distance: (Position, Position) -> real) {
    && (forall x, y :: distance(x, y) >= 0.0)
    && (forall x, y :: distance(x, y) == distance(y, x))
    && (forall x, y, z :: Triangle(distance, x, y, z))
  }

  predicate Triangle(distance: (Position, Position) -> real, x: Position, y: Position, z: Position) {
    distance(x, z) <= distance(x, y) + distance(y, z)
  }

  /** The loop of `_medoid`: the first point of least total distance to the others. */
  method FindMedoid(distance: (Position, Position) -> real, points: seq<Position>) returns (best: Option<Position>)
    ensures best.None? <==> points == []
    ensures best.Some? ==> best.value in points
    ensures best.Some? ==> forall p :: p in points ==> Cost(distance, best.value, points) <= Cost(distance, p, points)
    ensures best.Some? ==>
              exists i :: 0 <= i < |points| && points[i] == best.value
                          && forall j :: 0 <= j < i ==>
                               Cost(distance, best.value, points) < Cost(distance, points[j], points)
  {
    if points == [] {
      return None;
    }
    var found, bestCost := points[0], Cost(distance, points[0], points);
    ghost var at := 0;
    var i := 0;
    while i < |points|
      invariant 0 <= i <= |points| && 0 <= at < |points| && points[at] == found
      invariant bestCost == Cost(distance, found, points)
      invariant forall j :: 0 <= j < i ==> bestCost <= Cost(distance, points[j], points)
      invariant forall j :: 0 <= j < at ==> bestCost < Cost(distance, points[j], points)
      invariant at < i || (i == 0 && at == 0)
    {
      var cost := Cost(distance, points[i], points);
      if cost < bestCost {
        found, bestCost, at := points[i], cost, i;
      }
      i := i + 1;
    }
    best := Some(found);
    assert points[at] == found;
  }

  /** The sum of everybody's cost. */
  function TotalCost(distance: (Position, Position) -> real, from: seq<Position>, points: seq<Position>): real {
    if from == [] then 0.0
    else
      var n := |from| - 1;
      TotalCost(distance, from[..n], points) + Cost(distance, from[n], points)
  }

  /** By the triangle inequality, going through x costs no less. */
  lemma {:induction false} ThroughPoint(distance: (Position, Position) -> real, p: Position, x: Position,
                                        points: seq<Position>)
    requires IsMetric(distance)
    ensures Cost(distance, p, points) <= |points| as real * distance(p, x) + Cost(distance, x, points)
  {
    if points != [] {
      var n := |points| - 1;
      ThroughPoint(distance, p, x, points[..n]);
      assert Triangle(distance, p, x, points[n]);
      OneMoreTime(n, distance(p, x));
    }
  }

  lemma OneMoreTime(n: nat, d: real)
    ensures (n + 1) as real * d == n as real * d + d
  {
    assert (n + 1) as real == n as real + 1.0;
  }

  lemma {:induction false} TotalThroughPoint(distance: (Position, Position) -> real, from: seq<Position>, x: Position,
                                             points: seq<Position>)
    requires IsMetric(distance)
    ensures TotalCost(distance, from, points)
            <= |points| as real * Cost(distance, x, from) + |from| as real * Cost(distance, x, points)
  {
    if from != [] {
      var n := |from| - 1;
      TotalThroughPoint(distance, from[..n], x, points);
      ThroughPoint(distance, from[n], x, points);
      assert distance(from[n], x) == distance(x, from[n]);
      OneMoreTime(n, Cost(distance, x, points));
      Spread(|points| as real, Cost(distance, x, from[..n]), distance(x, from[n]));
    } else {
      assert 0.0 * Cost(distance, x, points) == 0.0 && |points| as real * 0.0 == 0.0;
    }
  }

  lemma Spread(a: real, b: real, c: real)
    ensures a * (b + c) == a * b + a * c
  {
  }

  /** The least cost, times the number of points, is at most the total. */
  lemma {:induction false} LeastTimesCount(distance: (Position, Position) -> real, from: seq<Position>,
                                           points: seq<Position>, least: real)
    requires forall i :: 0 <= i < |from| ==> least <= Cost(distance, from[i], points)
    ensures |from| as real * least <= TotalCost(distance, from, points)
  {
    if from != [] {
      var n := |from| - 1;
      LeastTimesCount(distance, from[..n], points, least);
      OneMoreTime(n, least);
    } else {
      assert 0.0 * least == 0.0;
    }
  }

  /** For any metric, the medoid costs at most twice as much as any point of the
      space, among the recent positions or not. */
  lemma MedoidWithinTwice(distance: (Position, Position) -> real, points: seq<Position>, medoid: Position, x: Position)
    requires IsMetric(distance) && medoid in points
    requires forall p :: p in points ==> Cost(distance, medoid, points) <= Cost(distance, p, points)
    ensures Cost(distance, medoid, points) <= 2.0 * Cost(distance, x, points)
  {
    hide Cost, TotalCost, IsMetric;
    forall i | 0 <= i < |points| ensures Cost(distance, medoid, points) <= Cost(distance, points[i], points) {
      var p := points[i];
      assert p in points;
    }
    LeastTimesCount(distance, points, points, Cost(distance, medoid, points));
    TotalThroughPoint(distance, points, x, points);
    HalveBoth(|points| as real, Cost(distance, medoid, points), Cost(distance, x, points));
  }

  lemma HalveBoth(n: real, a: real, b: real)
    requires n > 0.0 && n * a <= n * b + n * b
    ensures a <= 2.0 * b
  {
    assert n * (a - 2.0 * b) <= 0.0 by {
      assert n * (a - 2.0 * b) == n * a - (n * b + n * b);
    }
    SignOfFactor(n, a - 2.0 * b);
  }

  lemma SignOfFactor(n: real, c: real)
    requires n > 0.0 && n * c <= 0.0
    ensures c <= 0.0
  {
  }
}
