/** VOILA's scaling decision: three counters per service, shown to be the history
    they stand for. */
module Voila {

  datatype Action = ScaleUp | ScaleDown | NoChange

  /** What one tick's snapshot says of a service. */
  datatype Tick = Tick(avgOccupancy: real, queueLen: nat, rejectionRate: real, proximityRate: real, ready: nat)

  const UP_TRIGGER := 0.80
  const DOWN_THRESHOLD := 0.20
  const PATIENCE := 3
  const SUSTAIN := 2
  const PROTECTION := 5

  function OccupancyRatio(t: Tick): real {
    if t.queueLen == 0 then 0.0 else t.avgOccupancy / t.queueLen as real
  }

  predicate CapacityViolation(t: Tick) {
    OccupancyRatio(t) > UP_TRIGGER || t.rejectionRate > 0.0
  }

  predicate ProximityViolation(t: Tick) {
    !CapacityViolation(t) && t.proximityRate > 0.0
  }

  predicate ViolationFree(t: Tick) {
    !CapacityViolation(t) && !ProximityViolation(t)
  }

  /** A service is short of capacity when its queues are more than four fifths full or
      requests are rejected, too far when it is not and some requests go beyond the
      bound; its load is low when its queues are less than a fifth full. */
  lemma ViolationsMean(t: Tick)
    ensures CapacityViolation(t) <==>
              (t.queueLen > 0 && 5.0 * t.avgOccupancy > 4.0 * t.queueLen as real) || t.rejectionRate > 0.0
    ensures ProximityViolation(t) <==>
              && (t.queueLen > 0 ==> 5.0 * t.avgOccupancy <= 4.0 * t.queueLen as real)
              && t.rejectionRate <= 0.0 && t.proximityRate > 0.0
    ensures ViolationFree(t) <==>
              && (t.queueLen > 0 ==> 5.0 * t.avgOccupancy <= 4.0 * t.queueLen as real)
              && t.rejectionRate <= 0.0 && t.proximityRate <= 0.0
    ensures OccupancyRatio(t) < DOWN_THRESHOLD <==> t.queueLen == 0 || 5.0 * t.avgOccupancy < t.queueLen as real
  {
    if t.queueLen > 0 {
      ShareCompares(OccupancyRatio(t), t.queueLen as real, t.avgOccupancy);
    }
  }

  lemma ShareCompares(ratio: real, q: real, occupancy: real)
    requires q > 0.0 && ratio == occupancy / q
    ensures ratio > UP_TRIGGER <==> 5.0 * occupancy > 4.0 * q
    ensures ratio < DOWN_THRESHOLD <==> 5.0 * occupancy < q
  {
    assert ratio * q == occupancy;
    var above, below := 5.0 * ratio - 4.0, 1.0 - 5.0 * ratio;
    assert above * q == 5.0 * occupancy - 4.0 * q && below * q == q - 5.0 * occupancy;
    SignScales(above, q);
    SignScales(below, q);
  }

  lemma SignScales(x: real, c: real)
    requires c > 0.0
    ensures x > 0.0 <==> x * c > 0.0
  {
  }

  /** `_good_streak`, `_proximity_violation_streak`, `_proximity_recent` of one service. */
  datatype Counters = Counters(good: nat, streak: nat, recent: nat)

  const FRESH := Counters(0, 0, 0)

  /** One call of `scale_decision`. */
  function Decide(c: Counters, t: Tick): (Counters, Action) {
    if CapacityViolation(t) then (c.(good := 0, streak := 0), ScaleUp)
    else if ProximityViolation(t) then
      if c.streak + 1 < SUSTAIN then (c.(good := 0, streak := c.streak + 1), NoChange)
      else (Counters(0, 0, PROTECTION), ScaleUp)
    else
      var calm := Counters(c.good + 1, 0, if c.recent == 0 then 0 else c.recent - 1);
      if calm.recent > 0 then (calm, NoChange)
      else if calm.good >= PATIENCE && OccupancyRatio(t) < DOWN_THRESHOLD && t.ready > 1
      then (calm.(good := 0), ScaleDown)
      else (calm, NoChange)
  }

  /** A whole sequence of ticks. */
  function Play(ticks: seq<Tick>): (r: (Counters, seq<Action>))
    ensures |r.1| == |ticks|
  {
    if ticks == [] then (FRESH, [])
    else
      var n := |ticks| - 1;
      var (c, actions) := Play(ticks[..n]);
      var (next, action) := Decide(c, ticks[n]);
      (next, actions + [action])
  }

  // ------------------------------------------------------------------
  // The history the counters stand for
  // ------------------------------------------------------------------

  /** How many violation-free ticks in a row since the last violation or SCALE_DOWN. */
  function CalmRun(ticks: seq<Tick>, actions: seq<Action>): nat
    requires |actions| == |ticks|
  {
    if ticks == [] then 0
    else
      var n := |ticks| - 1;
      if !ViolationFree(ticks[n]) || actions[n] == ScaleDown then 0 else 1 + CalmRun(ticks[..n], actions[..n])
  }

  /** How many proximity violations in a row since the last SCALE_UP. */
  function ProximityRun(ticks: seq<Tick>, actions: seq<Action>): nat
    requires |actions| == |ticks|
  {
    if ticks == [] then 0
    else
      var n := |ticks| - 1;
      if !ProximityViolation(ticks[n]) || actions[n] == ScaleUp then 0 else 1 + ProximityRun(ticks[..n], actions[..n])
  }

  predicate ProximityScaleUp(t: Tick, a: Action) {
    ProximityViolation(t) && a == ScaleUp
  }

  /** How many violation-free ticks since the last proximity SCALE_UP; long ago if
      there was none. */
  function CalmSinceProximity(ticks: seq<Tick>, actions: seq<Action>): nat
    requires |actions| == |ticks|
  {
    if ticks == [] then PROTECTION
    else
      var n := |ticks| - 1;
      if ProximityScaleUp(ticks[n], actions[n]) then 0
      else CalmSinceProximity(ticks[..n], actions[..n]) + if ViolationFree(ticks[n]) then 1 else 0
  }

  /** The counters are exactly these histories. */
  lemma {:induction false} CountersAreHistory(ticks: seq<Tick>)
    ensures var (c, actions) := Play(ticks);
            && c.good == CalmRun(ticks, actions)
            && c.streak == ProximityRun(ticks, actions)
            && c.recent == (if CalmSinceProximity(ticks, actions) >= PROTECTION then 0
                            else PROTECTION - CalmSinceProximity(ticks, actions))
  {
    if ticks != [] {
      var n := |ticks| - 1;
      CountersAreHistory(ticks[..n]);
      var (_, actions) := Play(ticks);
      assert actions[..n] == Play(ticks[..n]).1;
    }
  }

  /** The decision on the next tick, in terms of the past alone: SCALE_DOWN exactly
      on the third or later consecutive violation-free tick since the last violation
      or SCALE_DOWN that is also the fifth or later violation-free tick since the
      last proximity SCALE_UP, when the load is low and a replica can be spared;
      SCALE_UP exactly on a capacity violation, or on the second proximity
      violation in a row. */
  lemma {:induction false} DecisionByHistory(past: seq<Tick>, t: Tick)
    ensures var actions := Play(past).1;
            var action := Decide(Play(past).0, t).1;
            && (action == ScaleDown <==>
                  && ViolationFree(t) && CalmRun(past, actions) >= 2 && CalmSinceProximity(past, actions) >= 4
                  && (t.queueLen == 0 || 5.0 * t.avgOccupancy < t.queueLen as real) && t.ready > 1)
            && (action == ScaleUp <==>
                  CapacityViolation(t) || (ProximityViolation(t) && ProximityRun(past, actions) >= 1))
  {
    ViolationsMean(t);
    CountersAreHistory(past);
  }

  /** A SCALE_DOWN is preceded by two violation-free ticks without a SCALE_DOWN. */
  lemma {:induction false} ScaleDownNeedsPatience(ticks: seq<Tick>)
    requires ticks != [] && Play(ticks).1[|ticks| - 1] == ScaleDown
    ensures |ticks| >= 3
    ensures forall i :: |ticks| - 3 <= i < |ticks| ==> ViolationFree(ticks[i])
    ensures forall i :: |ticks| - 3 <= i < |ticks| - 1 ==> Play(ticks).1[i] == NoChange
  {
    var n := |ticks| - 1;
    var past := ticks[..n];
    var actions := Play(ticks).1;
    assert actions[..n] == Play(past).1;
    DecisionByHistory(past, ticks[n]);
    RunReaches(past, actions[..n], 2);
    forall i | n - 2 <= i < n ensures actions[i] == NoChange {
      assert actions[i] == actions[..n][i] && past[i] == ticks[i];
      ActionAt(ticks, i);
    }
  }

  /** A violation-free tick is never scaled up. */
  lemma {:induction false} ActionAt(ticks: seq<Tick>, i: nat)
    requires i < |ticks|
    ensures ViolationFree(ticks[i]) ==> Play(ticks).1[i] != ScaleUp
  {
    var n := |ticks| - 1;
    if i < n {
      ActionAt(ticks[..n], i);
      assert Play(ticks).1[i] == Play(ticks[..n]).1[i];
    }
  }

  /** A run of length k covers the last k ticks. */
  lemma {:induction false} RunReaches(ticks: seq<Tick>, actions: seq<Action>, k: nat)
    requires |actions| == |ticks| && CalmRun(ticks, actions) >= k
    ensures |ticks| >= k
    ensures forall i :: |ticks| - k <= i < |ticks| ==> ViolationFree(ticks[i]) && actions[i] != ScaleDown
  {
    if k > 0 {
      var n := |ticks| - 1;
      RunReaches(ticks[..n], actions[..n], k - 1);
      forall i | |ticks| - k <= i < |ticks| ensures ViolationFree(ticks[i]) && actions[i] != ScaleDown {
        assert i < n ==> ticks[..n][i] == ticks[i] && actions[..n][i] == actions[i];
      }
    }
  }

  /** A proximity SCALE_UP needs two proximity-violating ticks in a row. */
  lemma {:induction false} ProximityNeedsTwo(ticks: seq<Tick>)
    requires ticks != [] && ProximityScaleUp(ticks[|ticks| - 1], Play(ticks).1[|ticks| - 1])
    ensures |ticks| >= 2 && ProximityViolation(ticks[|ticks| - 2]) && Play(ticks).1[|ticks| - 2] == NoChange
  {
    var n := |ticks| - 1;
    var past := ticks[..n];
    DecisionByHistory(past, ticks[n]);
    var before := Play(past).1;
    assert n > 0 && ProximityViolation(past[n - 1]) && before[n - 1] != ScaleUp;
    assert Play(ticks).1[n - 1] == before[n - 1];
    DecisionByHistory(past[..n - 1], past[n - 1]);
  }

  /** `VoilaAlgorithm`: the counters of every service, in dictionaries that start empty. */
  class VoilaAlgorithm {
    var goodStreak: map<int, nat>
    var proximityViolationStreak: map<int, nat>
    var proximityRecent: map<int, nat>

    function Get(m: map<int, nat>, service: int): nat {
      if service in m then m[service] else 0
    }

    /** The counters of one service. */
    function Of(service: int): Counters
      reads this
    {
      Counters(Get(goodStreak, service), Get(proximityViolationStreak, service), Get(proximityRecent, service))
    }

    constructor ()
      ensures forall service :: Of(service) == FRESH
    {
      goodStreak, proximityViolationStreak, proximityRecent := map[], map[], map[];
    }

    /** `scale_decision`. */
    method ScaleDecision(service: int, t: Tick) returns (action: Action)
      modifies this
      ensures (Of(service), action) == Decide(old(Of(service)), t)
      ensures forall other :: other != service ==> Of(other) == old(Of(other))
    {
      if CapacityViolation(t) {
        goodStreak := goodStreak[service := 0];
        proximityViolationStreak := proximityViolationStreak[service := 0];
        return ScaleUp;
      }
      if ProximityViolation(t) {
        var streak := Get(proximityViolationStreak, service) + 1;
        proximityViolationStreak := proximityViolationStreak[service := streak];
        goodStreak := goodStreak[service := 0];
        if streak < SUSTAIN {
          return NoChange;
        }
        proximityViolationStreak := proximityViolationStreak[service := 0];
        proximityRecent := proximityRecent[service := PROTECTION];
        return ScaleUp;
      }
      proximityViolationStreak := proximityViolationStreak[service := 0];
      goodStreak := goodStreak[service := Get(goodStreak, service) + 1];
      var recent := Get(proximityRecent, service);
      proximityRecent := proximityRecent[service := if recent == 0 then 0 else recent - 1];
      if proximityRecent[service] > 0 {
        return NoChange;
      }
      if goodStreak[service] >= PATIENCE && OccupancyRatio(t) < DOWN_THRESHOLD && t.ready > 1 {
        goodStreak := goodStreak[service := 0];
        return ScaleDown;
      }
      return NoChange;
    }
  }
}
