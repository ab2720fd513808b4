/** The horizontal pod autoscaler: what it wants does not depend on how many
    replicas there are, and it gets there one replica at a time. */
module Hpa {
  import opened Settings

  datatype Action = ScaleUp | ScaleDown | NoChange

  const TARGET := 0.70

  /** What a snapshot says of a service: the average occupancy of its ready
      replicas, the queue length and the recent rejection rate. */
  datatype Snapshot = Snapshot(ready: nat, avgOccupancy: real, queueLen: nat, rejectionRate: real)

  function Ceiling(x: real): int {
    if x.Floor as real == x then x.Floor else x.Floor + 1
  }

  function Most(x: int, y: int): int {
    if x < y then y else x
  }

  function Utilization(s: Snapshot): real {
    if s.queueLen == 0 then 0.0 else s.avgOccupancy / s.queueLen as real
  }

  function Current(s: Snapshot): nat {
    if s.ready < 1 then 1 else s.ready
  }

  /** How many replicas would run at the target. */
  function Aim(s: Snapshot): real {
    Current(s) as real * (Utilization(s) / TARGET)
  }

  /** The number of replicas aimed at. */
  function Desired(s: Snapshot): int {
    var aim := Most(1, if Utilization(s) <= 0.0 && s.rejectionRate <= 0.0 then 1 else Ceiling(Aim(s)));
    if s.rejectionRate > 0.0 then Most(aim, Current(s) + 1) else aim
  }

  /** So many queues with so much in each on average fill n queues to at most 70%. */
  predicate Fills(queues: nat, average: real, n: int, queueLen: nat) {
    queueLen == 0 || queues as real * average <= 0.70 * n as real * queueLen as real
  }

  /** This many replicas suffice: the requests queued now fill at most 70% of their
      queues, and while requests are rejected there are more of them than now. */
  predicate Suffices(s: Snapshot, n: int) {
    && Fills(Current(s), s.avgOccupancy, n, s.queueLen)
    && (s.rejectionRate > 0.0 ==> n > Current(s))
  }

  lemma CeilingIsLeast(x: real, n: int)
    ensures Ceiling(x) <= n <==> x <= n as real
  {
  }

  /** What is wanted is the least number, at least one, that suffices. */
  lemma DesiredIsLeast(s: Snapshot, n: int)
    requires n >= 1
    ensures Desired(s) >= 1
    ensures Desired(s) <= n <==> Suffices(s, n)
  {
    hide Aim, Ceiling, Utilization, Fills;
    CeilingIsLeast(Aim(s), n);
    AimFills(s, n);
  }

  lemma AimFills(s: Snapshot, n: int)
    requires n >= 1
    ensures Aim(s) <= n as real <==> Fills(Current(s), s.avgOccupancy, n, s.queueLen)
    ensures Utilization(s) <= 0.0 ==> Aim(s) <= n as real
  {
    if s.queueLen > 0 {
      AimFits(s.avgOccupancy, s.queueLen as real, Current(s) as real, n as real);
    } else {
      assert Aim(s) == 0.0;
    }
  }

  lemma AimFits(occupancy: real, q: real, c: real, n: real)
    requires q > 0.0 && c > 0.0
    ensures c * (occupancy / q / TARGET) <= n <==> c * occupancy <= 0.70 * n * q
    ensures occupancy / q <= 0.0 ==> c * (occupancy / q / TARGET) <= 0.0
  {
    var util := occupancy / q;
    assert util * q == occupancy;
    var part := util / TARGET;
    assert part * TARGET == util;
    var aim := c * part;
    assert c * occupancy == aim * (TARGET * q) by {
      assert c * occupancy == c * (part * TARGET * q) == aim * (TARGET * q);
    }
    assert 0.70 * n * q == n * (TARGET * q);
    OrderScales(aim, n, TARGET * q);
  }

  /** `scale_decision`: up exactly when the replicas there are do not suffice, down
      exactly when one fewer would. */
  method ScaleDecision(s: Snapshot) returns (action: Action)
    ensures action == ScaleUp <==> !Suffices(s, Current(s))
    ensures action == ScaleDown <==> Current(s) > 1 && Suffices(s, Current(s) - 1)
    ensures action == Decision(Desired(s), Current(s))
  {
    DesiredIsLeast(s, Current(s));
    if Current(s) > 1 {
      DesiredIsLeast(s, Current(s) - 1);
    }
    hide Suffices, Ceiling;
    var current := if s.ready > 1 then s.ready else 1;
    var util := Utilization(s);
    var desired: int;
    if util <= 0.0 && s.rejectionRate <= 0.0 {
      desired := 1;
    } else {
      desired := Ceiling(current as real * (util / TARGET));
      assert current == Current(s);
    }
    desired := Most(1, desired);
    if s.rejectionRate > 0.0 {
      desired := Most(desired, current + 1);
    }
    if desired > current {
      return ScaleUp;
    }
    if desired < current && current > 1 {
      return ScaleDown;
    }
    return NoChange;
  }

  /** The decision as a function of what is wanted and what there is. */
  function Decision(desired: int, current: int): Action {
    if desired > current then ScaleUp else if desired < current then ScaleDown else NoChange
  }

  /** A snapshot of n ready replicas sharing a total of `load` queued requests,
      with no rejections. */
  function Sharing(load: real, n: nat, queueLen: nat): Snapshot
    requires n >= 1
  {
    Snapshot(n, load / n as real, queueLen, 0.0)
  }

  /** The replicas a total load is worth. */
  function Worth(load: real, queueLen: nat): int {
    if queueLen == 0 then 1 else Most(1, Ceiling(load / queueLen as real / TARGET))
  }

  /** That is the least number, at least one, whose queues the load fills to at most 70%. */
  lemma WorthIsLeast(load: real, queueLen: nat, n: int)
    requires load >= 0.0 && n >= 1
    ensures Worth(load, queueLen) >= 1
    ensures Worth(load, queueLen) <= n <==> Fills(1, load, n, queueLen)
  {
    if queueLen > 0 {
      CeilingIsLeast(load / queueLen as real / TARGET, n);
      AimFits(load, queueLen as real, 1.0, n as real);
    }
  }

  lemma ShareTimesCount(load: real, n: real, q: real)
    requires n > 0.0 && q > 0.0
    ensures n * (load / n / q / TARGET) == load / q / TARGET
  {
    var share := load / n;
    assert share * n == load;
    var each := share / q / TARGET;
    assert each * TARGET * q == share by {
      assert share / q * q == share;
      assert each * TARGET == share / q;
    }
    var all := load / q / TARGET;
    assert all * TARGET * q == load by {
      assert load / q * q == load;
      assert all * TARGET == load / q;
    }
    Scaled(n * each, all, TARGET * q, n, each, share, load, q);
  }

  lemma Scaled(x: real, y: real, c: real, n: real, each: real, share: real, load: real, q: real)
    requires c == TARGET * q && c > 0.0 && x == n * each && each * TARGET * q == share && share * n == load
    requires y * TARGET * q == load
    ensures x == y
  {
    assert x * c == n * (each * TARGET * q);
    assert y * c == y * TARGET * q;
    SameProduct(x, y, c);
  }

  lemma SameProduct(x: real, y: real, c: real)
    requires c > 0.0 && x * c == y * c
    ensures x == y
  {
    assert (x - y) * c == 0.0;
  }

  /** With constant total queued load and no rejections, what is wanted does not
      depend on the current number of replicas. */
  lemma DesiredIsWorth(load: real, n: nat, queueLen: nat)
    requires load >= 0.0 && n >= 1
    ensures Desired(Sharing(load, n, queueLen)) == Worth(load, queueLen)
  {
    if queueLen > 0 {
      var s := Sharing(load, n, queueLen);
      ShareTimesCount(load, n as real, queueLen as real);
      assert Utilization(s) / TARGET == load / n as real / queueLen as real / TARGET;
      if Utilization(s) <= 0.0 {
        NoShareNoLoad(load, n as real, queueLen as real);
      }
    }
  }

  lemma NoShareNoLoad(load: real, n: real, q: real)
    requires load >= 0.0 && n > 0.0 && q > 0.0 && load / n / q <= 0.0
    ensures load == 0.0 && load / q / TARGET == 0.0
  {
    var share := load / n;
    assert share * n == load;
    var util := share / q;
    assert util * q == share;
  }

  function Distance(x: int, y: int): nat {
    if x < y then y - x else x - y
  }

  /** What an applied decision makes of the number of replicas. */
  function Applied(n: int, action: Action): int {
    match action
    case ScaleUp => n + 1
    case ScaleDown => n - 1
    case NoChange => n
  }

  /** The number of replicas after some applied decisions under constant load. */
  function After(load: real, queueLen: nat, n: nat, ticks: nat): int
    requires n >= 1
  {
    if ticks == 0 then n
    else
      var m := After(load, queueLen, n, ticks - 1);
      Applied(m, Decision(Worth(load, queueLen), m))
  }

  /** Each applied decision comes one replica closer, and at the goal nothing changes. */
  lemma EachStepCloser(desired: int, n: int)
    ensures desired == n ==> Decision(desired, n) == NoChange
    ensures desired != n ==> Distance(Applied(n, Decision(desired, n)), desired) == Distance(n, desired) - 1
  {
  }

  /** Convergence: after as many applied decisions as replicas are missing or too
      many, the number is the one wanted, and it stays so. The decisions are those
      the autoscaler takes on its snapshots. */
  lemma {:induction false} Converges(load: real, queueLen: nat, n: nat, ticks: nat)
    requires load >= 0.0 && n >= 1
    ensures After(load, queueLen, n, ticks) >= 1
    ensures Distance(After(load, queueLen, n, ticks), Worth(load, queueLen))
            == if ticks <= Distance(n, Worth(load, queueLen)) then Distance(n, Worth(load, queueLen)) - ticks else 0
    ensures var s := Sharing(load, After(load, queueLen, n, ticks), queueLen);
            After(load, queueLen, n, ticks + 1)
            == Applied(After(load, queueLen, n, ticks), Decision(Desired(s), Current(s)))
  {
    if ticks > 0 {
      Converges(load, queueLen, n, ticks - 1);
      EachStepCloser(Worth(load, queueLen), After(load, queueLen, n, ticks - 1));
    }
    DesiredIsWorth(load, After(load, queueLen, n, ticks), queueLen);
  }
}
