/** Energy is exact: between two events power is constant, so what the meters
    accumulate is the integral of instantaneous power, however often they are read. */
module EngineEnergy {
  import opened Settings
  import opened ReplicaQueues
  import opened EngineModel
  import opened EngineInvariants
  import opened EngineClock

  // ------------------------------------------------------------------
  // Power is constant between events
  // ------------------------------------------------------------------

  /** Nothing is due before `until`. */
  ghost predicate Quiet(s: State, until: real) {
    s.now <= until && forall k :: k in s.heap ==> until <= s.heap[k].time
  }

  /** No departure falls strictly between now and the next event. */
  lemma WorkingIsSteady(s: State, until: real, o: nat, t: real)
    requires o < |s.objects| && QueueOk(s, o) && Quiet(s, until) && s.now <= t
    requires t < until
    ensures Working(s.objects[o], t) <==> Working(s.objects[o], s.now)
  {
    var d := s.objects[o].queue.departures;
    PendingIsTheFuture(d, s.now);
    PendingIsTheFuture(d, t);
    forall i | 0 <= i < |d| ensures d[i] > s.now <==> d[i] > t {
      if d[i] > s.now {
        var k :| k in s.heap && s.heap[k] == Event(d[i], EnergyResync);
      }
    }
    if d != [] {
      assert d[|d| - 1] > s.now <==> d[|d| - 1] > t;
    }
  }

  lemma PowerIsSteady(cfg: Config, s: State, until: real, sid: int, t: real)
    requires GoodConfig(cfg) && QueuesOk(s) && Quiet(s, until) && s.now <= t && (t < until || t == s.now)
    requires InStore(s, sid) && sid in cfg.servers
    ensures Power(cfg, s, sid, t) == Power(cfg, s, sid, s.now)
    ensures Load(cfg, s, sid, t) == Load(cfg, s, sid, s.now)
  {
    hide CpuSum, Fraction, Working, GoodConfig;
    forall v | v in s.servers[sid].hosted
      ensures Working(s.objects[s.servers[sid].hosted[v]], t)
              <==> Working(s.objects[s.servers[sid].hosted[v]], s.now)
    {
      if t != s.now {
        assert QueueOk(s, s.servers[sid].hosted[v]);
        WorkingIsSteady(s, until, s.servers[sid].hosted[v], t);
      }
    }
    assert BusyServices(s, sid, t) == BusyServices(s, sid, s.now);
  }

  // ------------------------------------------------------------------
  // The integral of instantaneous power
  // ------------------------------------------------------------------

  /** A partition of an interval with a tag in each part. */
  predicate Partition(points: seq<real>, tags: seq<real>) {
    && |points| == |tags| + 1
    && forall i :: 0 <= i < |tags| ==>
         points[i] <= tags[i] <= points[i + 1] && (points[i] < points[i + 1] ==> tags[i] < points[i + 1])
  }

  lemma {:induction false} PartitionAscends(points: seq<real>, tags: seq<real>, i: nat)
    requires Partition(points, tags) && i < |points|
    ensures points[0] <= points[i] <= points[|tags|]
    decreases |tags|
  {
    if |tags| > 0 {
      var n := |tags| - 1;
      assert points[n] <= tags[n] <= points[n + 1];
      if i <= n {
        assert Partition(points[..|tags|], tags[..n]);
        PartitionAscends(points[..|tags|], tags[..n], i);
      } else {
        assert Partition(points[..|tags|], tags[..n]);
        PartitionAscends(points[..|tags|], tags[..n], n);
      }
    }
  }

  function WeightedSum(values: seq<real>, points: seq<real>): real
    requires |points| == |values| + 1
    decreases |values|
  {
    if values == [] then 0.0
    else
      var n := |values| - 1;
      WeightedSum(values[..n], points[..|values|]) + values[n] * (points[n + 1] - points[n])
  }

  /** A sum over equal values is that value times the length. */
  lemma {:induction false} ConstantSum(values: seq<real>, points: seq<real>, p: real)
    requires |points| == |values| + 1
    requires forall i :: 0 <= i < |values| ==> values[i] == p || points[i] == points[i + 1]
    ensures WeightedSum(values, points) == p * (points[|values|] - points[0])
    decreases |values|
  {
    if values == [] {
      assert p * 0.0 == 0.0;
    } else {
      var n := |values| - 1;
      ConstantSum(values[..n], points[..|values|], p);
      Distribute(p, values[n], points[n] - points[0], points[n + 1] - points[n]);
    }
  }

  lemma Distribute(p: real, q: real, a: real, b: real)
    requires q == p || b == 0.0
    ensures p * a + q * b == p * (a + b)
  {
  }

  /** The readings of a server's instantaneous power at the tags. */
  ghost function Readings(cfg: Config, s: State, sid: int, tags: seq<real>): seq<real>
    requires GoodConfig(cfg) && InStore(s, sid) && sid in cfg.servers
  {
    seq(|tags|, i requires 0 <= i < |tags| => Power(cfg, s, sid, tags[i]))
  }

  /** Every Riemann sum of instantaneous power up to the next event has the same
      value: the one the engine's single left-hand reading gives. */
  lemma PowerIntegral(cfg: Config, s: State, until: real, sid: int, points: seq<real>, tags: seq<real>)
    requires GoodConfig(cfg) && QueuesOk(s) && InStore(s, sid) && sid in cfg.servers
    requires Partition(points, tags) && points[0] == s.now && points[|tags|] <= until && Quiet(s, until)
    ensures WeightedSum(Readings(cfg, s, sid, tags), points)
            == Power(cfg, s, sid, s.now) * (points[|tags|] - s.now)
  {
    hide Power, GoodConfig, Quiet, QueuesOk, InStore, WeightedSum;
    var values := Readings(cfg, s, sid, tags);
    forall i | 0 <= i < |tags|
      ensures values[i] == Power(cfg, s, sid, s.now) || points[i] == points[i + 1]
    {
      assert points[i] <= tags[i] <= points[i + 1];
      PartitionAscends(points, tags, i);
      PartitionAscends(points, tags, i + 1);
      if points[i] < points[i + 1] {
        PowerIsSteady(cfg, s, until, sid, tags[i]);
      }
    }
    ConstantSum(values, points, Power(cfg, s, sid, s.now));
  }

  /** The readings of the MIPS a server has in use at the tags. */
  ghost function LoadReadings(cfg: Config, s: State, sid: int, tags: seq<real>): seq<real>
    requires GoodConfig(cfg) && InStore(s, sid) && sid in cfg.servers
  {
    seq(|tags|, i requires 0 <= i < |tags| => Load(cfg, s, sid, tags[i]))
  }

  /** The same for the load. */
  lemma LoadIntegral(cfg: Config, s: State, until: real, sid: int, points: seq<real>, tags: seq<real>)
    requires GoodConfig(cfg) && QueuesOk(s) && InStore(s, sid) && sid in cfg.servers
    requires Partition(points, tags) && points[0] == s.now && points[|tags|] <= until && Quiet(s, until)
    ensures WeightedSum(LoadReadings(cfg, s, sid, tags), points) == Load(cfg, s, sid, s.now) * (points[|tags|] - s.now)
  {
    hide Load, GoodConfig, Quiet, QueuesOk, InStore, WeightedSum;
    var values := LoadReadings(cfg, s, sid, tags);
    forall i | 0 <= i < |tags|
      ensures values[i] == Load(cfg, s, sid, s.now) || points[i] == points[i + 1]
    {
      assert points[i] <= tags[i] <= points[i + 1];
      PartitionAscends(points, tags, i);
      PartitionAscends(points, tags, i + 1);
      if points[i] < points[i + 1] {
        PowerIsSteady(cfg, s, until, sid, tags[i]);
      }
    }
    ConstantSum(values, points, Load(cfg, s, sid, s.now));
  }

  /** Reading the meters once more in between changes nothing. */
  lemma ExtraSyncUnobservable(cfg: Config, s: State, until: real, middle: real, t: real)
    requires GoodConfig(cfg) && Linked(cfg, s) && QueuesOk(s) && MetersOk(cfg, s) && Quiet(s, until)
    requires s.now <= middle <= t <= until
    ensures Advance(cfg, Advance(cfg, s, middle), t) == Advance(cfg, s, t)
  {
    hide Metered, GoodConfig, QueuesOk, Quiet, MeterOk;
    var m := Advance(cfg, s, middle);
    forall sid | sid in s.servers ensures Metered(cfg, m, sid, t) == Metered(cfg, s, sid, t) {
      assert InStore(s, sid) && InStore(m, sid) && sid in cfg.servers && MeterOk(cfg, s, sid);
      MeteredTwice(cfg, s, until, sid, middle, t);
    }
    assert Advance(cfg, m, t).servers == Advance(cfg, s, t).servers;
  }

  lemma ReadTwice(sv: Server, power: real, rate: real, middle: real, t: real)
    requires sv.synced <= middle <= t
    ensures ReadMeters(ReadMeters(sv, power, rate, middle), power, rate, t) == ReadMeters(sv, power, rate, t)
  {
    Distribute(power, power, middle - sv.synced, t - middle);
    Distribute(rate, rate, middle - sv.synced, t - middle);
  }

  lemma MeteredTwice(cfg: Config, s: State, until: real, sid: int, middle: real, t: real)
    requires GoodConfig(cfg) && Linked(cfg, s) && QueuesOk(s) && Quiet(s, until)
    requires s.now <= middle <= t <= until && sid in s.servers && sid in cfg.servers && InStore(s, sid)
    requires MeterOk(cfg, s, sid)
    requires InStore(Advance(cfg, s, middle), sid)
    ensures Metered(cfg, Advance(cfg, s, middle), sid, t) == Metered(cfg, s, sid, t)
  {
    hide Power, Load, Linked, GoodConfig, QueuesOk, Quiet, WindowOk;
    var m := Advance(cfg, s, middle);
    var power, rate := Power(cfg, s, sid, s.now), Load(cfg, s, sid, s.now);
    ReadTwice(s.servers[sid], power, rate, middle, t);
    if middle < t {
      MeterReadsSame(cfg, s, sid, middle);
      PowerIsSteady(cfg, s, until, sid, middle);
      assert m.servers[sid] == ReadMeters(s.servers[sid], power, rate, middle);
      assert m.servers[sid].synced == middle;
    }
  }

  /** Power and utilisation do not look at the meters or the clock. */
  lemma MeterReadsSame(cfg: Config, s: State, sid: int, t: real)
    requires GoodConfig(cfg) && Linked(cfg, s) && sid in s.servers && sid in cfg.servers && InStore(s, sid)
    requires InStore(Advance(cfg, s, t), sid)
    ensures Power(cfg, Advance(cfg, s, t), sid, t) == Power(cfg, s, sid, t)
    ensures Load(cfg, Advance(cfg, s, t), sid, t) == Load(cfg, s, sid, t)
  {
    hide CpuSum, Fraction, Working, GoodConfig;
    var m := Advance(cfg, s, t);
    assert BusyServices(m, sid, t) == BusyServices(s, sid, t);
  }
}
