/** The constants and arithmetic of common/config.py, with the server and
    service tables and the distance function as parameters. */
module Settings {

  datatype Option<+T> = None | Some(value: T)

  datatype Position = Position(lat: real, long: real)

  datatype ServerSpec = ServerSpec(site: Position, capacity: int, mipsPerCore: real, pIdle: real, pMax: real)

  datatype ServiceSpec = ServiceSpec(resource: int, taskLength: real, queueLen: nat, deadline: real)

  datatype Delays = Delays(
    boot: real, startup: real, graceful: real, grace: real, interval: real,
    minActive: real, cooldown: real, minAge: real)

  datatype Config = Config(
    servers: map<int, ServerSpec>, services: map<int, ServiceSpec>,
    referenceMips: real, delays: Delays,
    baseMs: real, perKmMs: real, overheadMs: real, dispatcher: Position,
    bootJoule: real, podJoule: real,
    distance: (Position, Position) -> real)

  /** The delay constants of common/config.py:171-176, 192, 203. */
  const SOURCE_DELAYS := Delays(30.0, 5.0, 10.0, 15.0, 50.0, 300.0, 20.0, 120.0)

  /** The only facts about the delays that the lifecycle relies on. */
  predicate GoodDelays(d: Delays) {
    && 0.0 < d.startup < d.graceful < d.grace < d.boot
    && d.boot + d.startup < d.interval
    && 0.0 < d.cooldown && 0.0 <= d.minActive
  }

  predicate GoodServer(cfg: Config, spec: ServerSpec) {
    && spec.capacity > 0
    && 0.0 < spec.mipsPerCore <= cfg.referenceMips
    && 0.0 <= spec.pIdle <= spec.pMax
  }

  predicate GoodService(spec: ServiceSpec) {
    spec.resource > 0 && spec.taskLength > 0.0 && spec.deadline > 0.0
  }

  ghost predicate GoodConfig(cfg: Config) {
    && GoodDelays(cfg.delays)
    && cfg.referenceMips > 0.0
    && 0.0 <= cfg.baseMs && 0.0 <= cfg.perKmMs && 0.0 <= cfg.overheadMs
    && (forall p, q :: cfg.distance(p, q) >= 0.0)
    && (forall sid :: sid in cfg.servers ==> GoodServer(cfg, cfg.servers[sid]))
    && (forall svc :: svc in cfg.services ==> GoodService(cfg.services[svc]))
  }

  lemma SourceDelaysAreGood()
    ensures GoodDelays(SOURCE_DELAYS)
  {
  }

  /** Python's `round`: nearest integer, ties to even. */
  function Round(x: real): int {
    var below := x.Floor;
    var rest := x - below as real;
    if rest < 0.5 || (rest == 0.5 && below % 2 == 0) then below else below + 1
  }

  /** Rounding never crosses an integer. */
  lemma RoundStaysBelow(x: real, n: int)
    requires x <= n as real
    ensures Round(x) <= n
    ensures 0.0 <= x ==> 0 <= Round(x)
  {
  }

  /** It is an integer nearest to x, the even one of two equally near. */
  lemma RoundIsNearest(x: real)
    ensures -0.5 <= Round(x) as real - x <= 0.5
    ensures Round(x) as real - x in {-0.5, 0.5} ==> Round(x) % 2 == 0
  {
  }

  function SpeedFactor(cfg: Config, sid: int): real
    requires sid in cfg.servers && cfg.referenceMips > 0.0
  {
    cfg.servers[sid].mipsPerCore / cfg.referenceMips
  }

  /** `round(raw * speed)`. */
  function Scaled(raw: int, speed: real): int {
    Round(raw as real * speed)
  }

  /** `round(resource_mips * speed_factor)`: what a replica reserves on this host. */
  function EffectiveCpu(cfg: Config, sid: int, svc: int): int
    requires sid in cfg.servers && svc in cfg.services && cfg.referenceMips > 0.0
  {
    Scaled(cfg.services[svc].resource, SpeedFactor(cfg, sid))
  }

  /** The reservation check of a drain uses raw MIPS; the placement that follows
      needs only the effective demand, which is never more. */
  lemma EffectiveAtMostRaw(cfg: Config, sid: int, svc: int)
    requires GoodConfig(cfg) && sid in cfg.servers && svc in cfg.services
    ensures 0 <= EffectiveCpu(cfg, sid, svc) <= cfg.services[svc].resource
  {
    assert GoodServer(cfg, cfg.servers[sid]) && GoodService(cfg.services[svc]);
    QuotientInUnit(cfg.servers[sid].mipsPerCore, cfg.referenceMips);
    RoundScaled(cfg.services[svc].resource, SpeedFactor(cfg, sid));
  }

  /** The demand on a host is the integer nearest to the raw MIPS times the speed of
      the host's cores over that of the reference, the even one of two equally near. */
  lemma EffectiveIsNearest(cfg: Config, sid: int, svc: int)
    requires cfg.referenceMips > 0.0 && sid in cfg.servers && svc in cfg.services
    ensures var off := EffectiveCpu(cfg, sid, svc) as real * cfg.referenceMips
                       - cfg.services[svc].resource as real * cfg.servers[sid].mipsPerCore;
            && -cfg.referenceMips <= 2.0 * off <= cfg.referenceMips
            && (2.0 * off == cfg.referenceMips || 2.0 * off == -cfg.referenceMips ==>
                  EffectiveCpu(cfg, sid, svc) % 2 == 0)
  {
    hide Scaled;
    var speed := SpeedFactor(cfg, sid);
    assert speed * cfg.referenceMips == cfg.servers[sid].mipsPerCore;
    ScaledIsNearest(cfg.services[svc].resource, speed, cfg.servers[sid].mipsPerCore, cfg.referenceMips);
  }

  lemma ScaledIsNearest(raw: int, speed: real, mips: real, ref: real)
    requires ref > 0.0 && speed * ref == mips
    ensures var off := Scaled(raw, speed) as real * ref - raw as real * mips;
            && -ref <= 2.0 * off <= ref
            && (2.0 * off == ref || 2.0 * off == -ref ==> Scaled(raw, speed) % 2 == 0)
  {
    hide Round;
    var x := raw as real * speed;
    RoundIsNearest(x);
    assert x * ref == raw as real * (speed * ref);
    ScaleOffset(Round(x) as real, x, raw as real * mips, ref, Round(x) as real * ref);
  }

  lemma ScaledBack(raw: real, mips: real, ref: real)
    requires ref > 0.0
    ensures raw * (mips / ref) * ref == raw * mips
  {
    var f := mips / ref;
    assert f * ref == mips;
    assert raw * f * ref == raw * (f * ref);
  }

  lemma ScaleOffset(e: real, x: real, whole: real, ref: real, product: real)
    requires ref > 0.0 && -0.5 <= e - x <= 0.5 && x * ref == whole && e * ref == product
    ensures -ref <= 2.0 * (product - whole) <= ref
    ensures 2.0 * (product - whole) == ref ==> e - x == 0.5
    ensures 2.0 * (product - whole) == -ref ==> e - x == -0.5
  {
    assert product - whole == (e - x) * ref;
    ScaleHalf(e - x, ref, product - whole);
    ScaleHalf(x - e, ref, whole - product);
  }

  lemma ScaleHalf(rest: real, ref: real, product: real)
    requires ref > 0.0 && product == rest * ref
    ensures rest <= 0.5 <==> 2.0 * product <= ref
    ensures 0.5 <= rest <==> ref <= 2.0 * product
  {
    OrderScales(2.0 * rest, 1.0, ref);
    OrderScales(1.0, 2.0 * rest, ref);
    assert 2.0 * rest * ref == 2.0 * product;
  }

  /** Multiplying by a positive number keeps the order. */
  lemma OrderScales(x: real, y: real, c: real)
    requires c > 0.0
    ensures x <= y <==> x * c <= y * c
  {
    if x <= y {
      assert (y - x) * c >= 0.0;
    } else {
      assert (x - y) * c > 0.0;
    }
  }

  lemma RoundScaled(raw: int, speed: real)
    requires 0 <= raw && 0.0 <= speed <= 1.0
    ensures 0 <= Scaled(raw, speed) <= raw
  {
    var x := raw as real * speed;
    assert 0.0 <= x <= raw as real by {
      ScaleDown(raw as real, speed);
    }
    RoundStaysBelow(x, raw);
    var r := Round(x);
    assert 0 <= r <= raw;
    assert Scaled(raw, speed) == r;
  }

  lemma QuotientInUnit(a: real, b: real)
    requires 0.0 < a <= b
    ensures 0.0 < a / b <= 1.0
  {
  }

  lemma ScaleDown(x: real, f: real)
    requires 0.0 <= x && 0.0 <= f <= 1.0
    ensures 0.0 <= x * f <= x
  {
  }

  /** `compute_exec_time_sec`. */
  function ExecTime(cfg: Config, sid: int, svc: int): (t: real)
    requires sid in cfg.servers && svc in cfg.services && cfg.referenceMips > 0.0
    requires GoodServer(cfg, cfg.servers[sid]) && GoodService(cfg.services[svc])
    ensures t > 0.0
  {
    QuotientInUnit(cfg.servers[sid].mipsPerCore, cfg.referenceMips);
    var effective := cfg.services[svc].resource as real * SpeedFactor(cfg, sid);
    PositiveProduct(cfg.services[svc].resource as real, SpeedFactor(cfg, sid));
    PositiveQuotient(cfg.services[svc].taskLength, effective);
    cfg.services[svc].taskLength / effective
  }

  /** In this time the host, at its speed, works off the length of the task. */
  lemma ExecTimeDoesTheTask(cfg: Config, sid: int, svc: int)
    requires GoodConfig(cfg) && sid in cfg.servers && svc in cfg.services
    ensures GoodServer(cfg, cfg.servers[sid]) && GoodService(cfg.services[svc])
    ensures ExecTime(cfg, sid, svc) * cfg.services[svc].resource as real * cfg.servers[sid].mipsPerCore
            == cfg.services[svc].taskLength * cfg.referenceMips
  {
    assert GoodServer(cfg, cfg.servers[sid]) && GoodService(cfg.services[svc]);
    var raw, mips, ref := cfg.services[svc].resource as real, cfg.servers[sid].mipsPerCore, cfg.referenceMips;
    ScaledBack(raw, mips, ref);
    PositiveProduct(raw, SpeedFactor(cfg, sid));
    Regroup(ExecTime(cfg, sid, svc), raw, mips, raw * SpeedFactor(cfg, sid), ref, cfg.services[svc].taskLength);
  }

  lemma Regroup(t: real, raw: real, mips: real, effective: real, ref: real, task: real)
    requires effective > 0.0 && t == task / effective && effective * ref == raw * mips
    ensures t * raw * mips == task * ref
  {
    assert t * effective == task;
    assert t * raw * mips == t * (raw * mips) == t * (effective * ref) == t * effective * ref;
  }

  lemma PositiveProduct(x: real, y: real)
    requires x > 0.0 && y > 0.0
    ensures x * y > 0.0
  {
  }

  lemma PositiveQuotient(x: real, y: real)
    requires x > 0.0 && y > 0.0
    ensures x / y > 0.0
  {
  }

  function Least(x: real, y: real): real {
    if y < x then y else x
  }

  /** `compute_cold_start_window_sec`. */
  function ColdStartWindow(exec: real): real {
    Least(exec * 3.0, 10.0)
  }

  /** `compute_cold_start_penalty_sec`. */
  function ColdStartPenalty(deadline: real, exec: real): real {
    Least(Least(deadline * 0.20, exec * 0.50), 0.500)
  }

  /** A replica is cold as long as neither three executions nor ten seconds have passed,
      and the penalty is the least of its three bounds. */
  lemma ColdStartBounds(deadline: real, exec: real, age: real)
    ensures age <= ColdStartWindow(exec) <==> age <= 3.0 * exec && age <= 10.0
    ensures var penalty := ColdStartPenalty(deadline, exec);
            && 5.0 * penalty <= deadline && 2.0 * penalty <= exec && penalty <= 0.5
            && (5.0 * penalty == deadline || 2.0 * penalty == exec || penalty == 0.5)
  {
  }

  lemma PenaltyAtMostHalf(deadline: real, exec: real)
    requires 0.0 < deadline && 0.0 < exec
    ensures 0.0 < ColdStartPenalty(deadline, exec) <= exec / 2.0
  {
  }

  /** `network_delay_ms`. */
  function NetworkDelayMs(cfg: Config, km: real): real {
    cfg.baseMs + cfg.perKmMs * km
  }

  /** The round trip to the dispatcher, in seconds. */
  function RoutingDelay(cfg: Config, at: Position): real {
    2.0 * (cfg.baseMs + cfg.perKmMs * cfg.distance(at, cfg.dispatcher) + cfg.overheadMs) / 1000.0
  }

  lemma RoutingDelayNonnegative(cfg: Config, at: Position)
    requires GoodConfig(cfg)
    ensures RoutingDelay(cfg, at) >= 0.0
  {
    var km := cfg.distance(at, cfg.dispatcher);
    assert cfg.perKmMs * km >= 0.0 by {
      NonnegativeProduct(cfg.perKmMs, km);
    }
  }

  lemma NonnegativeProduct(x: real, y: real)
    requires x >= 0.0 && y >= 0.0
    ensures x * y >= 0.0
  {
  }
}
