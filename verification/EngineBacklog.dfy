/** How long accepted work can last. If no queue of the tables is longer than `limit`,
    a drain ends within a constant time; and if `limit` is short enough for the
    decision interval, no service is ever orphaned by a drain. */
module EngineBacklog {
  import opened Settings
  import opened ReplicaQueues
  import opened EngineModel
  import opened EngineInvariants
  import opened EngineClock
  import opened EngineReady
  import opened EngineServers
  import opened EngineHandlers
  import opened EngineTick
  import opened EngineDrain
  import opened EngineRuns
  import opened EnginePrime
  import opened EngineLedger
  import opened EngineAccounts
  import opened EngineLifecycle
  import opened EngineService

  // ------------------------------------------------------------------
  // The bound from the tables, and the invariant
  // ------------------------------------------------------------------

  /** The work a full queue of the service can hold on the host, cold starts included. */
  ghost function FullQueue(cfg: Config, sid: int, svc: int): real
    requires GoodConfig(cfg) && sid in cfg.servers && svc in cfg.services
  {
    assert GoodServer(cfg, cfg.servers[sid]) && GoodService(cfg.services[svc]);
    cfg.services[svc].queueLen as real * (1.5 * ExecTime(cfg, sid, svc))
  }

  /** No full queue of the tables lasts longer than `limit`. */
  ghost predicate QueuesWithin(cfg: Config, limit: real)
    requires GoodConfig(cfg)
  {
    0.0 <= limit && forall sid, svc :: sid in cfg.servers && svc in cfg.services ==> FullQueue(cfg, sid, svc) <= limit
  }

  /** The replica has the queue of its service and the execution time of its host. */
  ghost predicate FromTables(cfg: Config, r: Replica)
    requires GoodConfig(cfg)
  {
    && r.server in cfg.servers && r.service in cfg.services
    && GoodServer(cfg, cfg.servers[r.server]) && GoodService(cfg.services[r.service])
    && r.queue.capacity == cfg.services[r.service].queueLen
    && r.queue.exec == ExecTime(cfg, r.server, r.service)
  }

  ghost predicate PacedOk(cfg: Config, s: State, limit: real, o: nat)
    requires GoodConfig(cfg) && o < |s.objects|
  {
    && FromTables(cfg, s.objects[o]) && Paced(s.objects[o].queue, s.now, 1.5 * s.objects[o].queue.exec)
    && s.objects[o].queue.availableAt <= s.now + limit
  }

  /** By when every replica told to leave since the last tick is gone. */
  function LeftBy(cfg: Config, tau: real, limit: real): real {
    tau - cfg.delays.interval + cfg.delays.startup + Later(cfg.delays.graceful, limit)
  }

  ghost predicate DrainsRecent(cfg: Config, s: State, tau: real, limit: real, sid: int)
    requires sid in s.servers
  {
    s.servers[sid].phase == Draining ==>
      && s.servers[sid].lastTransition + cfg.delays.interval <= tau
      && forall o :: 0 <= o < |s.objects| && s.objects[o].server == sid ==>
                       s.objects[o].queue.availableAt <= s.servers[sid].lastTransition + cfg.delays.startup + limit
  }

  /** Queues keep the pace of the tables, terminations are due soon after the last
      tick, and drains began at a tick with bounded work. */
  ghost predicate Brisk(cfg: Config, s: State, tau: real, limit: real)
    requires GoodConfig(cfg)
  {
    && 0.0 <= s.now
    && (forall o :: 0 <= o < |s.objects| ==> PacedOk(cfg, s, limit, o))
    && (forall k :: k in s.heap && s.heap[k].kind.ReplicaGone? ==> s.heap[k].time <= LeftBy(cfg, tau, limit))
    && (forall sid :: sid in s.servers ==> DrainsRecent(cfg, s, tau, limit, sid))
  }

  // ------------------------------------------------------------------
  // Updates that leave it alone
  // ------------------------------------------------------------------

  /** Same queues, no new termination, no new drain. */
  ghost predicate Leisurely(s: State, r: State) {
    && r.now == s.now && |r.objects| == |s.objects|
    && (forall o :: 0 <= o < |s.objects| ==>
          SlotOf(r, o) == SlotOf(s, o) && r.objects[o].queue == s.objects[o].queue)
    && (forall k :: k in r.heap && r.heap[k].kind.ReplicaGone? ==> k in s.heap && s.heap[k] == r.heap[k])
    && r.servers.Keys == s.servers.Keys
    && (forall sid :: sid in s.servers && r.servers[sid].phase == Draining ==>
          s.servers[sid].phase == Draining && r.servers[sid].lastTransition == s.servers[sid].lastTransition)
  }

  lemma LeisureKeeps(cfg: Config, s: State, r: State, tau: real, limit: real)
    requires GoodConfig(cfg) && Brisk(cfg, s, tau, limit) && Leisurely(s, r)
    ensures Brisk(cfg, r, tau, limit)
  {
    hide FromTables, GoodConfig, LeftBy;
    forall o | 0 <= o < |r.objects| ensures PacedOk(cfg, r, limit, o) {
      assert PacedOk(cfg, s, limit, o) && SlotOf(r, o) == SlotOf(s, o);
      SameTables(cfg, s.objects[o], r.objects[o]);
    }
    forall sid | sid in r.servers ensures DrainsRecent(cfg, r, tau, limit, sid) {
      assert DrainsRecent(cfg, s, tau, limit, sid);
      forall o | 0 <= o < |r.objects| && r.objects[o].server == sid && r.servers[sid].phase == Draining
        ensures r.objects[o].queue.availableAt <= r.servers[sid].lastTransition + cfg.delays.startup + limit
      {
        assert SlotOf(r, o) == SlotOf(s, o) && s.objects[o].server == sid;
      }
    }
  }

  lemma SameTables(cfg: Config, a: Replica, b: Replica)
    requires GoodConfig(cfg) && FromTables(cfg, a)
    requires b.server == a.server && b.service == a.service && b.queue.capacity == a.queue.capacity
    requires b.queue.exec == a.queue.exec
    ensures FromTables(cfg, b)
  {
  }

  lemma LeisureTrans(s: State, m: State, r: State)
    requires Leisurely(s, m) && Leisurely(m, r)
    ensures Leisurely(s, r)
  {
    forall o | 0 <= o < |s.objects|
      ensures SlotOf(r, o) == SlotOf(s, o) && r.objects[o].queue == s.objects[o].queue
    {
      assert SlotOf(m, o) == SlotOf(s, o) && SlotOf(r, o) == SlotOf(m, o);
    }
  }

  /** Popping, metering and moving the clock. */
  lemma PoppedBrisk(cfg: Config, s: State, k: nat, tau: real, limit: real)
    requires GoodConfig(cfg) && Linked(cfg, s) && k in s.heap && s.now <= s.heap[k].time && Brisk(cfg, s, tau, limit)
    ensures Brisk(cfg, Popped(cfg, s, k), tau, limit)
  {
    hide FromTables, GoodConfig, LeftBy, Linked, Metered;
    var p := Popped(cfg, s, k);
    forall o | 0 <= o < |p.objects| ensures PacedOk(cfg, p, limit, o) {
      assert PacedOk(cfg, s, limit, o);
      PacedLater(s.objects[o].queue, s.now, p.now, 1.5 * s.objects[o].queue.exec);
    }
    forall sid | sid in p.servers ensures DrainsRecent(cfg, p, tau, limit, sid) {
      assert DrainsRecent(cfg, s, tau, limit, sid);
    }
  }

  // ------------------------------------------------------------------
  // Updates that do not
  // ------------------------------------------------------------------

  /** Telling a replica to leave within one startup delay after the last tick. */
  lemma RetireBrisk(cfg: Config, s: State, tau: real, limit: real, o: nat)
    requires GoodConfig(cfg) && Brisk(cfg, s, tau, limit) && o < |s.objects|
    requires s.now <= tau - cfg.delays.interval + cfg.delays.startup
    ensures Brisk(cfg, Retire(cfg, s, o), tau, limit)
  {
    hide FromTables, GoodConfig;
    assert PacedOk(cfg, s, limit, o);
    var r := Retire(cfg, s, o);
    var w := WithObject(s, o, r.objects[o]);
    assert Leisurely(s, w);
    LeisureKeeps(cfg, s, w, tau, limit);
    forall p | 0 <= p < |r.objects| ensures PacedOk(cfg, r, limit, p) {
      assert PacedOk(cfg, w, limit, p);
    }
    forall sid | sid in r.servers ensures DrainsRecent(cfg, r, tau, limit, sid) {
      assert DrainsRecent(cfg, w, tau, limit, sid);
    }
  }

  /** A new replica on a host that is not draining. */
  lemma CreateBrisk(cfg: Config, s: State, tau: real, limit: real, sid: int, svc: int)
    requires GoodConfig(cfg) && Linked(cfg, s) && 0.0 <= limit && Brisk(cfg, s, tau, limit)
    requires sid in s.servers && svc in cfg.services && s.servers[sid].phase != Draining
    ensures Brisk(cfg, Create(cfg, s, sid, svc), tau, limit)
  {
    hide GoodConfig, LeftBy, ExecTime;
    var r := Create(cfg, s, sid, svc);
    forall o | 0 <= o < |r.objects| ensures PacedOk(cfg, r, limit, o) {
      if o < |s.objects| {
        assert PacedOk(cfg, s, limit, o);
      } else {
        FreshBrisk(cfg, sid, svc, s.now);
      }
    }
    forall x | x in r.servers ensures DrainsRecent(cfg, r, tau, limit, x) {
      assert DrainsRecent(cfg, s, tau, limit, x);
    }
  }

  lemma FreshBrisk(cfg: Config, sid: int, svc: int, now: real)
    requires GoodConfig(cfg) && sid in cfg.servers && svc in cfg.services && 0.0 <= now
    ensures var r := FreshReplica(cfg, sid, svc, now); FromTables(cfg, r) && Paced(r.queue, now, 1.5 * r.queue.exec)
  {
    assert GoodServer(cfg, cfg.servers[sid]) && GoodService(cfg.services[svc]);
  }

  lemma PlaceBrisk(cfg: Config, s: State, tau: real, limit: real, sid: int, svc: int)
    requires GoodConfig(cfg) && Linked(cfg, s) && 0.0 <= limit && Brisk(cfg, s, tau, limit)
    requires sid in s.servers && svc in cfg.services && s.servers[sid].phase != Draining
    ensures Brisk(cfg, Place(cfg, s, sid, svc).0, tau, limit)
  {
    hide Brisk, GoodConfig, Linked, CanHost;
    if CanHost(cfg, s, sid, svc) {
      CreateBrisk(cfg, s, tau, limit, sid, svc);
      var s1 := Create(cfg, s, sid, svc);
      assert Leisurely(s1, Place(cfg, s, sid, svc).0);
      LeisureKeeps(cfg, s1, Place(cfg, s, sid, svc).0, tau, limit);
    }
  }

  /** One admission. On a draining host it comes within one startup delay. */
  lemma AdmissionBrisk(cfg: Config, s: State, tau: real, limit: real, o: nat, extra: real)
    requires GoodConfig(cfg) && QueuesWithin(cfg, limit) && Brisk(cfg, s, tau, limit) && o < |s.objects|
    requires QueueOk(s, o)
    requires 0.0 <= extra <= s.objects[o].queue.exec / 2.0 && s.objects[o].server in s.servers
    requires s.servers[s.objects[o].server].phase == Draining ==>
               s.now <= s.servers[s.objects[o].server].lastTransition + cfg.delays.startup
    ensures Brisk(cfg, WithObject(s, o, s.objects[o].(queue := Admit(s.objects[o].queue, s.now, extra).0)), tau, limit)
  {
    hide GoodConfig, LeftBy, Admit, Paced, FromTables, Consistent;
    var q := Admit(s.objects[o].queue, s.now, extra).0;
    var r := WithObject(s, o, s.objects[o].(queue := q));
    assert PacedOk(cfg, s, limit, o);
    AdmittedAvailable(cfg, s, r, tau, limit, o, extra);
    forall p | 0 <= p < |r.objects| ensures PacedOk(cfg, r, limit, p) {
      assert PacedOk(cfg, s, limit, p);
    }
    forall x | x in r.servers ensures DrainsRecent(cfg, r, tau, limit, x) {
      assert DrainsRecent(cfg, s, tau, limit, x);
    }
  }

  lemma AdmittedAvailable(cfg: Config, s: State, r: State, tau: real, limit: real, o: nat, extra: real)
    requires GoodConfig(cfg) && QueuesWithin(cfg, limit) && o < |s.objects| && QueueOk(s, o)
    requires PacedOk(cfg, s, limit, o)
    requires 0.0 <= extra <= s.objects[o].queue.exec / 2.0
    requires r == WithObject(s, o, s.objects[o].(queue := Admit(s.objects[o].queue, s.now, extra).0))
    ensures PacedOk(cfg, r, limit, o)
  {
    hide GoodConfig, FromTables, Paced, Admit, QueuesWithin;
    AdmittedBacklog(s.objects[o].queue, s.now, extra, 1.5 * s.objects[o].queue.exec);
    SameTables(cfg, s.objects[o], r.objects[o]);
    TableLimit(cfg, limit, r.objects[o]);
  }

  lemma TableLimit(cfg: Config, limit: real, r: Replica)
    requires GoodConfig(cfg) && QueuesWithin(cfg, limit) && FromTables(cfg, r)
    ensures r.queue.capacity as real * (1.5 * r.queue.exec) <= limit
  {
    assert FullQueue(cfg, r.server, r.service) <= limit;
  }

  // ------------------------------------------------------------------
  // The decision tick
  // ------------------------------------------------------------------

  /** A later tick allows more. */
  lemma TickBrisk(cfg: Config, p: State, tau: real, limit: real)
    requires GoodConfig(cfg) && Brisk(cfg, p, tau, limit)
    ensures Brisk(cfg, TickStart(p), tau + cfg.delays.interval, limit)
  {
    hide FromTables;
    var r := TickStart(p);
    forall o | 0 <= o < |r.objects| ensures PacedOk(cfg, r, limit, o) {
      assert PacedOk(cfg, p, limit, o);
    }
    forall sid | sid in r.servers ensures DrainsRecent(cfg, r, tau + cfg.delays.interval, limit, sid) {
      assert DrainsRecent(cfg, p, tau, limit, sid);
    }
  }

  lemma {:induction false} RescueLeisurely(cfg: Config, s: State, picks: seq<MigrationStep>)
    requires s.servers.Keys == cfg.servers.Keys
    requires forall i :: 0 <= i < |picks| ==> picks[i].service in cfg.services
    ensures Leisurely(s, RescueAll(cfg, s, picks).0)
    decreases |picks|
  {
    hide Leisurely;
    if picks == [] {
      SameLeisure(s);
    } else {
      var n := |picks| - 1;
      var (m, reserved) := RescueAll(cfg, s, picks[..n]);
      RescueLeisurely(cfg, s, picks[..n]);
      RescueOneLeisurely(cfg, s, m, reserved, picks[n]);
      LeisureTrans(s, m, RescueOne(cfg, s, m, reserved, picks[n]).0);
    }
  }

  lemma SameLeisure(s: State)
    ensures Leisurely(s, s)
  {
  }

  lemma RescueOneLeisurely(cfg: Config, s: State, m: State, reserved: map<int, int>, pick: MigrationStep)
    requires s.servers.Keys == cfg.servers.Keys == m.servers.Keys && pick.service in cfg.services
    ensures Leisurely(m, RescueOne(cfg, s, m, reserved, pick).0)
  {
    hide StartBoot, Leisurely;
    var r := RescueOne(cfg, s, m, reserved, pick).0;
    if r == m {
      SameLeisure(m);
    } else {
      EmergencyLeisurely(cfg, m, pick);
    }
  }

  lemma EmergencyLeisurely(cfg: Config, m: State, pick: MigrationStep)
    requires pick.target in m.servers
    ensures Leisurely(m, StartBoot(cfg, m.(rescue := m.rescue[pick.service := pick.target]), pick.target, true))
  {
  }

  lemma MarkBrisk(cfg: Config, s: State, tau: real, limit: real, sid: int)
    requires GoodConfig(cfg) && Linked(cfg, s) && Brisk(cfg, s, tau, limit) && sid in s.servers
    requires s.now + cfg.delays.interval <= tau
    ensures Brisk(cfg, MarkDraining(cfg, s, sid), tau, limit)
  {
    hide FromTables, Linked, LeftBy;
    var r := MarkDraining(cfg, s, sid);
    forall o | 0 <= o < |r.objects| ensures PacedOk(cfg, r, limit, o) {
      assert PacedOk(cfg, s, limit, o);
    }
    forall x | x in r.servers ensures DrainsRecent(cfg, r, tau, limit, x) {
      assert DrainsRecent(cfg, s, tau, limit, x);
      forall o | 0 <= o < |r.objects| && x == sid && r.objects[o].server == x
        ensures r.objects[o].queue.availableAt <= r.servers[x].lastTransition + cfg.delays.startup + limit
      {
        assert PacedOk(cfg, s, limit, o);
      }
    }
  }

  ghost predicate TargetsServe(s: State, steps: seq<MigrationStep>) {
    forall i :: 0 <= i < |steps| ==> steps[i].target in s.servers && s.servers[steps[i].target].phase == Active
  }

  lemma {:induction false} MigrateAllBrisk(cfg: Config, s: State, tau: real, limit: real, sid: int,
                                           steps: seq<MigrationStep>)
    requires GoodConfig(cfg) && Linked(cfg, s) && 0.0 <= limit && Brisk(cfg, s, tau, limit)
    requires sid in s.servers && StepsInBounds(cfg, s, steps) && TargetsServe(s, steps)
    ensures Brisk(cfg, MigrateAll(cfg, s, sid, steps), tau, limit)
    ensures forall x :: x in s.servers ==> MigrateAll(cfg, s, sid, steps).servers[x].phase == s.servers[x].phase
    decreases |steps|
  {
    hide Brisk, GoodConfig, Linked, CanHost;
    if steps != [] {
      var n := |steps| - 1;
      MigrateAllBrisk(cfg, s, tau, limit, sid, steps[..n]);
      var m := MigrateAll(cfg, s, sid, steps[..n]);
      assert steps[n].target in s.servers;
      MigrateBrisk(cfg, m, tau, limit, sid, steps[n]);
    }
  }

  lemma MigrateBrisk(cfg: Config, m: State, tau: real, limit: real, sid: int, step: MigrationStep)
    requires GoodConfig(cfg) && Linked(cfg, m) && 0.0 <= limit && Brisk(cfg, m, tau, limit) && sid in m.servers
    requires step.target in m.servers && m.servers[step.target].phase == Active && step.service in cfg.services
    ensures Brisk(cfg, Migrate(cfg, m, sid, step), tau, limit)
    ensures forall x :: x in m.servers ==> Migrate(cfg, m, sid, step).servers[x].phase == m.servers[x].phase
  {
    hide Brisk, GoodConfig, Linked, CanHost;
    PlaceBrisk(cfg, m, tau, limit, step.target, step.service);
    var placed := Place(cfg, m, step.target, step.service).0;
    assert Leisurely(placed, Migrate(cfg, m, sid, step));
    LeisureKeeps(cfg, placed, Migrate(cfg, m, sid, step), tau, limit);
  }

  lemma {:induction false} RetireAllBrisk(cfg: Config, s: State, tau: real, limit: real, sid: int, order: seq<int>,
                                          migrated: set<int>)
    requires GoodConfig(cfg) && InStore(s, sid) && Brisk(cfg, s, tau, limit)
    requires s.now <= tau - cfg.delays.interval + cfg.delays.startup
    ensures Brisk(cfg, RetireAll(cfg, s, sid, order, migrated), tau, limit)
    decreases |order|
  {
    hide Brisk, GoodConfig;
    if order != [] {
      var n := |order| - 1;
      RetireAllBrisk(cfg, s, tau, limit, sid, order[..n], migrated);
      if order[n] !in migrated && order[n] in s.servers[sid].hosted {
        RetireBrisk(cfg, RetireAll(cfg, s, sid, order[..n], migrated), tau, limit, At(s, sid, order[n]));
      }
    }
  }

  lemma KeptTargetsServe(cfg: Config, s: State, sid: int, plan: DrainPlan)
    requires GoodConfig(cfg) && Linked(cfg, s) && sid in s.servers && PlanOk(cfg, s, sid, plan)
    requires PlanInBounds(cfg, s, plan)
    ensures TargetsServe(MarkDraining(cfg, s, sid), KeepSteps(cfg, s, plan.steps).0)
  {
    hide GoodConfig, Linked, KeepSteps, SoleHosted, CanHost;
    KeptStepsOk(cfg, s, sid, plan);
    var steps := KeepSteps(cfg, s, plan.steps).0;
    forall i | 0 <= i < |steps|
      ensures steps[i].target in s.servers && MarkDraining(cfg, s, sid).servers[steps[i].target].phase == Active
    {
      assert StepOk(cfg, s, sid, steps[i]);
    }
  }

  lemma DrainBrisk(cfg: Config, s: State, tau: real, limit: real, sid: int, plan: DrainPlan)
    requires GoodConfig(cfg) && Linked(cfg, s) && sid in s.servers && PlanOk(cfg, s, sid, plan)
    requires PlanInBounds(cfg, s, plan)
    requires 0.0 <= limit && Brisk(cfg, s, tau, limit) && s.now + cfg.delays.interval == tau && cfg.delays.startup > 0.0
    ensures Brisk(cfg, Drain(cfg, s, sid, plan), tau, limit)
  {
    hide Brisk, GoodConfig, Linked, KeepSteps, PlanOk, TargetsServe, RetireAll, MigrateAll, Leisurely, MarkDraining,
      ServicesOf;
    var steps := KeepSteps(cfg, s, plan.steps).0;
    var d := MarkDraining(cfg, s, sid);
    KeptTargetsServe(cfg, s, sid, plan);
    MarkBrisk(cfg, s, tau, limit, sid);
    MigrateAllBrisk(cfg, d, tau, limit, sid, steps);
    MovedNow(cfg, d, sid, steps);
    MarkedNow(cfg, s, sid);
    var m := Moved(cfg, s, sid, steps);
    RetireAllBrisk(cfg, m, tau, limit, sid, plan.order, ServicesOf(steps));
    var r := RetireAll(cfg, m, sid, plan.order, ServicesOf(steps));
    PushLeisurely(r, s.now + cfg.delays.grace, DrainDone(sid));
    LeisureKeeps(cfg, r, Drain(cfg, s, sid, plan), tau, limit);
  }

  lemma MarkedNow(cfg: Config, s: State, sid: int)
    requires Linked(cfg, s) && sid in s.servers
    ensures MarkDraining(cfg, s, sid).now == s.now
  {
  }

  lemma {:induction false} MovedNow(cfg: Config, s: State, sid: int, steps: seq<MigrationStep>)
    requires GoodConfig(cfg) && Linked(cfg, s) && sid in s.servers && StepsInBounds(cfg, s, steps)
    ensures MigrateAll(cfg, s, sid, steps).now == s.now
    decreases |steps|
  {
    hide GoodConfig, Linked, CanHost;
    if steps != [] {
      MovedNow(cfg, s, sid, steps[..|steps| - 1]);
    }
  }

  lemma PushLeisurely(s: State, time: real, kind: Kind)
    requires !kind.ReplicaGone?
    ensures Leisurely(s, Push(s, time, kind))
  {
  }

  lemma ProvisionBrisk(cfg: Config, s: State, tau: real, limit: real, action: Provision)
    requires GoodConfig(cfg) && Linked(cfg, s) && ProvisionOk(cfg, s, action)
    requires action.TurnOff? ==> PlanInBounds(cfg, s, action.plan)
    requires 0.0 <= limit && Brisk(cfg, s, tau, limit) && s.now + cfg.delays.interval == tau
    ensures Brisk(cfg, ApplyProvision(cfg, s, action), tau, limit)
  {
    hide Brisk, GoodConfig, Drain, Unmigrated, PlanOk;
    var r := ApplyProvision(cfg, s, action);
    match action
    case NoProvision =>
    case TurnOn(sid) =>
      assert Leisurely(s, r);
      LeisureKeeps(cfg, s, r, tau, limit);
    case TurnOff(sid, plan) =>
      if MayTurnOff(cfg, s, sid) {
        if Unmigrated(cfg, s, sid, plan) != {} {
          RescueLeisurely(cfg, s, plan.picks);
          LeisureKeeps(cfg, s, r, tau, limit);
        } else {
          assert cfg.delays.startup > 0.0 by {
            DelaysPositive(cfg);
          }
          DrainBrisk(cfg, s, tau, limit, sid, plan);
        }
      }
  }

  lemma ScalingBrisk(cfg: Config, s: State, tau: real, limit: real, decision: Scaling)
    requires GoodConfig(cfg) && Linked(cfg, s) && 0.0 <= limit && Brisk(cfg, s, tau, limit)
    requires s.now <= tau - cfg.delays.interval + cfg.delays.startup
    ensures Brisk(cfg, ApplyScaling(cfg, s, decision), tau, limit)
  {
    hide Brisk, GoodConfig, CanHost, Linked, Place, Retire;
    var r := ApplyScaling(cfg, s, decision);
    match decision
    case NoScaling =>
    case ScaleUp(svc, target) =>
      if r != s {
        PlaceBrisk(cfg, s, tau, limit, target.value, svc);
        var placed := Place(cfg, s, target.value, svc).0;
        assert Leisurely(placed, r);
        LeisureKeeps(cfg, placed, r, tau, limit);
      }
    case ScaleDown(svc, victim) =>
      if r != s {
        RetireBrisk(cfg, s, tau, limit, victim);
        var left := Retire(cfg, s, victim);
        assert Leisurely(left, r);
        LeisureKeeps(cfg, left, r, tau, limit);
      }
  }

  lemma {:induction false} ScaleAllBrisk(cfg: Config, s: State, tau: real, limit: real, decisions: seq<Scaling>)
    requires GoodConfig(cfg) && Linked(cfg, s) && 0.0 <= limit && Brisk(cfg, s, tau, limit)
    requires s.now <= tau - cfg.delays.interval + cfg.delays.startup
    ensures Brisk(cfg, ScaleAll(cfg, s, decisions), tau, limit)
    decreases |decisions|
  {
    hide Brisk, GoodConfig, Linked, ApplyScaling;
    if decisions != [] {
      var n := |decisions| - 1;
      ScaleAllBrisk(cfg, s, tau, limit, decisions[..n]);
      ScaleAllNow(cfg, s, decisions[..n]);
      ScalingBrisk(cfg, ScaleAll(cfg, s, decisions[..n]), tau, limit, decisions[n]);
    }
  }

  lemma DelaysPositive(cfg: Config)
    requires GoodConfig(cfg)
    ensures cfg.delays.startup > 0.0
  {
  }

  lemma ResetLeisurely(s: State, time: real)
    ensures Leisurely(s, Push(ResetWindow(s), time, DecisionTick))
  {
  }

  lemma HandleTickBrisk(cfg: Config, p: State, tau: real, limit: real, choice: Choice)
    requires GoodConfig(cfg) && Linked(cfg, p) && Linked(cfg, TickStart(p)) && ChoiceLinked(cfg, p, choice)
    requires ProvisionOk(cfg, TickStart(p), choice.provision)
    requires choice.provision.TurnOff? ==> PlanInBounds(cfg, TickStart(p), choice.provision.plan)
    requires 0.0 <= limit && Brisk(cfg, p, tau, limit) && p.now == tau
    ensures Brisk(cfg, Handle(cfg, p, DecisionTick, choice), tau + cfg.delays.interval, limit)
  {
    hide Brisk, GoodConfig, Linked, ApplyProvision, ScaleAll, ProvisionOk, PlanInBounds, ChoiceLinked, Leisurely,
      ResetWindow;
    DelaysPositive(cfg);
    var next := tau + cfg.delays.interval;
    TickBrisk(cfg, p, tau, limit);
    var s1 := ApplyProvision(cfg, TickStart(p), choice.provision);
    ProvisionBrisk(cfg, TickStart(p), next, limit, choice.provision);
    ApplyProvisionNow(cfg, TickStart(p), choice.provision);
    var s2 := ScaleAll(cfg, s1, choice.scaling);
    ScaleAllBrisk(cfg, s1, next, limit, choice.scaling);
    ResetLeisurely(s2, p.now + cfg.delays.interval);
    LeisureKeeps(cfg, s2, Push(ResetWindow(s2), p.now + cfg.delays.interval, DecisionTick), next, limit);
  }

  // ------------------------------------------------------------------
  // The other events
  // ------------------------------------------------------------------

  lemma HandleReadyBrisk(cfg: Config, p: State, tau: real, limit: real, slot: Slot, o: nat)
    requires GoodConfig(cfg) && Linked(cfg, p) && SlotsOk(p) && PhasesOk(p) && Brisk(cfg, p, tau, limit)
    requires forall sid :: sid in p.servers ==> InStore(p, sid)
    requires slot.server in p.servers && WasLegitimate(cfg, p, tau, ReplicaReady(slot, o))
    ensures Brisk(cfg, HandleReady(cfg, p, slot), tau, limit)
  {
    LegitimateReadyIsDue(cfg, p, tau, slot, o);
    HandleReadyShape(cfg, p, slot, o);
    var m := MarkReady(p, slot, o);
    assert Leisurely(p, m);
    LeisureKeeps(cfg, p, m, tau, limit);
    if SourceStillReady(p, slot) {
      var source := p.pending[slot];
      assert DrainsRecent(cfg, p, tau, limit, source);
      hide Brisk;
      RetireBrisk(cfg, m, tau, limit, At(p, source, slot.service));
    }
  }

  /** A request is accepted on a draining host only until its migrations complete. */
  lemma CandidateIsEarly(cfg: Config, p: State, tau: real, svc: int, o: nat)
    requires SlotsOk(p) && IndexOk(p) && PhasesOk(p) && CoverOk(p) && EventsOk(cfg, p, tau) && PendingOk(cfg, p)
    requires SlotsArmed(p, {}) && Candidate(p, svc, o)
    ensures p.objects[o].server in p.servers
    ensures p.servers[p.objects[o].server].phase == Draining ==>
              p.now <= p.servers[p.objects[o].server].lastTransition + cfg.delays.startup
  {
    var sid := p.objects[o].server;
    assert ListedOk(p, svc, o);
    assert SlotOk(p, sid, svc) && PhaseOk(p, sid, svc) && SlotCovered(p, sid, svc);
    if p.servers[sid].phase == Draining {
      var t :| MigratesTo(p, sid, svc, t);
      PendingIsRecent(cfg, p, tau, {}, Slot(t, svc));
    }
  }

  lemma ColdStartWithinHalf(cfg: Config, r: Replica, now: real)
    requires GoodConfig(cfg) && r.service in cfg.services && r.queue.exec > 0.0
    ensures 0.0 <= ColdStartExtra(cfg, r, now) <= r.queue.exec / 2.0
  {
    assert GoodService(cfg.services[r.service]);
    PenaltyAtMostHalf(cfg.services[r.service].deadline, r.queue.exec);
  }

  lemma RoutedBrisk(cfg: Config, p: State, tau: real, limit: real, req: Request, selected: Option<nat>)
    requires GoodConfig(cfg) && QueuesWithin(cfg, limit) && Core(cfg, p, tau, {}) && CoverOk(p)
    requires Brisk(cfg, p, tau, limit)
    requires req.service in cfg.services && SelectionOk(p, req.service, selected)
    requires selected.Some? ==> p.objects[selected.value].server in cfg.servers
    requires selected.Some? ==> p.objects[selected.value].service in cfg.services
    ensures Brisk(cfg, HandleRouted(cfg, p, req, selected), tau, limit)
  {
    match selected
    case None =>
      FinalizeLeisurely(cfg, p, req);
      LeisureKeeps(cfg, p, HandleRouted(cfg, p, req, None), tau, limit);
    case Some(o) =>
      var r := p.objects[o];
      assert QueueOk(p, o);
      CandidateIsEarly(cfg, p, tau, req.service, o);
      var extra := ColdStartExtra(cfg, r, p.now);
      ColdStartWithinHalf(cfg, r, p.now);
      hide Core, CoverOk, Brisk, Candidate, HasRoom, QueueOk, GoodConfig, QueuesWithin;
      AdmissionBrisk(cfg, p, tau, limit, o, extra);
      var m := WithObject(p, o, r.(queue := Admit(r.queue, p.now, extra).0));
      AdmittedLeisurely(cfg, p, m, req, o);
      LeisureKeeps(cfg, m, HandleRouted(cfg, p, req, selected), tau, limit);
  }

  lemma FinalizeLeisurely(cfg: Config, p: State, req: Request)
    requires req.service in cfg.services
    ensures Leisurely(p, HandleRouted(cfg, p, req, None))
  {
  }

  lemma AdmittedLeisurely(cfg: Config, p: State, m: State, req: Request, o: nat)
    requires o < |p.objects| && p.objects[o].server in cfg.servers && p.objects[o].service in cfg.services
    requires req.service in cfg.services
    requires var r := p.objects[o];
             m == WithObject(p, o, r.(queue := Admit(r.queue, p.now, ColdStartExtra(cfg, r, p.now)).0))
    ensures Leisurely(m, HandleRouted(cfg, p, req, Some(o)))
  {
    hide Admit, ColdStartExtra, ResponseTime, NetworkDelayMs, RecordRequest, Leisurely;
    var r := HandleRouted(cfg, p, req, Some(o));
    RecordedLeisurely(m, r);
  }

  lemma RecordedLeisurely(m: State, r: State)
    requires r == m.(heap := r.heap, lastSeq := r.lastSeq, log := r.log, metrics := r.metrics)
    requires r.heap == m.heap || exists time :: r.heap == m.heap[m.lastSeq + 1 := Event(time, EnergyResync)]
    ensures Leisurely(m, r)
  {
  }

  lemma HandleBrisk(cfg: Config, p: State, tau: real, limit: real, kind: Kind, choice: Choice)
    requires GoodConfig(cfg) && QueuesWithin(cfg, limit) && Linked(cfg, p) && Core(cfg, p, tau, {kind}) && CoverOk(p)
    requires WasLegitimate(cfg, p, tau, kind) && KindLinked(cfg, kind) && ChoiceOk(cfg, p, kind, choice)
    requires Brisk(cfg, p, tau, limit)
    ensures Brisk(cfg, Handle(cfg, p, kind, choice), NextTick(cfg, tau, kind), limit)
  {
    hide Core, CoverOk, Brisk, GoodConfig, QueuesWithin, WasLegitimate, Linked, HandleReady, HandleRouted, HandleGone,
      HandleBootDone, HandleDrainDone, HandleArrival, SlotsOk, PhasesOk, QueuesOk, MetersOk, HandleTick, KindLinked;
    CoreParts(cfg, p, tau, {kind});
    QueueLimit(cfg, limit);
    match kind
    case Routed(req) =>
      RoutedParts(cfg, p, req, choice);
      NothingOwed(cfg, p, tau, kind);
      RoutedBrisk(cfg, p, tau, limit, req, choice.selected);
    case DecisionTick =>
      TickIsNow(cfg, p, tau);
      TickParts(cfg, p, choice);
      HandleTickBrisk(cfg, p, tau, limit, choice);
    case ReplicaReady(slot, o) =>
      StoresLinked(cfg, p, kind);
      HandleReadyBrisk(cfg, p, tau, limit, slot, o);
    case _ =>
      EasyLeisurely(cfg, p, kind, choice);
      LeisureKeeps(cfg, p, Handle(cfg, p, kind, choice), tau, limit);
  }

  lemma QueueLimit(cfg: Config, limit: real)
    requires GoodConfig(cfg) && QueuesWithin(cfg, limit)
    ensures 0.0 <= limit
  {
  }

  lemma RoutedParts(cfg: Config, p: State, req: Request, choice: Choice)
    requires GoodConfig(cfg) && Linked(cfg, p) && KindLinked(cfg, Routed(req)) && ChoiceOk(cfg, p, Routed(req), choice)
    ensures req.service in cfg.services && SelectionOk(p, req.service, choice.selected)
    ensures choice.selected.Some? ==> choice.selected.value < |p.objects|
    ensures choice.selected.Some? ==> p.objects[choice.selected.value].server in cfg.servers
    ensures choice.selected.Some? ==> p.objects[choice.selected.value].service in cfg.services
  {
    if choice.selected.Some? {
      assert ObjectLinked(cfg, p.objects[choice.selected.value]);
    }
  }

  lemma TickParts(cfg: Config, p: State, choice: Choice)
    requires GoodConfig(cfg) && Linked(cfg, p) && ChoiceOk(cfg, p, DecisionTick, choice)
    ensures Linked(cfg, TickStart(p)) && ChoiceLinked(cfg, p, choice)
    ensures ProvisionOk(cfg, TickStart(p), choice.provision)
    ensures choice.provision.TurnOff? ==> PlanInBounds(cfg, TickStart(p), choice.provision.plan)
  {
    TickStartLinked(cfg, p);
    if choice.provision.TurnOff? {
      TickPlanInBounds(cfg, p, choice);
    }
  }

  lemma StoresLinked(cfg: Config, p: State, kind: Kind)
    requires Linked(cfg, p) && KindLinked(cfg, kind)
    ensures forall sid :: sid in p.servers ==> InStore(p, sid)
    ensures kind.ReplicaReady? ==> kind.slot.server in p.servers
  {
  }

  /** The remaining events touch no queue and start no drain. */
  lemma EasyLeisurely(cfg: Config, p: State, kind: Kind, choice: Choice)
    requires GoodConfig(cfg) && Linked(cfg, p) && KindLinked(cfg, kind) && ChoiceLinked(cfg, p, choice)
    requires !kind.Routed? && !kind.DecisionTick? && !kind.ReplicaReady?
    ensures Leisurely(p, Handle(cfg, p, kind, choice))
  {
    StoresLinked(cfg, p, kind);
    if kind.ReplicaGone? {
      GoneLinked(cfg, p, kind);
    }
    hide RoutingDelay, Leisurely, HandleGone, HandleBootDone, HandleDrainDone, Linked, GoodConfig;
    match kind
    case BootDone(sid) => BootLeisurely(cfg, p, sid, choice.order);
    case DrainDone(sid) => DrainDoneLeisurely(cfg, p, sid);
    case ReplicaGone(slot, o) => GoneLeisurely(p, slot);
    case Arrival(at, svc) => ArrivalLeisurely(cfg, p, at, svc);
    case EnergyResync => SameLeisure(p);
  }

  lemma GoneLinked(cfg: Config, p: State, kind: Kind)
    requires Linked(cfg, p) && KindLinked(cfg, kind) && kind.ReplicaGone?
    ensures kind.slot.server in p.servers
    ensures kind.slot.service in p.servers[kind.slot.server].hosted ==>
              At(p, kind.slot.server, kind.slot.service) < |p.objects| && kind.slot.service in p.byService
  {
    assert HostLinked(cfg, p.servers[kind.slot.server].hosted, |p.objects|);
  }

  lemma DrainDoneLeisurely(cfg: Config, p: State, sid: int)
    requires InStore(p, sid)
    ensures Leisurely(p, HandleDrainDone(cfg, p, sid))
  {
    hide AllTerminated, Leisurely;
    if AllTerminated(p, sid) {
      OffLeisurely(p, HandleDrainDone(cfg, p, sid), sid);
    } else {
      PushLeisurely(p, p.now + cfg.delays.grace, DrainDone(sid));
    }
  }

  lemma OffLeisurely(s: State, r: State, sid: int)
    requires sid in s.servers && r.servers.Keys == s.servers.Keys && r.servers[sid].phase == Off
    requires r == s.(servers := s.servers[sid := r.servers[sid]], metrics := r.metrics)
    ensures Leisurely(s, r)
  {
  }

  lemma GoneLeisurely(p: State, slot: Slot)
    requires slot.server in p.servers
    requires slot.service in p.servers[slot.server].hosted ==>
               At(p, slot.server, slot.service) < |p.objects| && slot.service in p.byService
    ensures Leisurely(p, HandleGone(p, slot))
  {
  }

  lemma ArrivalLeisurely(cfg: Config, p: State, at: Position, svc: int)
    ensures Leisurely(p, HandleArrival(cfg, p, at, svc))
  {
    hide RoutingDelay;
  }

  lemma BootLeisurely(cfg: Config, p: State, sid: int, order: seq<int>)
    requires InStore(p, sid)
    ensures Leisurely(p, HandleBootDone(cfg, p, sid, order))
  {
    BootDoneShape(cfg, p, sid, order);
    ScheduleAllLeisurely(cfg, MarkActive(p, sid), sid, order);
  }

  lemma {:induction false} ScheduleAllLeisurely(cfg: Config, s: State, sid: int, order: seq<int>)
    requires InStore(s, sid)
    ensures Leisurely(s, ScheduleAll(cfg, s, sid, order))
    decreases |order|
  {
    if order == [] {
      SameLeisure(s);
    } else {
      ScheduleAllLeisurely(cfg, s, sid, order[..|order| - 1]);
    }
  }

  lemma StepBrisk(cfg: Config, s: State, tau: real, limit: real, k: nat, choice: Choice, r: State)
    requires GoodConfig(cfg) && QueuesWithin(cfg, limit)
    requires Core(cfg, s, tau, {}) && CoverOk(s) && IsStep(cfg, s, k, choice, r) && Brisk(cfg, s, tau, limit)
    ensures k in s.heap && Brisk(cfg, r, NextTick(cfg, tau, s.heap[k].kind), limit)
  {
    hide Core, CoverOk, Brisk, GoodConfig, QueuesWithin, WasLegitimate, Handle, ChoiceOk, IsStep, Popped, NextTick,
      Linked;
    StepParts(cfg, s, k, choice, r);
    PoppedKeeps(cfg, s, tau, k);
    PoppedBrisk(cfg, s, k, tau, limit);
    StepChoice(cfg, s, k, choice, r);
    HandleBrisk(cfg, Popped(cfg, s, k), tau, limit, s.heap[k].kind, choice);
  }

  // ------------------------------------------------------------------
  // Whole runs
  // ------------------------------------------------------------------

  lemma {:induction false} ArrivalsBrisk(cfg: Config, s: State, tau: real, limit: real, rows: seq<Row>)
    requires GoodConfig(cfg) && Brisk(cfg, s, tau, limit)
    ensures Brisk(cfg, PushArrivals(s, rows), tau, limit)
    decreases |rows|
  {
    hide Brisk, GoodConfig, Leisurely;
    if rows != [] {
      var n := |rows| - 1;
      ArrivalsBrisk(cfg, s, tau, limit, rows[..n]);
      var m := PushArrivals(s, rows[..n]);
      PushLeisurely(m, rows[n].time, Arrival(rows[n].at, rows[n].service));
      LeisureKeeps(cfg, m, PushArrivals(s, rows), tau, limit);
    }
  }

  lemma {:induction false} BootsBrisk(cfg: Config, s: State, tau: real, limit: real, selected: seq<int>)
    requires GoodConfig(cfg) && Brisk(cfg, s, tau, limit)
    requires forall i :: 0 <= i < |selected| ==> selected[i] in s.servers
    ensures Brisk(cfg, BootAll(cfg, s, selected), tau, limit)
    decreases |selected|
  {
    hide Brisk, GoodConfig;
    if selected != [] {
      var n := |selected| - 1;
      BootsBrisk(cfg, s, tau, limit, selected[..n]);
      var m := BootAll(cfg, s, selected[..n]);
      assert Leisurely(m, StartBoot(cfg, m, selected[n], false));
      LeisureKeeps(cfg, m, StartBoot(cfg, m, selected[n], false), tau, limit);
    }
  }

  lemma {:induction false} HomesBrisk(cfg: Config, s: State, tau: real, limit: real, homes: seq<Slot>)
    requires GoodConfig(cfg) && Linked(cfg, s) && HomesInBounds(cfg, homes) && 0.0 <= limit && Brisk(cfg, s, tau, limit)
    requires forall x :: x in s.servers ==> s.servers[x].phase != Draining
    ensures Brisk(cfg, HomeAll(cfg, s, homes), tau, limit)
    ensures forall x :: x in HomeAll(cfg, s, homes).servers ==> HomeAll(cfg, s, homes).servers[x].phase != Draining
    decreases |homes|
  {
    hide Brisk, GoodConfig, Linked, CanHost;
    if homes != [] {
      var n := |homes| - 1;
      HomesBrisk(cfg, s, tau, limit, homes[..n]);
      var m := HomeAll(cfg, s, homes[..n]);
      KnownServer(cfg, m, homes, n);
      PlaceBrisk(cfg, m, tau, limit, homes[n].server, homes[n].service);
    }
  }

  lemma {:induction false} NoneDraining(cfg: Config, s: State, selected: seq<int>)
    requires forall i :: 0 <= i < |selected| ==> selected[i] in s.servers
    requires forall x :: x in s.servers ==> s.servers[x].phase != Draining
    ensures forall x :: x in s.servers ==> BootAll(cfg, s, selected).servers[x].phase != Draining
    decreases |selected|
  {
    if selected != [] {
      NoneDraining(cfg, s, selected[..|selected| - 1]);
    }
  }

  lemma PrimeBrisk(cfg: Config, rows: seq<Row>, selected: seq<int>, homes: seq<Slot>, limit: real)
    requires GoodStart(cfg, rows, selected, homes) && 0.0 <= limit
    ensures Brisk(cfg, Prime(cfg, rows, selected, homes), EarliestTime(rows), limit)
  {
    var tau := EarliestTime(rows);
    EarliestIsEarliest(rows);
    var s0 := Blank(cfg, rows);
    assert Brisk(cfg, s0, tau, limit);
    hide Brisk, GoodConfig, Linked, Leisurely, HomeAll, BootAll, PushArrivals, EarliestTime;
    var s1 := PushArrivals(s0, rows);
    ArrivalsBrisk(cfg, s0, tau, limit, rows);
    PushArrivalsFrame(s0, rows);
    BlankLinked(cfg, rows);
    BootsBrisk(cfg, s1, tau, limit, selected);
    NoneDraining(cfg, s1, selected);
    BootAllLinked(cfg, s1, selected);
    var s2 := BootAll(cfg, s1, selected);
    HomesBrisk(cfg, s2, tau, limit, homes);
    var s3 := HomeAll(cfg, s2, homes);
    PushLeisurely(s3, tau, DecisionTick);
    LeisureKeeps(cfg, s3, Prime(cfg, rows, selected, homes), tau, limit);
  }

  /** State i of a run, with the time of its next tick. */
  lemma {:induction false} BriskAlways(cfg: Config, rows: seq<Row>, selected: seq<int>, homes: seq<Slot>,
                                       states: seq<State>, moves: seq<Move>, limit: real, i: nat) returns (tau: real)
    requires IsHistory(cfg, rows, selected, homes, states, moves) && i < |states|
    requires GoodConfig(cfg) && QueuesWithin(cfg, limit)
    ensures Core(cfg, states[i], tau, {}) && CoverOk(states[i]) && Brisk(cfg, states[i], tau, limit)
    decreases i
  {
    hide Prime, IsStep, Core, CoverOk, GoodStart, Brisk, GoodConfig, QueuesWithin, NextTick, EarliestTime;
    if i == 0 {
      tau := EarliestTime(rows);
      PrimeEstablishes(cfg, rows, selected, homes);
      QueueLimit(cfg, limit);
      PrimeBrisk(cfg, rows, selected, homes, limit);
    } else {
      var before := BriskAlways(cfg, rows, selected, homes, states, moves, limit, i - 1);
      var move := moves[i - 1];
      assert IsStep(cfg, states[i - 1], move.event, move.choice, states[i]);
      StepBrisk(cfg, states[i - 1], before, limit, move.event, move.choice, states[i]);
      StepKeeps(cfg, states[i - 1], before, move.event, move.choice, states[i]);
      tau := NextTick(cfg, before, states[i - 1].heap[move.event].kind);
    }
  }

  /** In every state of every run, all the work a replica has accepted is done
      within the longest full queue of the tables. */
  lemma BacklogAlways(cfg: Config, rows: seq<Row>, selected: seq<int>, homes: seq<Slot>,
                      states: seq<State>, moves: seq<Move>, limit: real, i: nat, o: nat)
    requires IsHistory(cfg, rows, selected, homes, states, moves) && i < |states| && o < |states[i].objects|
    requires GoodConfig(cfg) && QueuesWithin(cfg, limit)
    ensures states[i].objects[o].queue.availableAt <= states[i].now + limit
  {
    hide IsHistory, Core, CoverOk, GoodConfig, QueuesWithin;
    var tau := BriskAlways(cfg, rows, selected, homes, states, moves, limit, i);
    assert PacedOk(cfg, states[i], limit, o);
  }

  // ------------------------------------------------------------------
  // A drain ends within a constant time
  // ------------------------------------------------------------------

  lemma {:induction false} BacklogAtMost(objects: seq<Replica>, sid: int, floor: real, most: real)
    requires floor <= most
    requires forall o :: 0 <= o < |objects| && objects[o].server == sid ==> objects[o].queue.availableAt <= most
    ensures Backlog(objects, sid, floor) <= most
  {
    if objects != [] {
      BacklogAtMost(objects[..|objects| - 1], sid, floor, most);
    }
  }

  /** In every run, a server that began to drain in state i is not DRAINING any more
      once startup, the longer of graceful termination and the longest queue, and one
      grace period have passed. */
  lemma DrainEndsInConstantTime(cfg: Config, rows: seq<Row>, selected: seq<int>, homes: seq<Slot>,
                                states: seq<State>, moves: seq<Move>, limit: real, sid: int, i: nat, j: nat)
    requires IsHistory(cfg, rows, selected, homes, states, moves)
    requires GoodConfig(cfg) && QueuesWithin(cfg, limit) && PhaseThroughout(states, sid, Draining, i, j)
    ensures states[j].now <= states[i].servers[sid].lastTransition + cfg.delays.startup
                             + Later(cfg.delays.graceful, limit) + cfg.delays.grace
  {
    hide IsHistory, IsRun, Core, CoverOk, GoodConfig, QueuesWithin, FromTables;
    DrainEnds(cfg, rows, selected, homes, states, moves, sid, i, j);
    StintKeepsStart(cfg, rows, selected, homes, states, moves, sid, Draining, i, j);
    var tau := BriskAlways(cfg, rows, selected, homes, states, moves, limit, j);
    var began := states[i].servers[sid].lastTransition;
    assert DrainsRecent(cfg, states[j], tau, limit, sid);
    BacklogAtMost(states[j].objects, sid, began + cfg.delays.startup + cfg.delays.graceful,
                  began + cfg.delays.startup + Later(cfg.delays.graceful, limit));
  }

  // ------------------------------------------------------------------
  // No service is orphaned
  // ------------------------------------------------------------------

  /** Before a tick there is time for a startup and for the longest queue. */
  predicate ShortQueues(cfg: Config, limit: real) {
    cfg.delays.startup + Later(cfg.delays.graceful, limit) < cfg.delays.interval
  }

  /** After the first tick, every copy hosted when a tick comes is READY. */
  lemma EveryCopyServes(cfg: Config, p: State, tau: real, limit: real, x: int, v: int)
    requires GoodConfig(cfg) && Core(cfg, p, tau, {DecisionTick}) && CoverOk(p) && Calm(p) && Brisk(cfg, p, tau, limit)
    requires p.now == tau && p.ticks > 0 && ShortQueues(cfg, limit) && InSlot(p, x, v)
    ensures ReadyAt(p, x, v)
  {
    hide Linked, IndexOk, CapacityOk, UniqueOk, GonePairsOk, PendingOk, RescueOk, QueuesOk, MetersOk, DrainBoundOk,
      HandledOk, CoverOk, Calm, DrainsRecent, GoneOk;
    assert SlotOk(p, x, v) && PhaseOk(p, x, v) && SlotArmed(p, x, v, {DecisionTick});
    assert ServerArmed(p, x, {DecisionTick});
    NothingBooting(cfg, p, tau, x);
    forall k | k in p.heap ensures !p.heap[k].kind.ReplicaGone? {
      assert EventOk(cfg, p, tau, p.heap[k]);
    }
    if p.servers[x].phase == Active {
      NothingStarting(cfg, p, tau, x, v);
    } else if p.servers[x].phase == Draining {
      CalmDrainsNothingReady(p, x, v);
    }
  }

  lemma TickOrphansNobody(cfg: Config, p: State, tau: real, limit: real, choice: Choice, v: int)
    requires GoodConfig(cfg) && Linked(cfg, TickStart(p)) && Core(cfg, p, tau, {DecisionTick}) && CoverOk(p)
    requires Brisk(cfg, p, tau, limit) && p.now == tau && ShortQueues(cfg, limit) && HasReady(p, v)
    requires choice.provision.TurnOff? ==> PlanInBounds(cfg, TickStart(p), choice.provision.plan)
    ensures !Orphaned(cfg, p, choice, v)
  {
    hide Linked, IndexOk, CapacityOk, UniqueOk, GonePairsOk, RescueOk, QueuesOk, MetersOk, DrainBoundOk, HandledOk,
      CoverOk, Brisk, GoodConfig, PlanInBounds, Unmigrated, HasReady, EventsOk, PendingOk, SlotsArmed, PhasesOk,
      SlotsOk, ServersArmed, SoleHosted;
    if Drains(cfg, TickStart(p), choice.provision) {
      assert p.servers[choice.provision.server].phase == Active;
      assert p.ticks > 0;
      TickIsCalm(cfg, p, tau);
      hide Core, Drains;
      forall x | InSlot(p, x, v) && x != choice.provision.server ensures ReadyAt(p, x, v) {
        EveryCopyServes(cfg, p, tau, limit, x, v);
      }
      OthersReadySuffice(cfg, p, choice, v);
    }
  }

  /** If no queue of the tables outlasts the decision interval, no service with a
      READY replica is ever orphaned. */
  lemma NobodyIsOrphaned(cfg: Config, rows: seq<Row>, selected: seq<int>, homes: seq<Slot>,
                         states: seq<State>, moves: seq<Move>, limit: real, i: nat, v: int)
    requires IsHistory(cfg, rows, selected, homes, states, moves) && i < |moves|
    requires GoodConfig(cfg) && QueuesWithin(cfg, limit) && ShortQueues(cfg, limit) && HasReady(states[i], v)
    ensures !OrphanedAt(cfg, states[i], moves[i].event, moves[i].choice, v)
  {
    hide Prime, IsStep, Core, CoverOk, GoodStart, Brisk, GoodConfig, QueuesWithin, Linked, HasReady, Orphaned, Popped,
      WasLegitimate, PlanInBounds, ShortQueues, ChoiceLinked, KindLinked, IsMin;
    var s, move := states[i], moves[i];
    if OrphanedAt(cfg, s, move.event, move.choice, v) {
      var tau := BriskAlways(cfg, rows, selected, homes, states, moves, limit, i);
      assert IsStep(cfg, s, move.event, move.choice, states[i + 1]);
      StepParts(cfg, s, move.event, move.choice, states[i + 1]);
      PoppedKeeps(cfg, s, tau, move.event);
      PoppedBrisk(cfg, s, move.event, tau, limit);
      PoppedHasReady(cfg, s, move.event, v);
      var p := Popped(cfg, s, move.event);
      TickIsNow(cfg, p, tau);
      TickOrphansNobody(cfg, p, tau, limit, move.choice, v);
    }
  }

  /** Zero downtime from the tables alone: once READY, a service stays READY. */
  lemma {:induction false} ServiceStaysUpForever(cfg: Config, rows: seq<Row>, selected: seq<int>, homes: seq<Slot>,
                                                 states: seq<State>, moves: seq<Move>, limit: real,
                                                 i: nat, j: nat, v: int)
    requires IsHistory(cfg, rows, selected, homes, states, moves) && i <= j < |states| && HasReady(states[i], v)
    requires GoodConfig(cfg) && QueuesWithin(cfg, limit) && ShortQueues(cfg, limit)
    ensures HasReady(states[j], v)
    decreases j
  {
    hide IsHistory, HasReady, OrphanedAt, GoodConfig, QueuesWithin, ShortQueues;
    if i < j {
      ServiceStaysUpForever(cfg, rows, selected, homes, states, moves, limit, i, j - 1, v);
      HistoryLength(cfg, rows, selected, homes, states, moves);
      NobodyIsOrphaned(cfg, rows, selected, homes, states, moves, limit, j - 1, v);
      ServiceStaysUp(cfg, rows, selected, homes, states, moves, j - 1, j, v);
    }
  }

  // ------------------------------------------------------------------
  // The tables of common/config.py
  // ------------------------------------------------------------------

  /** Services 1 to 13: MIPS, work, queue length and deadline. */
  const LIGHT_SERVICES: map<int, ServiceSpec> := map[
    1 := ServiceSpec(4800, 55.0, 1, 0.030), 2 := ServiceSpec(4900, 110.0, 2, 0.050),
    3 := ServiceSpec(5000, 140.0, 2, 0.060), 4 := ServiceSpec(5100, 190.0, 3, 0.075),
    5 := ServiceSpec(5200, 260.0, 3, 0.100), 6 := ServiceSpec(5300, 310.0, 3, 0.100),
    7 := ServiceSpec(5400, 420.0, 4, 0.150), 8 := ServiceSpec(5400, 570.0, 5, 0.200),
    9 := ServiceSpec(5500, 880.0, 6, 0.300), 10 := ServiceSpec(5600, 1050.0, 6, 0.300),
    11 := ServiceSpec(5400, 3500.0, 8, 1.0), 12 := ServiceSpec(5400, 7000.0, 10, 2.0),
    13 := ServiceSpec(5200, 10000.0, 12, 3.0)]

  /** With the source's delays, hosts at least nine tenths as fast as the reference
      and services 1 to 13, queues are short: no drain orphans anybody. Services 14
      and 15 are not of this kind, and for 15 `EngineDowntime` has the run. */
  lemma SourceQueuesAreShort(cfg: Config)
    requires GoodConfig(cfg) && cfg.delays == SOURCE_DELAYS && cfg.services == LIGHT_SERVICES
    requires forall sid :: sid in cfg.servers ==> cfg.servers[sid].mipsPerCore >= 0.9 * cfg.referenceMips
    ensures QueuesWithin(cfg, 44.0) && ShortQueues(cfg, 44.0)
  {
    forall sid, svc | sid in cfg.servers && svc in cfg.services ensures FullQueue(cfg, sid, svc) <= 44.0 {
      var spec := cfg.services[svc];
      assert spec.queueLen as real * 1.5 * spec.taskLength <= 44.0 * (0.9 * spec.resource as real);
      assert GoodServer(cfg, cfg.servers[sid]) && GoodService(spec);
      assert SpeedFactor(cfg, sid) >= 0.9 by {
        AtLeast(cfg.servers[sid].mipsPerCore, 0.9, cfg.referenceMips);
      }
      hide GoodConfig;
      LightQueue(spec.queueLen as real, spec.taskLength, spec.resource as real, SpeedFactor(cfg, sid));
    }
  }

  lemma AtLeast(a: real, b: real, c: real)
    requires c > 0.0 && a >= b * c
    ensures a / c >= b
  {
  }

  lemma LightQueue(length: real, work: real, resource: real, speed: real)
    requires 0.0 <= length && 0.0 < work && 0.0 < resource && 0.9 <= speed
    requires length * 1.5 * work <= 44.0 * (0.9 * resource)
    ensures resource * speed > 0.0 && length * (1.5 * (work / (resource * speed))) <= 44.0
  {
    PositiveProduct(resource, speed);
    var mips := resource * speed;
    NonnegativeProduct(resource, speed - 0.9);
    assert length * 1.5 * work <= 44.0 * mips;
    var t := work / mips;
    assert t * mips == work;
    Divides(length * 1.5, t, mips, 44.0);
    assert length * (1.5 * t) == length * 1.5 * t;
  }

  lemma Divides(a: real, t: real, mips: real, most: real)
    requires mips > 0.0 && a * (t * mips) <= most * mips
    ensures a * t <= most
  {
    assert a * (t * mips) == (a * t) * mips;
    if a * t > most {
      PositiveProduct(a * t - most, mips);
    }
  }
}
