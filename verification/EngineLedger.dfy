/** Counters and energy: no handler changes the balance between what was
    counted, what is hosted and what was charged. */
module EngineLedger {
  import opened Settings
  import opened ReplicaQueues
  import opened EngineModel
  import opened EngineInvariants
  import opened EngineClock
  import opened EngineBoot
  import opened EnginePlace
  import opened EngineServers
  import opened EngineHandlers
  import opened EngineDrain
  import opened EngineRuns

  // ------------------------------------------------------------------
  // The books
  // ------------------------------------------------------------------

  function Awake(s: State): set<int> {
    set sid | sid in s.servers && s.servers[sid].phase != Off
  }

  function HostedSlots(s: State): set<Slot> {
    set sid, v | sid in s.servers && v in s.servers[sid].hosted :: Slot(sid, v)
  }

  /** How many replicas were ever created on this server. */
  function CreatedOn(objects: seq<Replica>, sid: int): nat {
    if objects == [] then 0
    else
      var n := |objects| - 1;
      CreatedOn(objects[..n], sid) + if objects[n].server == sid then 1 else 0
  }

  predicate CountsOk(s: State, sid: int)
    requires sid in s.servers
  {
    s.servers[sid].boots == s.servers[sid].shutdowns + if s.servers[sid].phase == Off then 0 else 1
  }

  /** Boots minus shutdowns are the servers not off, pod creates minus deletes
      the hosted replicas. */
  predicate BooksOk(s: State) {
    && (forall sid :: sid in s.servers ==> CountsOk(s, sid))
    && s.metrics.boots == s.metrics.shutdowns + |Awake(s)|
    && s.metrics.podCreates == |s.objects|
    && s.metrics.podCreates == s.metrics.podDeletes + |HostedSlots(s)|
  }

  /** What boots and pod creations alone have cost this server. */
  function Charged(cfg: Config, s: State, sid: int): real
    requires sid in s.servers
  {
    cfg.bootJoule * s.servers[sid].boots as real + cfg.podJoule * CreatedOn(s.objects, sid) as real
  }

  /** The energy that is left to account for by power over time. */
  function Metering(cfg: Config, s: State, sid: int): real
    requires sid in s.servers
  {
    s.servers[sid].energy - Charged(cfg, s, sid)
  }

  /** Nothing was spent on power, and the books stay right. */
  predicate Balanced(cfg: Config, s: State, r: State) {
    && r.servers.Keys == s.servers.Keys
    && (forall sid :: sid in s.servers ==> Metering(cfg, r, sid) == Metering(cfg, s, sid))
    && (forall sid :: sid in s.servers ==> r.servers[sid].busy == s.servers[sid].busy)
    && (BooksOk(s) ==> BooksOk(r))
  }

  lemma BalancedTrans(cfg: Config, s: State, m: State, r: State)
    requires Balanced(cfg, s, m) && Balanced(cfg, m, r)
    ensures Balanced(cfg, s, r)
  {
    hide BooksOk, Metering;
  }

  // ------------------------------------------------------------------
  // Updates that do not touch the books
  // ------------------------------------------------------------------

  predicate SameAccount(x: Server, y: Server) {
    && y.boots == x.boots && y.shutdowns == x.shutdowns && y.energy == x.energy && y.busy == x.busy
    && y.hosted == x.hosted && (y.phase == Off <==> x.phase == Off)
  }

  predicate Untouched(s: State, r: State) {
    && r.servers.Keys == s.servers.Keys
    && (forall sid :: sid in s.servers ==> SameAccount(s.servers[sid], r.servers[sid]))
    && |r.objects| == |s.objects|
    && (forall o :: 0 <= o < |s.objects| ==> r.objects[o].server == s.objects[o].server)
    && r.metrics.boots == s.metrics.boots && r.metrics.shutdowns == s.metrics.shutdowns
    && r.metrics.podCreates == s.metrics.podCreates && r.metrics.podDeletes == s.metrics.podDeletes
  }

  lemma {:induction false} SameCreated(a: seq<Replica>, b: seq<Replica>, sid: int)
    requires |a| == |b| && forall o :: 0 <= o < |a| ==> a[o].server == b[o].server
    ensures CreatedOn(a, sid) == CreatedOn(b, sid)
  {
    if a != [] {
      SameCreated(a[..|a| - 1], b[..|b| - 1], sid);
    }
  }

  lemma SameSlots(s: State, r: State)
    requires r.servers.Keys == s.servers.Keys
    requires forall sid :: sid in s.servers ==> r.servers[sid].hosted == s.servers[sid].hosted
    ensures HostedSlots(r) == HostedSlots(s)
  {
    forall slot ensures slot in HostedSlots(r) <==> slot in HostedSlots(s) {
      assert slot in HostedSlots(s) <==> slot.server in s.servers && slot.service in s.servers[slot.server].hosted;
      assert slot in HostedSlots(r) <==> slot.server in r.servers && slot.service in r.servers[slot.server].hosted;
    }
  }

  lemma UntouchedBalances(cfg: Config, s: State, r: State)
    requires Untouched(s, r)
    ensures Balanced(cfg, s, r)
  {
    forall sid ensures sid in Awake(r) <==> sid in Awake(s) {
      assert sid in s.servers ==> SameAccount(s.servers[sid], r.servers[sid]);
    }
    assert Awake(r) == Awake(s);
    SameSlots(s, r);
    forall sid | sid in s.servers ensures Metering(cfg, r, sid) == Metering(cfg, s, sid) {
      SameCreated(r.objects, s.objects, sid);
      assert SameAccount(s.servers[sid], r.servers[sid]);
    }
    forall sid | sid in s.servers && BooksOk(s) ensures CountsOk(r, sid) {
      assert CountsOk(s, sid) && SameAccount(s.servers[sid], r.servers[sid]);
    }
  }

  // ------------------------------------------------------------------
  // Updates that book something
  // ------------------------------------------------------------------

  lemma OneMore(price: real, n: nat)
    ensures price * (n + 1) as real == price * n as real + price
  {
    assert (n + 1) as real == n as real + 1.0;
  }

  lemma SameMetering(cfg: Config, s: State, r: State, sid: int)
    requires sid in s.servers && sid in r.servers
    requires r.servers[sid].boots == s.servers[sid].boots && r.servers[sid].energy == s.servers[sid].energy
    requires |r.objects| == |s.objects|
    requires forall o :: 0 <= o < |s.objects| ==> r.objects[o].server == s.objects[o].server
    ensures Metering(cfg, r, sid) == Metering(cfg, s, sid)
  {
    SameCreated(r.objects, s.objects, sid);
  }

  lemma ChargedCreate(cfg: Config, s: State, r: State, sid: int, x: int)
    requires x in s.servers && x in r.servers && r.servers[x].boots == s.servers[x].boots
    requires |r.objects| == |s.objects| + 1 && r.objects[..|s.objects|] == s.objects
    requires r.objects[|s.objects|].server == sid
    requires r.servers[x].energy == s.servers[x].energy + if x == sid then cfg.podJoule else 0.0
    ensures Metering(cfg, r, x) == Metering(cfg, s, x)
  {
    var base := cfg.bootJoule * s.servers[x].boots as real;
    var n := CreatedOn(s.objects, x);
    OneMore(cfg.podJoule, n);
    assert CreatedOn(r.objects, x) == if x == sid then n + 1 else n;
    hide CreatedOn;
    assert Charged(cfg, s, x) == base + cfg.podJoule * n as real;
  }

  lemma ChargedBoot(cfg: Config, s: State, r: State, sid: int)
    requires sid in s.servers && sid in r.servers && r.objects == s.objects
    requires r.servers[sid].boots == s.servers[sid].boots + 1
    requires r.servers[sid].energy == s.servers[sid].energy + cfg.bootJoule
    ensures Metering(cfg, r, sid) == Metering(cfg, s, sid)
  {
    hide CreatedOn;
    OneMore(cfg.bootJoule, s.servers[sid].boots);
  }

  lemma StartBootBalances(cfg: Config, s: State, sid: int, emergency: bool)
    requires sid in s.servers
    ensures Balanced(cfg, s, StartBoot(cfg, s, sid, emergency))
  {
    hide Metering, CreatedOn, HostedSlots;
    var r := StartBoot(cfg, s, sid, emergency);
    if s.servers[sid].phase == Off {
      assert Awake(r) == Awake(s) + {sid} && sid !in Awake(s);
      SameSlots(s, r);
      forall x | x in s.servers ensures Metering(cfg, r, x) == Metering(cfg, s, x) {
        if x == sid {
          ChargedBoot(cfg, s, r, sid);
        } else {
          SameMetering(cfg, s, r, x);
        }
      }
      forall x | x in s.servers && BooksOk(s) ensures CountsOk(r, x) {
        assert CountsOk(s, x);
      }
    }
  }

  lemma CreateBalances(cfg: Config, s: State, sid: int, svc: int)
    requires GoodConfig(cfg) && Linked(cfg, s) && sid in s.servers && svc in cfg.services
    requires svc !in s.servers[sid].hosted
    ensures Balanced(cfg, s, Create(cfg, s, sid, svc))
  {
    hide Linked, Metering, CreatedOn, BooksOk, ExecTime;
    var r := Create(cfg, s, sid, svc);
    assert r.objects[..|s.objects|] == s.objects && r.objects[|s.objects|].server == sid;
    forall x | x in s.servers ensures Metering(cfg, r, x) == Metering(cfg, s, x) {
      ChargedCreate(cfg, s, r, sid, x);
    }
    CreatedBooks(s, r, sid, svc);
  }

  lemma CreatedBooks(s: State, r: State, sid: int, svc: int)
    requires sid in s.servers && r.servers.Keys == s.servers.Keys && svc !in s.servers[sid].hosted
    requires forall x :: x in s.servers ==> r.servers[x].phase == s.servers[x].phase
                                            && r.servers[x].boots == s.servers[x].boots
                                            && r.servers[x].shutdowns == s.servers[x].shutdowns
    requires forall x :: x in s.servers && x != sid ==> r.servers[x].hosted == s.servers[x].hosted
    requires r.servers[sid].hosted.Keys == s.servers[sid].hosted.Keys + {svc}
    requires |r.objects| == |s.objects| + 1 && r.metrics == s.metrics.(podCreates := s.metrics.podCreates + 1)
    ensures BooksOk(s) ==> BooksOk(r)
  {
    forall x ensures x in Awake(r) <==> x in Awake(s) {
      assert x in s.servers ==> r.servers[x].phase == s.servers[x].phase;
    }
    assert Awake(r) == Awake(s);
    CreatedSlots(s, r, sid, svc);
    forall x | x in s.servers && BooksOk(s) ensures CountsOk(r, x) {
      assert CountsOk(s, x);
    }
  }

  lemma CreatedSlots(s: State, r: State, sid: int, svc: int)
    requires sid in s.servers && r.servers.Keys == s.servers.Keys && svc !in s.servers[sid].hosted
    requires forall x :: x in s.servers && x != sid ==> r.servers[x].hosted == s.servers[x].hosted
    requires r.servers[sid].hosted.Keys == s.servers[sid].hosted.Keys + {svc}
    ensures HostedSlots(r) == HostedSlots(s) + {Slot(sid, svc)} && Slot(sid, svc) !in HostedSlots(s)
  {
    forall slot ensures slot in HostedSlots(r) <==> slot in HostedSlots(s) + {Slot(sid, svc)} {
      assert slot in HostedSlots(s) <==> slot.server in s.servers && slot.service in s.servers[slot.server].hosted;
      assert slot in HostedSlots(r) <==> slot.server in r.servers && slot.service in r.servers[slot.server].hosted;
      assert slot.server == sid ==> (slot.service in r.servers[sid].hosted.Keys <==>
                                     slot.service in s.servers[sid].hosted.Keys || slot.service == svc);
    }
  }

  lemma GoneBalances(cfg: Config, s: State, slot: Slot)
    requires Linked(cfg, s) && slot.server in s.servers
    requires InStore(s, slot.server) && slot.service in s.byService
    ensures Balanced(cfg, s, HandleGone(s, slot))
  {
    hide Metering, CreatedOn, Without, Linked;
    var r := HandleGone(s, slot);
    if slot.service in s.servers[slot.server].hosted {
      assert Awake(r) == Awake(s);
      CreatedSlots(r, s, slot.server, slot.service);
      forall x | x in s.servers ensures Metering(cfg, r, x) == Metering(cfg, s, x) {
        SameMetering(cfg, s, r, x);
      }
      forall x | x in s.servers && BooksOk(s) ensures CountsOk(r, x) {
        assert CountsOk(s, x);
      }
    } else {
      UntouchedBalances(cfg, s, r);
    }
  }

  lemma DrainDoneBalances(cfg: Config, s: State, sid: int)
    requires InStore(s, sid) && s.servers[sid].phase == Draining
    requires AllTerminated(s, sid) ==> s.servers[sid].hosted == map[]
    ensures Balanced(cfg, s, HandleDrainDone(cfg, s, sid))
  {
    hide Metering, CreatedOn;
    var r := HandleDrainDone(cfg, s, sid);
    if AllTerminated(s, sid) {
      assert r.servers[sid].hosted.Keys <= s.servers[sid].hosted.Keys;
      assert r.servers[sid].hosted == map[];
      SameSlots(s, r);
      assert Awake(s) == Awake(r) + {sid} && sid !in Awake(r);
      forall x | x in s.servers ensures Metering(cfg, r, x) == Metering(cfg, s, x) {
        SameMetering(cfg, s, r, x);
      }
      forall x | x in s.servers && BooksOk(s) ensures CountsOk(r, x) {
        assert CountsOk(s, x);
      }
    } else {
      UntouchedBalances(cfg, s, r);
    }
  }

  // ------------------------------------------------------------------
  // What lifecycle work leaves alone
  // ------------------------------------------------------------------

  predicate IsTraffic(kind: Kind) {
    kind.Arrival? || kind.Routed?
  }

  /** The requests on their way to the dispatcher. */
  function Traffic(heap: map<nat, Event>): map<nat, Event> {
    map k | k in heap && IsTraffic(heap[k].kind) :: heap[k]
  }

  /** Sequence numbers are handed out once. */
  predicate Fresh(s: State) {
    forall k :: k in s.heap ==> k <= s.lastSeq
  }

  predicate SameRequests(m: Metrics, n: Metrics) {
    && n.total == m.total && n.completed == m.completed && n.queueFull == m.queueFull
    && n.noReplica == m.noReplica && n.violations == m.violations
  }

  /** No request moved. */
  predicate SameTraffic(s: State, r: State) {
    && r.arrived == s.arrived && r.log == s.log && SameRequests(s.metrics, r.metrics) && r.cutoff == s.cutoff
    && (Fresh(s) ==> Fresh(r) && Traffic(r.heap) == Traffic(s.heap))
  }

  predicate SamePhase(s: State, r: State, sid: int)
    requires sid in s.servers && sid in r.servers
  {
    && r.servers[sid].phase == s.servers[sid].phase
    && r.servers[sid].lastTransition == s.servers[sid].lastTransition
    && r.servers[sid].emergency == s.servers[sid].emergency
  }

  predicate BegunBoot(s: State, r: State, sid: int)
    requires sid in s.servers && sid in r.servers
  {
    && s.servers[sid].phase == Off && r.servers[sid].phase == Booting
    && r.servers[sid].lastTransition == s.now
  }

  /** Lifecycle work within one instant: the books balance, no request moves, and
      at most some servers begin to boot. */
  predicate Works(cfg: Config, s: State, r: State) {
    && Balanced(cfg, s, r) && SameTraffic(s, r) && r.now == s.now
    && forall sid :: sid in s.servers ==> SamePhase(s, r, sid) || BegunBoot(s, r, sid)
  }

  lemma WorksTrans(cfg: Config, s: State, m: State, r: State)
    requires Works(cfg, s, m) && Works(cfg, m, r)
    ensures Works(cfg, s, r)
  {
    hide Balanced, SameTraffic;
    BalancedTrans(cfg, s, m, r);
    TrafficTrans(s, m, r);
    assert r.servers.Keys == m.servers.Keys == s.servers.Keys by {
      WorksKeys(cfg, s, m);
      WorksKeys(cfg, m, r);
    }
    forall sid | sid in s.servers ensures SamePhase(s, r, sid) || BegunBoot(s, r, sid) {
      assert SamePhase(s, m, sid) || BegunBoot(s, m, sid);
      assert SamePhase(m, r, sid) || BegunBoot(m, r, sid);
    }
  }

  lemma WorksKeys(cfg: Config, s: State, r: State)
    requires Balanced(cfg, s, r)
    ensures r.servers.Keys == s.servers.Keys
  {
  }

  lemma TrafficTrans(s: State, m: State, r: State)
    requires SameTraffic(s, m) && SameTraffic(m, r)
    ensures SameTraffic(s, r)
  {
    hide Fresh;
  }

  lemma PushTraffic(s: State, time: real, kind: Kind)
    requires !IsTraffic(kind)
    ensures SameTraffic(s, Push(s, time, kind))
  {
    if Fresh(s) {
      var r := Push(s, time, kind);
      assert s.lastSeq + 1 !in s.heap;
      assert Traffic(r.heap).Keys == Traffic(s.heap).Keys;
    }
  }

  /** Nothing about the phases, the heap or the requests changed. */
  predicate Idle(s: State, r: State) {
    && Untouched(s, r) && r.now == s.now && r.heap == s.heap && r.lastSeq == s.lastSeq
    && r.arrived == s.arrived && r.log == s.log && SameRequests(s.metrics, r.metrics) && r.cutoff == s.cutoff
    && forall sid :: sid in s.servers ==> SamePhase(s, r, sid)
  }

  lemma IdleWorks(cfg: Config, s: State, r: State)
    requires Idle(s, r)
    ensures Works(cfg, s, r)
  {
    UntouchedBalances(cfg, s, r);
  }

  lemma PushWorks(cfg: Config, s: State, time: real, kind: Kind)
    requires !IsTraffic(kind)
    ensures Works(cfg, s, Push(s, time, kind))
  {
    UntouchedBalances(cfg, s, Push(s, time, kind));
    PushTraffic(s, time, kind);
  }

  // ------------------------------------------------------------------
  // Lifecycle operations
  // ------------------------------------------------------------------

  lemma StartBootWorks(cfg: Config, s: State, sid: int, emergency: bool)
    requires sid in s.servers
    ensures Works(cfg, s, StartBoot(cfg, s, sid, emergency))
  {
    hide Balanced;
    StartBootBalances(cfg, s, sid, emergency);
    var r := StartBoot(cfg, s, sid, emergency);
    if s.servers[sid].phase == Off {
      PushTraffic(Wake(cfg, s, sid, emergency), s.now + cfg.delays.boot, BootDone(sid));
    }
  }

  lemma PlaceWorks(cfg: Config, s: State, sid: int, svc: int)
    requires GoodConfig(cfg) && Linked(cfg, s) && sid in s.servers && svc in cfg.services
    ensures Works(cfg, s, Place(cfg, s, sid, svc).0)
  {
    hide Balanced, GoodConfig, Linked;
    var r := Place(cfg, s, sid, svc).0;
    if CanHost(cfg, s, sid, svc) {
      var c := Create(cfg, s, sid, svc);
      CreateBalances(cfg, s, sid, svc);
      if r != c {
        PushWorks(cfg, c, c.now + cfg.delays.startup, ReplicaReady(SlotOf(c, |s.objects|), |s.objects|));
        BalancedTrans(cfg, s, c, r);
      }
    } else {
      IdleWorks(cfg, s, r);
    }
  }

  lemma RetireWorks(cfg: Config, s: State, o: nat)
    requires o < |s.objects|
    ensures Works(cfg, s, Retire(cfg, s, o))
  {
    hide Works;
    var r := Retire(cfg, s, o);
    if r == s {
      IdleWorks(cfg, s, r);
    } else {
      var l := WithObject(s, o, s.objects[o].(phase := Leaving));
      IdleWorks(cfg, s, l);
      PushWorks(cfg, l, s.now + Later(cfg.delays.graceful, s.objects[o].queue.availableAt - s.now),
                ReplicaGone(SlotOf(s, o), o));
      WorksTrans(cfg, s, l, r);
    }
  }

  lemma {:induction false} ScheduleAllWorks(cfg: Config, s: State, sid: int, order: seq<int>)
    requires InStore(s, sid)
    ensures Works(cfg, s, ScheduleAll(cfg, s, sid, order))
    decreases |order|
  {
    hide Works;
    if order == [] {
      IdleWorks(cfg, s, s);
    } else {
      var n := |order| - 1;
      var m := ScheduleAll(cfg, s, sid, order[..n]);
      var r := ScheduleAll(cfg, s, sid, order);
      ScheduleAllWorks(cfg, s, sid, order[..n]);
      if r != m {
        var o := At(s, sid, order[n]);
        PushWorks(cfg, m, m.now + cfg.delays.startup, ReplicaReady(SlotOf(m, o), o));
        WorksTrans(cfg, s, m, r);
      }
    }
  }

  lemma {:induction false} RescueAllWorks(cfg: Config, s: State, picks: seq<MigrationStep>)
    requires s.servers.Keys == cfg.servers.Keys
    requires forall i :: 0 <= i < |picks| ==> picks[i].service in cfg.services
    ensures Works(cfg, s, RescueAll(cfg, s, picks).0)
    decreases |picks|
  {
    hide Works;
    var r := RescueAll(cfg, s, picks).0;
    if picks == [] {
      IdleWorks(cfg, s, r);
    } else {
      var n := |picks| - 1;
      RescueAllWorks(cfg, s, picks[..n]);
      var (s1, reserved) := RescueAll(cfg, s, picks[..n]);
      if r != s1 {
        var s2 := s1.(rescue := s1.rescue[picks[n].service := picks[n].target]);
        IdleWorks(cfg, s1, s2);
        StartBootWorks(cfg, s2, picks[n].target, true);
        WorksTrans(cfg, s1, s2, r);
        WorksTrans(cfg, s, s1, r);
      }
    }
  }

  lemma MigrateWorks(cfg: Config, m: State, sid: int, step: MigrationStep)
    requires GoodConfig(cfg) && Linked(cfg, m) && sid in m.servers
    requires step.target in m.servers && step.service in cfg.services
    ensures Works(cfg, m, Migrate(cfg, m, sid, step))
  {
    hide Works, Linked, GoodConfig, CanHost, Place;
    var p := Place(cfg, m, step.target, step.service).0;
    PlaceWorks(cfg, m, step.target, step.service);
    IdleWorks(cfg, p, Migrate(cfg, m, sid, step));
    WorksTrans(cfg, m, p, Migrate(cfg, m, sid, step));
  }

  lemma {:induction false} MigrateAllWorks(cfg: Config, s: State, sid: int, steps: seq<MigrationStep>)
    requires GoodConfig(cfg) && Linked(cfg, s) && sid in s.servers && StepsInBounds(cfg, s, steps)
    ensures Works(cfg, s, MigrateAll(cfg, s, sid, steps))
    decreases |steps|
  {
    hide Works, Linked, GoodConfig;
    if steps == [] {
      IdleWorks(cfg, s, s);
    } else {
      var n := |steps| - 1;
      var m := MigrateAll(cfg, s, sid, steps[..n]);
      MigrateAllWorks(cfg, s, sid, steps[..n]);
      MigrateWorks(cfg, m, sid, steps[n]);
      WorksTrans(cfg, s, m, MigrateAll(cfg, s, sid, steps));
    }
  }

  lemma {:induction false} RetireAllWorks(cfg: Config, s: State, sid: int, order: seq<int>, migrated: set<int>)
    requires InStore(s, sid)
    ensures Works(cfg, s, RetireAll(cfg, s, sid, order, migrated))
    decreases |order|
  {
    hide Works, Retire;
    if order == [] {
      IdleWorks(cfg, s, s);
    } else {
      var n := |order| - 1;
      var m := RetireAll(cfg, s, sid, order[..n], migrated);
      var r := RetireAll(cfg, s, sid, order, migrated);
      RetireAllWorks(cfg, s, sid, order[..n], migrated);
      if r != m {
        RetireWorks(cfg, m, At(s, sid, order[n]));
        WorksTrans(cfg, s, m, r);
      }
    }
  }

  /** After the host is marked, a drain is lifecycle work. */
  lemma DrainWorks(cfg: Config, s: State, sid: int, plan: DrainPlan)
    requires GoodConfig(cfg) && Linked(cfg, s) && sid in s.servers && PlanInBounds(cfg, s, plan)
    ensures Works(cfg, MarkDraining(cfg, s, sid), Drain(cfg, s, sid, plan))
  {
    hide Works, Linked, GoodConfig, KeepSteps;
    var steps := KeepSteps(cfg, s, plan.steps).0;
    var d := MarkDraining(cfg, s, sid);
    var m := Moved(cfg, s, sid, steps);
    var e := RetireAll(cfg, m, sid, plan.order, ServicesOf(steps));
    MigrateAllWorks(cfg, d, sid, steps);
    RetireAllWorks(cfg, m, sid, plan.order, ServicesOf(steps));
    WorksTrans(cfg, d, m, e);
    WorksNow(cfg, d, e);
    PushWorks(cfg, e, s.now + cfg.delays.grace, DrainDone(sid));
    WorksTrans(cfg, d, e, Drain(cfg, s, sid, plan));
  }

  lemma WorksNow(cfg: Config, s: State, r: State)
    requires Works(cfg, s, r)
    ensures r.now == s.now
  {
  }

  lemma ScalingWorks(cfg: Config, s: State, decision: Scaling)
    requires GoodConfig(cfg) && Linked(cfg, s)
    ensures Works(cfg, s, ApplyScaling(cfg, s, decision))
  {
    hide Works, GoodConfig, Place, Retire;
    IdleWorks(cfg, s, s);
    match decision
    case NoScaling =>
    case ScaleUp(svc, target) =>
      if svc in cfg.services && target.Some? && target.value in s.servers {
        var p := Place(cfg, s, target.value, svc).0;
        PlaceWorks(cfg, s, target.value, svc);
        StampWorks(cfg, s, p, svc);
      }
    case ScaleDown(svc, victim) =>
      if svc in cfg.services && victim in ReadyOf(s, svc) {
        RetireWorks(cfg, s, victim);
        StampWorks(cfg, s, Retire(cfg, s, victim), svc);
      }
  }

  lemma StampWorks(cfg: Config, s: State, p: State, svc: int)
    requires Works(cfg, s, p)
    ensures Works(cfg, s, p.(lastScale := p.lastScale[svc := s.now]))
  {
    hide Works;
    var r := p.(lastScale := p.lastScale[svc := s.now]);
    IdleWorks(cfg, p, r);
    WorksTrans(cfg, s, p, r);
  }

  lemma {:induction false} ScaleAllWorks(cfg: Config, s: State, decisions: seq<Scaling>)
    requires GoodConfig(cfg) && Linked(cfg, s)
    ensures Works(cfg, s, ScaleAll(cfg, s, decisions))
    decreases |decisions|
  {
    hide Works, Linked, GoodConfig, ApplyScaling;
    if decisions == [] {
      IdleWorks(cfg, s, s);
    } else {
      var n := |decisions| - 1;
      var m := ScaleAll(cfg, s, decisions[..n]);
      ScaleAllWorks(cfg, s, decisions[..n]);
      ScalingWorks(cfg, m, decisions[n]);
      WorksTrans(cfg, s, m, ScaleAll(cfg, s, decisions));
    }
  }

  lemma ResetWorks(cfg: Config, s: State, next: real)
    ensures Works(cfg, s, Push(ResetWindow(s), next, DecisionTick))
  {
    hide Works;
    var w := ResetWindow(s);
    IdleWorks(cfg, s, w);
    PushWorks(cfg, w, next, DecisionTick);
    WorksTrans(cfg, s, w, Push(w, next, DecisionTick));
  }

  // ------------------------------------------------------------------
  // The decision tick: at most one server leaves ACTIVE, and only if it may
  // ------------------------------------------------------------------

  /** The state from which a provisioning action is lifecycle work: a host that is
      drained has been marked. */
  ghost function Marked(cfg: Config, s: State, action: Provision): State
    requires GoodConfig(cfg) && Linked(cfg, s)
    requires action.TurnOff? ==> PlanInBounds(cfg, s, action.plan)
  {
    if Drains(cfg, s, action) then MarkDraining(cfg, s, action.server) else s
  }

  /** The action drains its server: the gates are passed and nothing is left behind. */
  ghost predicate Drains(cfg: Config, s: State, action: Provision)
    requires GoodConfig(cfg) && Linked(cfg, s)
    requires action.TurnOff? ==> PlanInBounds(cfg, s, action.plan)
  {
    action.TurnOff? && MayTurnOff(cfg, s, action.server) && Unmigrated(cfg, s, action.server, action.plan) == {}
  }

  lemma ProvisionWorks(cfg: Config, s: State, action: Provision)
    requires GoodConfig(cfg) && Linked(cfg, s)
    requires action.TurnOff? ==> PlanInBounds(cfg, s, action.plan)
    ensures Works(cfg, Marked(cfg, s, action), ApplyProvision(cfg, s, action))
  {
    hide Works, GoodConfig, Drain, RescueAll, Unmigrated, PlanInBounds;
    IdleWorks(cfg, s, s);
    match action
    case NoProvision =>
    case TurnOn(sid) =>
      if sid in s.servers {
        StartBootWorks(cfg, s, sid, false);
      }
    case TurnOff(sid, plan) =>
      if MayTurnOff(cfg, s, sid) {
        PicksInBounds(cfg, s, plan);
        if Drains(cfg, s, action) {
          DrainWorks(cfg, s, sid, plan);
        } else {
          RescueAllWorks(cfg, s, plan.picks);
        }
      }
  }

  lemma PicksInBounds(cfg: Config, s: State, plan: DrainPlan)
    requires Linked(cfg, s) && PlanInBounds(cfg, s, plan)
    ensures s.servers.Keys == cfg.servers.Keys
    ensures forall i :: 0 <= i < |plan.picks| ==> plan.picks[i].service in cfg.services
  {
  }

  ghost function TickStart(s: State): State {
    s.(ticks := s.ticks + 1)
  }

  lemma TickWorks(cfg: Config, s: State, choice: Choice)
    requires GoodConfig(cfg) && Linked(cfg, s) && ChoiceLinked(cfg, s, choice)
    requires choice.provision.TurnOff? ==> PlanInBounds(cfg, TickStart(s), choice.provision.plan)
    ensures Linked(cfg, TickStart(s))
    ensures Works(cfg, Marked(cfg, TickStart(s), choice.provision), Handle(cfg, s, DecisionTick, choice))
  {
    hide Works, GoodConfig, ApplyProvision, ScaleAll, Drains, PlanInBounds;
    var s0 := TickStart(s);
    var d := Marked(cfg, s0, choice.provision);
    var s1 := ApplyProvision(cfg, s0, choice.provision);
    var s2 := ScaleAll(cfg, s1, choice.scaling);
    ProvisionWorks(cfg, s0, choice.provision);
    ScaleAllWorks(cfg, s1, choice.scaling);
    WorksTrans(cfg, d, s1, s2);
    ResetWorks(cfg, s2, s.now + cfg.delays.interval);
    WorksTrans(cfg, d, s2, Handle(cfg, s, DecisionTick, choice));
  }

  lemma TickPlanInBounds(cfg: Config, s: State, choice: Choice)
    requires Linked(cfg, s) && ChoiceLinked(cfg, s, choice) && choice.provision.TurnOff?
    ensures PlanInBounds(cfg, TickStart(s), choice.provision.plan)
  {
  }

  lemma MarkedBalances(cfg: Config, s: State, action: Provision)
    requires GoodConfig(cfg) && Linked(cfg, s)
    requires action.TurnOff? ==> PlanInBounds(cfg, s, action.plan)
    ensures Balanced(cfg, s, Marked(cfg, s, action))
  {
    hide Balanced, Unmigrated;
    UntouchedBalances(cfg, s, Marked(cfg, s, action));
  }

  lemma TickBalances(cfg: Config, s: State, choice: Choice)
    requires GoodConfig(cfg) && Linked(cfg, s) && ChoiceLinked(cfg, s, choice)
    ensures Balanced(cfg, s, Handle(cfg, s, DecisionTick, choice))
  {
    hide Balanced, GoodConfig, Drains, ChoiceLinked, PlanInBounds, Handle;
    if choice.provision.TurnOff? {
      TickPlanInBounds(cfg, s, choice);
    }
    TickWorks(cfg, s, choice);
    var s0 := TickStart(s);
    UntouchedBalances(cfg, s, s0);
    MarkedBalances(cfg, s0, choice.provision);
    BalancedTrans(cfg, s, s0, Marked(cfg, s0, choice.provision));
    BalancedTrans(cfg, s, Marked(cfg, s0, choice.provision), Handle(cfg, s, DecisionTick, choice));
  }

  // ------------------------------------------------------------------
  // The other handlers
  // ------------------------------------------------------------------

  lemma ReadyWorks(cfg: Config, s: State, slot: Slot)
    requires slot.server in s.servers && forall sid :: sid in s.servers ==> InStore(s, sid)
    ensures Works(cfg, s, HandleReady(cfg, s, slot))
  {
    hide Works, Retire;
    var r := HandleReady(cfg, s, slot);
    IdleWorks(cfg, s, s);
    if slot.service in s.servers[slot.server].hosted {
      assert InStore(s, slot.server);
      var o := At(s, slot.server, slot.service);
      var s1 := WithObject(s, o, s.objects[o].(phase := Ready, readySince := Some(s.now)));
      var s2 := s1.(pending := s1.pending - {slot});
      IdleWorks(cfg, s, s1);
      IdleWorks(cfg, s, s2);
      if r != s && r != s1 && r != s2 {
        var source := s.pending[slot];
        assert InStore(s, source);
        RetireWorks(cfg, s2, At(s2, source, slot.service));
        WorksTrans(cfg, s, s2, r);
      }
    }
  }

  lemma BootDoneBalances(cfg: Config, s: State, sid: int, order: seq<int>)
    requires InStore(s, sid) && s.servers[sid].phase == Booting
    ensures Balanced(cfg, s, HandleBootDone(cfg, s, sid, order))
  {
    hide Balanced;
    UntouchedBalances(cfg, s, HandleBootDone(cfg, s, sid, order));
  }

  /** What routing a request can change: one queue, one resync, one record. */
  ghost predicate RoutedChange(s: State, r: State) {
    && r == s.(heap := r.heap, lastSeq := r.lastSeq, objects := r.objects, log := r.log, metrics := r.metrics)
    && |r.objects| == |s.objects|
    && (forall o :: 0 <= o < |s.objects| ==> r.objects[o] == s.objects[o].(queue := r.objects[o].queue))
    && |r.log| == |s.log| + 1 && r.log[..|s.log|] == s.log
    && r.metrics == RecordRequest(s.metrics, r.log[|s.log|])
    && ((r.heap == s.heap && r.lastSeq == s.lastSeq)
        || (exists time :: r.heap == s.heap[s.lastSeq + 1 := Event(time, EnergyResync)] && r.lastSeq == s.lastSeq + 1))
  }

  /** Routing is: perhaps one queue changed, perhaps one resync pushed, one outcome recorded. */
  lemma RoutedForm(cfg: Config, s: State, req: Request, selected: Option<nat>)
    returns (w: State, pushed: bool, time: real, outcome: Outcome)
    requires selected.Some? ==> selected.value < |s.objects|
    requires selected.Some? ==> s.objects[selected.value].server in cfg.servers
    requires selected.Some? ==> s.objects[selected.value].service in cfg.services
    requires req.service in cfg.services
    ensures w == s || (selected.Some? && |w.objects| == |s.objects| && w == s.(objects := w.objects) &&
                       w.objects == s.objects[selected.value :=
                                                s.objects[selected.value].(queue := w.objects[selected.value].queue)])
    ensures HandleRouted(cfg, s, req, selected)
            == Finalize(if pushed then Push(w, time, EnergyResync) else w, outcome)
  {
    hide Admit, NetworkDelayMs, ColdStartExtra, ResponseTime, Candidate, RecordRequest;
    pushed, time := false, 0.0;
    match selected
    case None =>
      w := s;
      outcome := if exists o :: Candidate(s, req.service, o) then QueueFull(req) else NoReplica(req);
    case Some(o) =>
      var r := s.objects[o];
      var delay := NetworkDelayMs(cfg, cfg.distance(req.at, cfg.servers[r.server].site));
      var (queue, admission) := Admit(r.queue, s.now, ColdStartExtra(cfg, r, s.now));
      w := WithObject(s, o, r.(queue := queue));
      match admission
      case Rejected => outcome := QueueFull(req);
      case Admitted(start, finish) =>
        pushed, time := true, finish;
        var response := ResponseTime(req, delay, start - s.now, finish - start);
        outcome := Completed(req, response, response > cfg.services[req.service].deadline);
  }

  lemma RoutedIsChange(cfg: Config, s: State, req: Request, selected: Option<nat>)
    requires selected.Some? ==> selected.value < |s.objects|
    requires selected.Some? ==> s.objects[selected.value].server in cfg.servers
    requires selected.Some? ==> s.objects[selected.value].service in cfg.services
    requires req.service in cfg.services
    ensures RoutedChange(s, HandleRouted(cfg, s, req, selected))
  {
    hide HandleRouted;
    var w, pushed, time, outcome := RoutedForm(cfg, s, req, selected);
    var r := HandleRouted(cfg, s, req, selected);
    assert r.log == s.log + [outcome];
  }

  lemma RoutedBalances(cfg: Config, s: State, req: Request, choice: Choice)
    requires GoodConfig(cfg) && Linked(cfg, s) && ChoiceLinked(cfg, s, choice) && req.service in cfg.services
    ensures Balanced(cfg, s, Handle(cfg, s, Routed(req), choice))
  {
    hide Balanced, HandleRouted;
    RoutedIsChange(cfg, s, req, choice.selected);
    UntouchedBalances(cfg, s, HandleRouted(cfg, s, req, choice.selected));
  }

  /** No handler disturbs the balance. */
  lemma HandleBalances(cfg: Config, p: State, tau: real, kind: Kind, choice: Choice)
    requires GoodConfig(cfg) && Linked(cfg, p) && SlotsOk(p) && PhasesOk(p)
    requires WasLegitimate(cfg, p, tau, kind) && KindLinked(cfg, kind) && ChoiceLinked(cfg, p, choice)
    ensures Balanced(cfg, p, Handle(cfg, p, kind, choice))
  {
    hide Balanced;
    assert forall sid :: sid in p.servers ==> InStore(p, sid);
    match kind
    case Arrival(at, svc) => UntouchedBalances(cfg, p, HandleArrival(cfg, p, at, svc));
    case Routed(req) => RoutedBalances(cfg, p, req, choice);
    case DecisionTick => TickBalances(cfg, p, choice);
    case BootDone(sid) => BootDoneBalances(cfg, p, sid, choice.order);
    case DrainDone(sid) =>
      if AllTerminated(p, sid) {
        AllGoneIsEmpty(p, sid);
      }
      DrainDoneBalances(cfg, p, sid);
    case ReplicaReady(slot, o) => ReadyWorks(cfg, p, slot);
    case ReplicaGone(slot, o) => GoneBalances(cfg, p, slot);
    case EnergyResync => UntouchedBalances(cfg, p, p);
  }
}
