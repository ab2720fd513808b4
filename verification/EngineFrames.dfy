/** What the parts of a step leave alone. Work on replicas switches no server, and
    replicas only age: they keep their host and queue length for life, become READY
    once, and leave at a time fixed when they are told to. */
module EngineFrames {
  import opened Settings
  import opened ReplicaQueues
  import opened EngineModel
  import opened EngineInvariants
  import opened EngineClock
  import opened EngineBoot
  import opened EngineServers
  import opened EngineHandlers
  import opened EngineTick
  import opened EngineDrain
  import opened EngineRuns
  import opened EngineLedger

  // ------------------------------------------------------------------
  // Servers
  // ------------------------------------------------------------------

  predicate SameSwitch(x: Server, y: Server) {
    && y.phase == x.phase && y.lastTransition == x.lastTransition && y.emergency == x.emergency
    && y.boots == x.boots && y.shutdowns == x.shutdowns
  }

  /** No server is switched. */
  predicate Steady(s: State, r: State) {
    && r.now == s.now && r.servers.Keys == s.servers.Keys
    && forall sid :: sid in s.servers ==> SameSwitch(s.servers[sid], r.servers[sid])
  }

  lemma SteadyTrans(s: State, m: State, r: State)
    requires Steady(s, m) && Steady(m, r)
    ensures Steady(s, r)
  {
  }

  lemma CreateParts(cfg: Config, s: State, sid: int, svc: int)
    requires GoodConfig(cfg) && Linked(cfg, s) && sid in s.servers && svc in cfg.services
    ensures var c := Create(cfg, s, sid, svc);
            && sid in cfg.servers && c.objects == s.objects + [FreshReplica(cfg, sid, svc, s.now)]
            && c.heap == s.heap && c.lastSeq == s.lastSeq && c.now == s.now && c.servers.Keys == s.servers.Keys
            && c.lastScale == s.lastScale && c.pending == s.pending && c.rescue == s.rescue
            && (forall x :: x in s.servers ==>
                  c.servers[x] == s.servers[x].(hosted := c.servers[x].hosted, energy := c.servers[x].energy))
            && c.servers[sid].hosted == s.servers[sid].hosted[svc := |s.objects|]
            && forall x :: x in s.servers && x != sid ==> c.servers[x].hosted == s.servers[x].hosted
  {
    hide GoodConfig, FreshReplica;
  }

  lemma PlaceSteady(cfg: Config, s: State, sid: int, svc: int)
    requires GoodConfig(cfg) && Linked(cfg, s) && sid in s.servers && svc in cfg.services
    ensures Steady(s, Place(cfg, s, sid, svc).0)
  {
    hide GoodConfig, Linked, CanHost, FreshReplica, Create;
    CreateParts(cfg, s, sid, svc);
  }

  lemma {:induction false} MigrateAllSteady(cfg: Config, s: State, sid: int, steps: seq<MigrationStep>)
    requires GoodConfig(cfg) && Linked(cfg, s) && sid in s.servers && StepsInBounds(cfg, s, steps)
    ensures Steady(s, MigrateAll(cfg, s, sid, steps))
    decreases |steps|
  {
    hide GoodConfig, Linked, Place;
    if steps != [] {
      var n := |steps| - 1;
      var m := MigrateAll(cfg, s, sid, steps[..n]);
      MigrateAllSteady(cfg, s, sid, steps[..n]);
      PlaceSteady(cfg, m, steps[n].target, steps[n].service);
    }
  }

  /** After the host is marked a drain switches nothing. */
  lemma DrainSteady(cfg: Config, s: State, sid: int, plan: DrainPlan)
    requires GoodConfig(cfg) && Linked(cfg, s) && sid in s.servers && PlanInBounds(cfg, s, plan)
    ensures Steady(MarkDraining(cfg, s, sid), Drain(cfg, s, sid, plan))
  {
    hide GoodConfig, Linked, KeepSteps, MigrateAll, MarkDraining;
    MigrateAllSteady(cfg, MarkDraining(cfg, s, sid), sid, KeepSteps(cfg, s, plan.steps).0);
  }

  lemma ScalingSteady(cfg: Config, s: State, decision: Scaling)
    requires GoodConfig(cfg) && Linked(cfg, s)
    ensures Steady(s, ApplyScaling(cfg, s, decision))
  {
    hide GoodConfig, Linked, Place;
    match decision
    case ScaleUp(svc, target) =>
      if svc in cfg.services && target.Some? && target.value in s.servers {
        PlaceSteady(cfg, s, target.value, svc);
      }
    case _ =>
  }

  lemma {:induction false} ScaleAllSteady(cfg: Config, s: State, decisions: seq<Scaling>)
    requires GoodConfig(cfg) && Linked(cfg, s)
    ensures Steady(s, ScaleAll(cfg, s, decisions))
    decreases |decisions|
  {
    hide GoodConfig, Linked, ApplyScaling;
    if decisions != [] {
      var n := |decisions| - 1;
      ScaleAllSteady(cfg, s, decisions[..n]);
      ScalingSteady(cfg, ScaleAll(cfg, s, decisions[..n]), decisions[n]);
    }
  }

  /** At a tick only provisioning switches servers. */
  lemma TickSteady(cfg: Config, p: State, choice: Choice)
    requires GoodConfig(cfg) && Linked(cfg, p) && Linked(cfg, TickStart(p)) && ChoiceLinked(cfg, p, choice)
    requires choice.provision.TurnOff? ==> PlanInBounds(cfg, TickStart(p), choice.provision.plan)
    ensures Steady(ApplyProvision(cfg, TickStart(p), choice.provision), Handle(cfg, p, DecisionTick, choice))
  {
    hide GoodConfig, Linked, ScaleAll, ApplyProvision;
    ScaleAllSteady(cfg, ApplyProvision(cfg, TickStart(p), choice.provision), choice.scaling);
    ApplyProvisionNow(cfg, TickStart(p), choice.provision);
  }

  /** Between ticks a server switches only at its own boot or drain event. */
  predicate SwitchesOnly(s: State, r: State, kind: Kind, x: int)
    requires x in s.servers && x in r.servers
  {
    var a, b := s.servers[x], r.servers[x];
    if kind == BootDone(x) then
      && b.phase == Active && b.lastTransition == s.now && b.boots == a.boots && b.shutdowns == a.shutdowns
    else if kind == DrainDone(x) then
      && b.boots == a.boots
      && (SameSwitch(a, b) || (b.phase == Off && b.lastTransition == s.now && b.shutdowns == a.shutdowns + 1))
    else SameSwitch(a, b)
  }

  lemma HandleSwitches(cfg: Config, p: State, kind: Kind, choice: Choice, x: int)
    requires GoodConfig(cfg) && Linked(cfg, p) && KindLinked(cfg, kind) && ChoiceLinked(cfg, p, choice)
    requires !kind.DecisionTick? && x in p.servers
    ensures x in Handle(cfg, p, kind, choice).servers && SwitchesOnly(p, Handle(cfg, p, kind, choice), kind, x)
  {
    hide GoodConfig, Linked, HandleRouted, HandleBootDone, HandleReady, HandleDrainDone, HandleGone, SameSwitch;
    StoresOk(cfg, p);
    match kind
    case Arrival(at, svc) => SameServersSwitch(p, HandleArrival(cfg, p, at, svc), kind, x);
    case Routed(req) =>
      RoutedServers(cfg, p, req, choice);
      SameServersSwitch(p, HandleRouted(cfg, p, req, choice.selected), kind, x);
    case BootDone(sid) => BootDoneSwitch(cfg, p, sid, choice.order, x);
    case DrainDone(sid) => DrainDoneSwitch(cfg, p, sid, x);
    case ReplicaReady(slot, _) =>
      ReadySwitch(cfg, p, slot);
      SameServersSwitch(p, HandleReady(cfg, p, slot), kind, x);
    case ReplicaGone(slot, _) => GoneSwitch(cfg, p, slot, kind, x);
    case EnergyResync => SameServersSwitch(p, p, kind, x);
  }

  lemma StoresOk(cfg: Config, p: State)
    requires Linked(cfg, p)
    ensures p.servers.Keys == cfg.servers.Keys && p.byService.Keys == cfg.services.Keys
    ensures forall sid :: sid in p.servers ==> InStore(p, sid)
  {
  }

  lemma SameServersSwitch(p: State, r: State, kind: Kind, x: int)
    requires r.servers == p.servers && x in p.servers && kind != BootDone(x)
    ensures SwitchesOnly(p, r, kind, x)
  {
  }

  lemma RoutedServers(cfg: Config, p: State, req: Request, choice: Choice)
    requires Linked(cfg, p) && req.service in cfg.services && ChoiceLinked(cfg, p, choice)
    ensures choice.selected.Some? ==>
              && choice.selected.value < |p.objects|
              && p.objects[choice.selected.value].server in cfg.servers
              && p.objects[choice.selected.value].service in cfg.services
    ensures HandleRouted(cfg, p, req, choice.selected).servers == p.servers
  {
    hide HandleRouted, RecordRequest;
    if choice.selected.Some? {
      assert ObjectLinked(cfg, p.objects[choice.selected.value]);
    }
    RoutedIsChange(cfg, p, req, choice.selected);
  }

  lemma DrainDoneSwitch(cfg: Config, p: State, sid: int, x: int)
    requires InStore(p, sid) && x in p.servers
    ensures x in HandleDrainDone(cfg, p, sid).servers
    ensures SwitchesOnly(p, HandleDrainDone(cfg, p, sid), DrainDone(sid), x)
  {
    hide AllTerminated;
  }

  lemma GoneSwitch(cfg: Config, p: State, slot: Slot, kind: Kind, x: int)
    requires slot.server in p.servers && InStore(p, slot.server) && slot.service in p.byService && x in p.servers
    requires kind.ReplicaGone?
    ensures x in HandleGone(p, slot).servers && SwitchesOnly(p, HandleGone(p, slot), kind, x)
  {
    hide Without;
  }

  lemma BootDoneSwitch(cfg: Config, p: State, sid: int, order: seq<int>, x: int)
    requires InStore(p, sid) && x in p.servers
    ensures x in HandleBootDone(cfg, p, sid, order).servers
    ensures SwitchesOnly(p, HandleBootDone(cfg, p, sid, order), BootDone(sid), x)
  {
  }

  lemma ReadySwitch(cfg: Config, p: State, slot: Slot)
    requires slot.server in p.servers && forall sid :: sid in p.servers ==> InStore(p, sid)
    ensures HandleReady(cfg, p, slot).servers == p.servers
  {
    hide Retire;
  }

  /** Popping and metering switch nothing. */
  lemma PoppedSteady(cfg: Config, s: State, k: nat)
    requires GoodConfig(cfg) && Linked(cfg, s) && k in s.heap
    ensures Popped(cfg, s, k).servers.Keys == s.servers.Keys
    ensures forall sid :: sid in s.servers ==> SameSwitch(s.servers[sid], Popped(cfg, s, k).servers[sid])
    ensures Popped(cfg, s, k).now == s.heap[k].time && Popped(cfg, s, k).objects == s.objects
    ensures forall sid :: sid in s.servers ==> Popped(cfg, s, k).servers[sid].hosted == s.servers[sid].hosted
    ensures Popped(cfg, s, k).rescue == s.rescue && Popped(cfg, s, k).lastScale == s.lastScale
    ensures Popped(cfg, s, k).byService == s.byService && Popped(cfg, s, k).lastSeq == s.lastSeq
    ensures Popped(cfg, s, k).heap == s.heap - {k} && Popped(cfg, s, k).arrived == s.arrived
    ensures Popped(cfg, s, k).log == s.log
  {
    hide Metered, GoodConfig;
  }

  // ------------------------------------------------------------------
  // Replicas
  // ------------------------------------------------------------------

  /** What a replica keeps for life. */
  predicate SameMake(a: Replica, b: Replica) {
    && b.server == a.server && b.service == a.service && b.createdAt == a.createdAt
    && b.queue.capacity == a.queue.capacity && b.queue.exec == a.queue.exec
  }

  /** When the termination of a replica told to leave now is due: after the graceful
      delay, or with its last departure if that is later. */
  function LeaveTime(cfg: Config, now: real, r: Replica): real {
    if r.queue.availableAt <= now + cfg.delays.graceful then now + cfg.delays.graceful else r.queue.availableAt
  }

  ghost predicate LeavesInTime(cfg: Config, r: State, o: nat)
    requires o < |r.objects|
  {
    exists k :: k in r.heap
                && r.heap[k] == Event(LeaveTime(cfg, r.now, r.objects[o]), ReplicaGone(SlotOf(r, o), o))
  }

  /** A replica stays as it is, or is told to leave. */
  ghost predicate Stays(cfg: Config, s: State, r: State, o: nat)
    requires o < |s.objects| && o < |r.objects|
  {
    && r.objects[o] == s.objects[o].(phase := r.objects[o].phase)
    && (r.objects[o].phase == s.objects[o].phase || (r.objects[o].phase == Leaving && LeavesInTime(cfg, r, o)))
  }

  /** As it was placed, or told to leave at once. */
  ghost predicate Newborn(cfg: Config, now: real, r: Replica)
    requires GoodConfig(cfg)
  {
    && r.server in cfg.servers && r.service in cfg.services && r.phase in {Starting, Leaving}
    && r.(phase := Starting) == FreshReplica(cfg, r.server, r.service, now)
  }

  /** No event is lost. */
  ghost predicate KeepsHeap(s: State, r: State) {
    && s.lastSeq <= r.lastSeq && r.now == s.now
    && (Fresh(s) ==> Fresh(r) && forall k :: k in s.heap ==> k in r.heap && r.heap[k] == s.heap[k])
  }

  /** Replicas stay or are told to leave, and others are placed. */
  ghost predicate Grown(cfg: Config, s: State, r: State)
    requires GoodConfig(cfg)
  {
    && KeepsHeap(s, r) && |s.objects| <= |r.objects|
    && (forall o :: 0 <= o < |s.objects| ==> Stays(cfg, s, r, o))
    && forall o :: |s.objects| <= o < |r.objects| ==> Newborn(cfg, r.now, r.objects[o])
  }

  lemma StaysTrans(cfg: Config, s: State, m: State, r: State, o: nat)
    requires o < |s.objects| <= |m.objects| <= |r.objects| && KeepsHeap(m, r) && Fresh(m)
    requires Stays(cfg, s, m, o) && Stays(cfg, m, r, o)
    ensures Stays(cfg, s, r, o)
  {
    if m.objects[o].phase != s.objects[o].phase {
      var k :| k in m.heap
               && m.heap[k] == Event(LeaveTime(cfg, m.now, m.objects[o]), ReplicaGone(SlotOf(m, o), o));
      assert k in r.heap && r.heap[k] == m.heap[k];
    }
  }

  lemma GrownTrans(cfg: Config, s: State, m: State, r: State)
    requires GoodConfig(cfg) && Fresh(s) && Grown(cfg, s, m) && Grown(cfg, m, r)
    ensures Grown(cfg, s, r)
  {
    hide GoodConfig, LeavesInTime, FreshReplica, Fresh;
    forall o | 0 <= o < |s.objects| ensures Stays(cfg, s, r, o) {
      assert Stays(cfg, s, m, o) && Stays(cfg, m, r, o);
      StaysTrans(cfg, s, m, r, o);
    }
    forall o | |s.objects| <= o < |r.objects| ensures Newborn(cfg, r.now, r.objects[o]) {
      if o < |m.objects| {
        assert Newborn(cfg, m.now, m.objects[o]) && Stays(cfg, m, r, o);
      }
    }
  }

  lemma PushKeepsHeap(s: State, time: real, kind: Kind)
    ensures KeepsHeap(s, Push(s, time, kind))
  {
  }

  /** Nothing happened to the replicas. */
  lemma SameObjectsGrown(cfg: Config, s: State, r: State)
    requires GoodConfig(cfg) && KeepsHeap(s, r) && r.objects == s.objects
    ensures Grown(cfg, s, r)
  {
  }

  lemma PlaceGrown(cfg: Config, s: State, sid: int, svc: int)
    requires GoodConfig(cfg) && Linked(cfg, s) && sid in s.servers && svc in cfg.services
    ensures Grown(cfg, s, Place(cfg, s, sid, svc).0)
  {
    hide GoodConfig, Linked, CanHost, LeavesInTime, ExecTime, Create, Fresh;
    CreateParts(cfg, s, sid, svc);
    var r := Place(cfg, s, sid, svc).0;
    if CanHost(cfg, s, sid, svc) {
      var c := Create(cfg, s, sid, svc);
      FreshKept(s, c);
      if r != c {
        PushKeepsHeap(c, c.now + cfg.delays.startup, ReplicaReady(SlotOf(c, |s.objects|), |s.objects|));
      }
      assert r.objects == c.objects;
    }
  }

  lemma RetireGrown(cfg: Config, s: State, o: nat)
    requires GoodConfig(cfg) && Fresh(s) && o < |s.objects|
    ensures Grown(cfg, s, Retire(cfg, s, o))
  {
    hide GoodConfig;
    var r := Retire(cfg, s, o);
    if r != s {
      assert r.heap[r.lastSeq] == Event(LeaveTime(cfg, r.now, r.objects[o]), ReplicaGone(SlotOf(r, o), o));
    }
  }

  lemma {:induction false} ScheduleAllGrown(cfg: Config, s: State, sid: int, order: seq<int>)
    requires GoodConfig(cfg) && InStore(s, sid)
    ensures Grown(cfg, s, ScheduleAll(cfg, s, sid, order))
    decreases |order|
  {
    hide GoodConfig, Stays;
    if order != [] {
      ScheduleAllGrown(cfg, s, sid, order[..|order| - 1]);
    }
    SameObjectsGrown(cfg, s, ScheduleAll(cfg, s, sid, order));
  }

  lemma {:induction false} RescueAllGrown(cfg: Config, s: State, picks: seq<MigrationStep>)
    requires GoodConfig(cfg) && s.servers.Keys == cfg.servers.Keys
    requires forall i :: 0 <= i < |picks| ==> picks[i].service in cfg.services
    ensures Grown(cfg, s, RescueAll(cfg, s, picks).0) && RescueAll(cfg, s, picks).0.objects == s.objects
    decreases |picks|
  {
    hide GoodConfig, Stays, Newborn;
    if picks != [] {
      RescueAllGrown(cfg, s, picks[..|picks| - 1]);
    }
    SameObjectsGrown(cfg, s, RescueAll(cfg, s, picks).0);
  }

  lemma {:induction false} MigrateAllGrown(cfg: Config, s: State, sid: int, steps: seq<MigrationStep>)
    requires GoodConfig(cfg) && Linked(cfg, s) && sid in s.servers && StepsInBounds(cfg, s, steps) && Fresh(s)
    ensures Grown(cfg, s, MigrateAll(cfg, s, sid, steps))
    decreases |steps|
  {
    hide GoodConfig, Linked, Place, Stays, Newborn;
    if steps == [] {
      SameObjectsGrown(cfg, s, s);
    } else {
      var n := |steps| - 1;
      var m := MigrateAll(cfg, s, sid, steps[..n]);
      MigrateAllGrown(cfg, s, sid, steps[..n]);
      PlaceGrown(cfg, m, steps[n].target, steps[n].service);
      var p := Place(cfg, m, steps[n].target, steps[n].service).0;
      GrownTrans(cfg, s, m, p);
      var r := MigrateAll(cfg, s, sid, steps);
      SameObjectsGrown(cfg, p, r);
      GrownTrans(cfg, s, p, r);
    }
  }

  lemma {:induction false} RetireAllGrown(cfg: Config, s: State, sid: int, order: seq<int>, migrated: set<int>)
    requires GoodConfig(cfg) && InStore(s, sid) && Fresh(s)
    ensures Grown(cfg, s, RetireAll(cfg, s, sid, order, migrated))
    decreases |order|
  {
    hide GoodConfig, Retire, Stays, Newborn;
    if order == [] {
      SameObjectsGrown(cfg, s, s);
    } else {
      var n := |order| - 1;
      var m := RetireAll(cfg, s, sid, order[..n], migrated);
      RetireAllGrown(cfg, s, sid, order[..n], migrated);
      if order[n] !in migrated && order[n] in s.servers[sid].hosted {
        RetireGrown(cfg, m, At(s, sid, order[n]));
        GrownTrans(cfg, s, m, Retire(cfg, m, At(s, sid, order[n])));
      }
    }
  }

  lemma DrainGrown(cfg: Config, s: State, sid: int, plan: DrainPlan)
    requires GoodConfig(cfg) && Linked(cfg, s) && sid in s.servers && PlanInBounds(cfg, s, plan) && Fresh(s)
    ensures Grown(cfg, s, Drain(cfg, s, sid, plan))
  {
    hide GoodConfig, Linked, KeepSteps, MigrateAll, Stays, Newborn, Fresh, RetireAll;
    var steps := KeepSteps(cfg, s, plan.steps).0;
    var d, m := MarkDraining(cfg, s, sid), Moved(cfg, s, sid, steps);
    var e := RetireAll(cfg, m, sid, plan.order, ServicesOf(steps));
    FreshKept(s, d);
    SameObjectsGrown(cfg, s, d);
    MigrateAllGrown(cfg, d, sid, steps);
    GrownTrans(cfg, s, d, m);
    RetireAllGrown(cfg, m, sid, plan.order, ServicesOf(steps));
    GrownTrans(cfg, s, m, e);
    PushKeepsHeap(e, s.now + cfg.delays.grace, DrainDone(sid));
    SameObjectsGrown(cfg, e, Drain(cfg, s, sid, plan));
    GrownTrans(cfg, s, e, Drain(cfg, s, sid, plan));
  }

  lemma FreshKept(s: State, r: State)
    requires r.heap == s.heap && r.lastSeq == s.lastSeq && r.now == s.now
    ensures KeepsHeap(s, r) && (Fresh(s) <==> Fresh(r))
  {
  }

  lemma ProvisionGrown(cfg: Config, s: State, action: Provision)
    requires GoodConfig(cfg) && Linked(cfg, s) && (action.TurnOff? ==> PlanInBounds(cfg, s, action.plan)) && Fresh(s)
    ensures Grown(cfg, s, ApplyProvision(cfg, s, action))
  {
    hide GoodConfig, Linked, Drain, RescueAll, PlanInBounds, Stays, Newborn, Unmigrated;
    SameObjectsGrown(cfg, s, s);
    match action
    case NoProvision =>
    case TurnOn(sid) =>
      if sid in s.servers {
        SameObjectsGrown(cfg, s, StartBoot(cfg, s, sid, false));
      }
    case TurnOff(d, plan) =>
      if MayTurnOff(cfg, s, d) {
        PicksInBounds(cfg, s, plan);
        RescueAllGrown(cfg, s, plan.picks);
        DrainGrown(cfg, s, d, plan);
      }
  }

  lemma ScalingGrown(cfg: Config, s: State, decision: Scaling)
    requires GoodConfig(cfg) && Linked(cfg, s) && Fresh(s)
    ensures Grown(cfg, s, ApplyScaling(cfg, s, decision))
  {
    hide GoodConfig, Linked, Place, Retire, Stays, Newborn, Fresh;
    var r := ApplyScaling(cfg, s, decision);
    FreshKept(s, s);
    SameObjectsGrown(cfg, s, s);
    match decision
    case NoScaling =>
    case ScaleUp(svc, target) =>
      if svc in cfg.services && target.Some? && target.value in s.servers {
        PlaceGrown(cfg, s, target.value, svc);
        var p := Place(cfg, s, target.value, svc).0;
        FreshKept(p, p.(lastScale := p.lastScale[svc := s.now]));
        SameObjectsGrown(cfg, p, p.(lastScale := p.lastScale[svc := s.now]));
        GrownTrans(cfg, s, p, p.(lastScale := p.lastScale[svc := s.now]));
      }
    case ScaleDown(svc, victim) =>
      if svc in cfg.services && victim in ReadyOf(s, svc) {
        RetireGrown(cfg, s, victim);
        var p := Retire(cfg, s, victim);
        FreshKept(p, p.(lastScale := p.lastScale[svc := s.now]));
        SameObjectsGrown(cfg, p, p.(lastScale := p.lastScale[svc := s.now]));
        GrownTrans(cfg, s, p, p.(lastScale := p.lastScale[svc := s.now]));
      }
  }

  lemma {:induction false} ScaleAllGrown(cfg: Config, s: State, decisions: seq<Scaling>)
    requires GoodConfig(cfg) && Linked(cfg, s) && Fresh(s)
    ensures Grown(cfg, s, ScaleAll(cfg, s, decisions))
    decreases |decisions|
  {
    hide GoodConfig, Linked, ApplyScaling, Stays, Newborn, Fresh;
    if decisions == [] {
      FreshKept(s, s);
      SameObjectsGrown(cfg, s, s);
    } else {
      var n := |decisions| - 1;
      var m := ScaleAll(cfg, s, decisions[..n]);
      ScaleAllGrown(cfg, s, decisions[..n]);
      ScalingGrown(cfg, m, decisions[n]);
      GrownTrans(cfg, s, m, ScaleAll(cfg, s, decisions));
    }
  }

  lemma TickGrown(cfg: Config, p: State, choice: Choice)
    requires GoodConfig(cfg) && Linked(cfg, p) && Linked(cfg, TickStart(p)) && ChoiceLinked(cfg, p, choice) && Fresh(p)
    requires choice.provision.TurnOff? ==> PlanInBounds(cfg, TickStart(p), choice.provision.plan)
    ensures Grown(cfg, TickStart(p), Handle(cfg, p, DecisionTick, choice))
  {
    hide GoodConfig, Linked, ApplyProvision, ScaleAll, Stays, Newborn, Fresh, PlanInBounds;
    var s0, next := TickStart(p), p.now + cfg.delays.interval;
    var s1 := ApplyProvision(cfg, s0, choice.provision);
    var s2 := ScaleAll(cfg, s1, choice.scaling);
    FreshKept(p, s0);
    ProvisionGrown(cfg, s0, choice.provision);
    ScaleAllGrown(cfg, s1, choice.scaling);
    GrownTrans(cfg, s0, s1, s2);
    FreshKept(s2, ResetWindow(s2));
    SameObjectsGrown(cfg, s2, ResetWindow(s2));
    GrownTrans(cfg, s0, s2, ResetWindow(s2));
    PushKeepsHeap(ResetWindow(s2), next, DecisionTick);
    SameObjectsGrown(cfg, ResetWindow(s2), Push(ResetWindow(s2), next, DecisionTick));
    GrownTrans(cfg, s0, ResetWindow(s2), Push(ResetWindow(s2), next, DecisionTick));
    assert Handle(cfg, p, DecisionTick, choice) == Push(ResetWindow(s2), next, DecisionTick) by {
      ApplyProvisionNow(cfg, s0, choice.provision);
    }
  }
}
