/** `SimulationEngine`, carrying out in place what EngineModel describes. */
module Engine {
  import opened Collections
  import opened Settings
  import opened ReplicaQueues
  import opened EngineModel
  import opened EngineInvariants
  import opened EngineClock
  import opened EngineHandlers
  import opened EngineDrain
  import opened EngineRuns
  import opened EnginePrime
  import opened EngineAccounts
  import opened EngineTraffic
  import opened EngineTermination

  class SimulationEngine {
    const cfg: Config

    var now: real
    var lastSeq: nat
    var heap: map<nat, Event>
    var cutoff: real
    var servers: map<int, Server>
    var objects: seq<Replica>
    var byService: map<int, seq<nat>>
    var pending: map<Slot, int>
    var rescue: map<int, int>
    var lastScale: map<int, real>
    var windowStart: real
    var ticks: nat
    var arrived: nat
    var metrics: Metrics
    var log: seq<Outcome>

    /** The state of the engine as a value. */
    function View(): State
      reads this
    {
      State(now, lastSeq, heap, cutoff, servers, objects, byService, pending, rescue, lastScale,
            windowStart, ticks, arrived, metrics, log)
    }

    /** References lead somewhere. */
    ghost predicate Valid()
      reads this
    {
      GoodConfig(cfg) && Linked(cfg, View())
    }

    // ----------------------------------------------------------------
    // Capacity
    // ----------------------------------------------------------------

    /** The MIPS reserved by some services on a host. */
    method ReservedBy(sid: int, services: set<int>) returns (cpu: int)
      requires GoodConfig(cfg) && sid in cfg.servers
      requires forall v :: v in services ==> v in cfg.services
      ensures cpu == CpuSum(cfg, sid, services)
    {
      cpu := 0;
      var rest := services;
      while rest != {}
        invariant rest <= services
        invariant cpu + CpuSum(cfg, sid, rest) == CpuSum(cfg, sid, services)
        decreases |rest|
      {
        var v: int :| v in rest;
        CpuSumRemove(cfg, sid, rest, v);
        cpu := cpu + EffectiveCpu(cfg, sid, v);
        rest := rest - {v};
      }
    }

    method UsedCpu(sid: int) returns (cpu: int)
      requires Valid() && sid in servers
      ensures cpu == EngineModel.UsedCpu(cfg, View(), sid)
    {
      assert HostLinked(cfg, servers[sid].hosted, |objects|);
      cpu := ReservedBy(sid, servers[sid].hosted.Keys);
    }

    method CanHost(sid: int, svc: int) returns (can: bool)
      requires Valid() && sid in servers && svc in cfg.services
      ensures can == EngineModel.CanHost(cfg, View(), sid, svc)
    {
      if svc in servers[sid].hosted {
        can := false;
      } else {
        var used := UsedCpu(sid);
        can := cfg.servers[sid].capacity - used >= EffectiveCpu(cfg, sid, svc);
      }
    }

    // ----------------------------------------------------------------
    // Lifecycle operations
    // ----------------------------------------------------------------

    method Push(time: real, kind: Kind)
      modifies this
      ensures View() == EngineModel.Push(old(View()), time, kind)
    {
      lastSeq := lastSeq + 1;
      heap := heap[lastSeq := Event(time, kind)];
    }

    method StartServerBoot(sid: int, emergency: bool)
      requires sid in servers
      modifies this
      ensures View() == StartBoot(cfg, old(View()), sid, emergency)
    {
      var s := servers[sid];
      if s.phase != Off {
        return;
      }
      servers := servers[sid := s.(phase := Booting, emergency := emergency, lastTransition := now,
                                   boots := s.boots + 1, energy := s.energy + cfg.bootJoule)];
      metrics := metrics.(boots := metrics.boots + 1);
      Push(now + cfg.delays.boot, BootDone(sid));
    }

    method ScheduleReplicaReady(o: nat)
      requires o < |objects|
      modifies this
      ensures View() == ScheduleReady(cfg, old(View()), o)
    {
      Push(now + cfg.delays.startup, ReplicaReady(Slot(objects[o].server, objects[o].service), o));
    }

    /** The replica object of a placement. */
    method NewReplica(sid: int, svc: int) returns (r: Replica)
      requires Valid() && sid in servers && svc in cfg.services
      ensures sid in cfg.servers && r == FreshReplica(cfg, sid, svc, now)
    {
      assert GoodServer(cfg, cfg.servers[sid]) && GoodService(cfg.services[svc]);
      r := Replica(sid, svc, Starting, now, None,
                   Queue(cfg.services[svc].queueLen, ExecTime(cfg, sid, svc), 0.0, []));
    }

    /** The bookkeeping of a placement. */
    method CreateReplica(sid: int, svc: int)
      requires Valid() && sid in servers && svc in cfg.services
      modifies this
      ensures View() == Create(cfg, old(View()), sid, svc)
    {
      KnownService(cfg, View(), svc);
      hide GoodConfig, Linked, FreshReplica, Create, HostWith, OneMoreCreate;
      ghost var s0 := View();
      var r := NewReplica(sid, svc);
      var o := |objects|;
      var list: seq<nat> := byService[svc] + [o];
      objects, byService := objects + [r], byService[svc := list];
      servers := servers[sid := HostWith(cfg, servers[sid], svc, o)];
      metrics := OneMoreCreate(metrics);
      CreateFields(cfg, s0, View(), r, sid, svc);
    }

    method PlaceReplica(sid: int, svc: int) returns (placed: Option<nat>)
      requires Valid() && sid in servers && svc in cfg.services
      modifies this
      ensures (View(), placed) == Place(cfg, old(View()), sid, svc)
    {
      hide GoodConfig, Linked, EngineModel.CanHost, Create;
      var can := CanHost(sid, svc);
      if !can {
        return None;
      }
      var o := |objects|;
      var phase := servers[sid].phase;
      ghost var s0 := View();
      CreateReplica(sid, svc);
      CreateAppends(cfg, s0, sid, svc);
      if phase == Active {
        ScheduleReplicaReady(o);
      }
      placed := Some(o);
    }

    method StartReplicaDrain(o: nat)
      requires o < |objects|
      modifies this
      ensures View() == Retire(cfg, old(View()), o)
    {
      var r := objects[o];
      if r.phase == Terminated {
        return;
      }
      objects := objects[o := r.(phase := Leaving)];
      var wait := Later(cfg.delays.graceful, r.queue.availableAt - now);
      Push(now + wait, ReplicaGone(Slot(r.server, r.service), o));
    }

    // ----------------------------------------------------------------
    // Event handlers
    // ----------------------------------------------------------------

    method HandleBootDone(sid: int, order: seq<int>)
      requires InStore(View(), sid)
      modifies this
      ensures View() == EngineModel.HandleBootDone(cfg, old(View()), sid, order)
    {
      servers := servers[sid := servers[sid].(phase := Active, lastTransition := now)];
      ghost var s1 := View();
      var i := 0;
      while i < |order|
        invariant 0 <= i <= |order| && InStore(s1, sid)
        invariant View() == ScheduleAll(cfg, s1, sid, order[..i])
      {
        var v := order[i];
        assert order[..i + 1][..i] == order[..i];
        if v in servers[sid].hosted {
          var r := objects[servers[sid].hosted[v]];
          if r.phase == Starting && r.readySince == None && r.createdAt <= now {
            ScheduleReplicaReady(servers[sid].hosted[v]);
          }
        }
        i := i + 1;
      }
      assert order[..|order|] == order;
      var rescued := set v | v in rescue && rescue[v] == sid;
      rescue := rescue - rescued;
      if rescued != {} {
        servers := servers[sid := servers[sid].(emergency := false)];
      }
    }

    method HandleReplicaReady(slot: Slot)
      requires slot.server in servers && forall sid :: sid in servers ==> InStore(View(), sid)
      modifies this
      ensures View() == HandleReady(cfg, old(View()), slot)
    {
      assert InStore(View(), slot.server);
      if slot.service !in servers[slot.server].hosted {
        return;
      }
      var o := servers[slot.server].hosted[slot.service];
      if objects[o].phase != Starting {
        return;
      }
      objects := objects[o := objects[o].(phase := Ready, readySince := Some(now))];
      if slot in pending {
        var source := pending[slot];
        pending := pending - {slot};
        assert source in servers ==> InStore(old(View()), source);
        if source in servers && slot.service in servers[source].hosted
           && objects[servers[source].hosted[slot.service]].phase !in {Terminated, Leaving} {
          StartReplicaDrain(servers[source].hosted[slot.service]);
        }
      }
    }

    method HandleReplicaTerminated(slot: Slot)
      requires slot.server in servers
      requires slot.service in servers[slot.server].hosted ==>
                 servers[slot.server].hosted[slot.service] < |objects| && slot.service in byService
      modifies this
      ensures View() == HandleGone(old(View()), slot)
    {
      var s := servers[slot.server];
      if slot.service !in s.hosted {
        return;
      }
      var o := s.hosted[slot.service];
      objects := objects[o := objects[o].(phase := Terminated)];
      metrics := metrics.(podDeletes := metrics.podDeletes + 1);
      servers := servers[slot.server := s.(hosted := s.hosted - {slot.service})];
      byService := byService[slot.service := Without(byService[slot.service], o)];
    }

    method HandleDrainDone(sid: int)
      requires InStore(View(), sid)
      modifies this
      ensures View() == EngineModel.HandleDrainDone(cfg, old(View()), sid)
    {
      var s := servers[sid];
      if exists v :: v in s.hosted && objects[s.hosted[v]].phase != Terminated {
        Push(now + cfg.delays.grace, DrainDone(sid));
        return;
      }
      var terminated := set v | v in s.hosted && objects[s.hosted[v]].phase == Terminated;
      var left := s.hosted - terminated;
      servers := servers[sid := s.(hosted := left, phase := Off, lastTransition := now, shutdowns := s.shutdowns + 1)];
      metrics := metrics.(shutdowns := metrics.shutdowns + 1);
    }

    method HandleArrival(at: Position, svc: int)
      modifies this
      ensures View() == EngineModel.HandleArrival(cfg, old(View()), at, svc)
    {
      arrived := arrived + 1;
      var delay := RoutingDelay(cfg, at);
      Push(now + delay, Routed(Request(arrived, svc, at, delay)));
    }

    method FinalizeRequest(outcome: Outcome)
      modifies this
      ensures View() == Finalize(old(View()), outcome)
    {
      log := log + [outcome];
      metrics := RecordRequest(metrics, outcome);
    }

    method HandleRouted(req: Request, selected: Option<nat>)
      requires Valid() && req.service in cfg.services
      requires selected.Some? ==> selected.value < |objects|
      modifies this
      ensures View() == EngineModel.HandleRouted(cfg, old(View()), req, selected)
    {
      match selected
      case None =>
        assert ListLinked(byService[req.service], |objects|);
        var list := byService[req.service];
        var found := exists i :: 0 <= i < |list| && objects[list[i]].phase == Ready;
        CandidateInList(View(), req.service);
        FinalizeRequest(if found then QueueFull(req) else NoReplica(req));
      case Some(o) =>
        assert ObjectLinked(cfg, objects[o]);
        var r := objects[o];
        var delay := NetworkDelayMs(cfg, cfg.distance(req.at, cfg.servers[r.server].site));
        var extra := 0.0;
        if r.readySince.Some? && now - r.readySince.value <= ColdStartWindow(r.queue.exec) {
          extra := ColdStartPenalty(cfg.services[r.service].deadline, r.queue.exec);
        }
        var (queue, admission) := Admit(r.queue, now, extra);
        objects := objects[o := r.(queue := queue)];
        match admission {
          case Rejected =>
            FinalizeRequest(QueueFull(req));
          case Admitted(start, finish) =>
            Push(finish, EnergyResync);
            var response := ResponseTime(req, delay, start - now, finish - start);
            FinalizeRequest(Completed(req, response, response > cfg.services[req.service].deadline));
        }
    }

    // ----------------------------------------------------------------
    // Draining a server
    // ----------------------------------------------------------------

    /** `_trigger_emergency_boot`. */
    method TriggerEmergencyBoot(picks: seq<MigrationStep>)
      requires servers.Keys == cfg.servers.Keys
      requires forall i :: 0 <= i < |picks| ==> picks[i].service in cfg.services
      modifies this
      ensures View() == RescueAll(cfg, old(View()), picks).0
    {
      hide StartBoot, RescueOne;
      var off := set sid | sid in servers && servers[sid].phase == Off;
      ghost var s0 := View();
      var reserved: map<int, int> := map[];
      var i := 0;
      while i < |picks|
        invariant 0 <= i <= |picks| && s0.servers.Keys == cfg.servers.Keys
        invariant View() == RescueAll(cfg, s0, picks[..i]).0 && reserved == RescueAll(cfg, s0, picks[..i]).1
        invariant forall sid :: sid in off <==> sid in s0.servers && s0.servers[sid].phase == Off
      {
        assert picks[..i + 1][..i] == picks[..i];
        reserved := RescueService(s0, off, reserved, picks[i]);
        i := i + 1;
      }
      assert picks[..|picks|] == picks;
    }

    /** Entrusts one service to the picked server, if that was off and has room left. */
    method RescueService(ghost s0: State, off: set<int>, reserved: map<int, int>, pick: MigrationStep)
      returns (reserving: map<int, int>)
      requires s0.servers.Keys == cfg.servers.Keys == servers.Keys && pick.service in cfg.services
      requires forall sid :: sid in off <==> sid in s0.servers && s0.servers[sid].phase == Off
      modifies this
      ensures (View(), reserving) == RescueOne(cfg, s0, old(View()), reserved, pick)
    {
      hide StartBoot;
      reserving := reserved;
      var raw := cfg.services[pick.service].resource;
      if pick.service !in rescue && pick.target in off
         && cfg.servers[pick.target].capacity - Reserved(reserved, pick.target) >= raw {
        reserving := reserved[pick.target := Reserved(reserved, pick.target) + raw];
        rescue := rescue[pick.service := pick.target];
        StartServerBoot(pick.target, true);
      }
    }

    /** The joint reservation check over the algorithm's steps. */
    method KeepValidSteps(steps: seq<MigrationStep>) returns (kept: seq<MigrationStep>)
      requires Valid() && StepsInBounds(cfg, View(), steps)
      ensures kept == KeepSteps(cfg, View(), steps).0
    {
      kept := [];
      var reserved: map<int, int> := map[];
      var i := 0;
      while i < |steps|
        invariant 0 <= i <= |steps|
        invariant (kept, reserved) == KeepSteps(cfg, View(), steps[..i])
      {
        assert steps[..i + 1][..i] == steps[..i];
        var step := steps[i];
        var raw := cfg.services[step.service].resource;
        var used := UsedCpu(step.target);
        if cfg.servers[step.target].capacity - used - Reserved(reserved, step.target) >= raw {
          reserved := reserved[step.target := Reserved(reserved, step.target) + raw];
          kept := kept + [step];
        }
        i := i + 1;
      }
      assert steps[..|steps|] == steps;
    }

    /** The services whose only copy not terminated is on this host. */
    method SoleHostedServices(sid: int) returns (sole: set<int>)
      requires Valid() && sid in servers
      ensures sole == SoleHosted(View(), sid)
    {
      assert forall x :: x in servers ==> HostLinked(cfg, servers[x].hosted, |objects|);
      sole := set v | v in servers[sid].hosted && objects[servers[sid].hosted[v]].phase != Terminated
                      && !(exists other :: other in servers && other != sid && v in servers[other].hosted
                                           && objects[servers[other].hosted[v]].phase != Terminated);
      SoleIsSole(cfg, View(), sid, sole);
    }

    /** `_start_server_drain`; the answer is whether the drain began. */
    method StartServerDrain(sid: int, plan: DrainPlan) returns (begun: bool)
      requires Valid() && sid in servers && PlanInBounds(cfg, View(), plan)
      modifies this
      ensures (View(), begun) == StartDrain(cfg, old(View()), sid, plan)
    {
      hide KeepSteps, SoleHosted, MigrateAll, RetireAll, RescueAll, Linked, GoodConfig, PlanInBounds, ServicesOf;
      ghost var s0 := View();
      if servers[sid].phase != Active {
        return false;
      }
      BoundsOf(cfg, s0, plan);
      var steps := KeepValidSteps(plan.steps);
      var migrated := ServicesOf(steps);
      var sole := SoleHostedServices(sid);
      if sole - migrated != {} {
        TriggerEmergencyBoot(plan.picks);
        return false;
      }
      servers := servers[sid := servers[sid].(phase := Draining, lastTransition := now)];
      assert View() == MarkDraining(cfg, s0, sid);
      Migrate(sid, steps);
      assert View() == Moved(cfg, s0, sid, steps);
      RetireOthers(sid, plan.order, migrated);
      MigrateAllEvents(cfg, MarkDraining(cfg, s0, sid), sid, steps);
      Push(now + cfg.delays.grace, DrainDone(sid));
      begun := true;
    }

    /** Places the migrations and records them as pending. */
    method Migrate(sid: int, steps: seq<MigrationStep>)
      requires Valid() && sid in servers && StepsInBounds(cfg, View(), steps)
      modifies this
      ensures Valid() && View() == MigrateAll(cfg, old(View()), sid, steps)
    {
      hide Place, Linked, GoodConfig, InStore;
      ghost var s0 := View();
      var i := 0;
      while i < |steps|
        invariant 0 <= i <= |steps| && Valid()
        invariant View() == MigrateAll(cfg, s0, sid, steps[..i])
      {
        MigrateNext(cfg, s0, sid, steps, i);
        var placed := PlaceReplica(steps[i].target, steps[i].service);
        if placed != None {
          pending := pending[Slot(steps[i].target, steps[i].service) := sid];
        }
        i := i + 1;
      }
      assert steps[..|steps|] == steps;
    }

    /** Tells the replicas that are not migrated to leave. */
    method RetireOthers(sid: int, order: seq<int>, migrated: set<int>)
      requires InStore(View(), sid)
      modifies this
      ensures View() == RetireAll(cfg, old(View()), sid, order, migrated)
    {
      var i := 0;
      while i < |order|
        invariant 0 <= i <= |order|
        invariant View() == RetireAll(cfg, old(View()), sid, order[..i], migrated)
      {
        assert order[..i + 1][..i] == order[..i];
        var v := order[i];
        if v !in migrated && v in servers[sid].hosted {
          StartReplicaDrain(servers[sid].hosted[v]);
        }
        i := i + 1;
      }
      assert order[..|order|] == order;
    }

    // ----------------------------------------------------------------
    // The decision tick
    // ----------------------------------------------------------------

    method CountActive() returns (n: nat)
      ensures n == |ActiveServers(View())|
    {
      var active := set sid | sid in servers && servers[sid].phase == Active;
      assert active == ActiveServers(View());
      n := |active|;
    }

    method ApplyProvisioning(action: Provision)
      requires Valid() && (action.TurnOff? ==> PlanInBounds(cfg, View(), action.plan))
      modifies this
      ensures View() == ApplyProvision(cfg, old(View()), action)
    {
      match action
      case NoProvision =>
      case TurnOn(sid) =>
        if sid in servers && servers[sid].phase == Off && now - servers[sid].lastTransition >= cfg.delays.cooldown {
          StartServerBoot(sid, false);
        }
      case TurnOff(sid, plan) =>
        var active := CountActive();
        if sid in servers && servers[sid].phase == Active && active > 1
           && now - servers[sid].lastTransition >= cfg.delays.cooldown
           && (servers[sid].emergency || now - servers[sid].lastTransition >= cfg.delays.minActive) {
          var begun := StartServerDrain(sid, plan);
        }
    }

    method ApplyScaleDecision(decision: Scaling)
      requires Valid()
      modifies this
      ensures View() == ApplyScaling(cfg, old(View()), decision)
    {
      hide Place, Retire, GoodConfig;
      match decision
      case NoScaling =>
      case ScaleUp(svc, target) =>
        if svc in cfg.services && now - lastScale[svc] >= cfg.delays.cooldown
           && target.Some? && target.value in servers && servers[target.value].phase == Active {
          PlaceKeepsScales(cfg, View(), target.value, svc);
          var placed := PlaceReplica(target.value, svc);
          if placed != None {
            lastScale := lastScale[svc := now];
          }
        }
      case ScaleDown(svc, victim) =>
        if svc in cfg.services && now - lastScale[svc] >= cfg.delays.cooldown {
          var ready := set o | o in byService[svc] && o < |objects| && objects[o].phase == Ready;
          assert ready == ReadyOf(View(), svc);
          if |ready| > 1 && victim in ready && now - objects[victim].createdAt >= cfg.delays.minAge {
            StartReplicaDrain(victim);
            lastScale := lastScale[svc := now];
          }
        }
    }

    method ApplyScaleDecisions(decisions: seq<Scaling>)
      requires Valid()
      modifies this
      ensures Valid() && View() == ScaleAll(cfg, old(View()), decisions)
    {
      hide ApplyScaling, GoodConfig, Linked;
      ghost var s1 := View();
      var i := 0;
      while i < |decisions|
        invariant 0 <= i <= |decisions| && Valid()
        invariant View() == ScaleAll(cfg, s1, decisions[..i])
      {
        assert decisions[..i + 1][..i] == decisions[..i];
        ApplyScaleDecision(decisions[i]);
        i := i + 1;
      }
      assert decisions[..|decisions|] == decisions;
    }

    method HandleDecisionTick(choice: Choice)
      requires Valid() && ChoiceLinked(cfg, View(), choice)
      modifies this
      ensures View() == HandleTick(cfg, old(View()), choice)
    {
      hide ApplyProvision, ScaleAll, GoodConfig, PlanInBounds, Linked, ChoiceLinked;
      ghost var s0 := View();
      TickPlan(cfg, s0, choice);
      ticks := ticks + 1;
      ApplyProvisioning(choice.provision);
      ApplyScaleDecisions(choice.scaling);
      ghost var s2 := View();
      assert HandleTick(cfg, s0, choice) == ResetWindow(s2);
      servers := map sid | sid in servers :: servers[sid].(busyAtWindow := servers[sid].busy);
      windowStart := now;
      assert servers == ResetWindow(s2).servers;
    }

    // ----------------------------------------------------------------
    // Energy
    // ----------------------------------------------------------------

    /** `instantaneous_utilization`, before division by the capacity. */
    method BusyCpu(sid: int, t: real) returns (cpu: int)
      requires Valid() && sid in servers
      ensures InStore(View(), sid) && cpu == CpuSum(cfg, sid, BusyServices(View(), sid, t))
    {
      assert HostLinked(cfg, servers[sid].hosted, |objects|);
      var busy := set v | v in servers[sid].hosted && objects[servers[sid].hosted[v]].phase in {Ready, Leaving}
                          && Occupancy(objects[servers[sid].hosted[v]].queue, t) != 0;
      forall v ensures v in busy <==> v in BusyServices(View(), sid, t) {
      }
      assert busy == BusyServices(View(), sid, t);
      cpu := ReservedBy(sid, busy);
    }

    /** What one server's meters read at time t. */
    method ReadServer(sid: int, t: real) returns (s: Server)
      requires Valid() && sid in servers
      ensures InStore(View(), sid) && s == Metered(cfg, View(), sid, t)
    {
      assert HostLinked(cfg, servers[sid].hosted, |objects|);
      hide Working, CpuSum, PowerAt, LoadAt, Fraction, ReadMeters;
      s := servers[sid];
      var spec := cfg.servers[sid];
      assert GoodServer(cfg, spec);
      var cpu := BusyCpu(sid, s.synced);
      var utilization := Fraction(cpu, spec.capacity);
      s := ReadMeters(s, PowerAt(spec, s.phase, utilization), LoadAt(utilization, spec.capacity), t);
    }

    method ReadServers(t: real) returns (metered: map<int, Server>)
      requires Valid()
      ensures metered.Keys == servers.Keys
      ensures forall sid :: sid in servers ==> sid in cfg.servers && InStore(View(), sid)
                                               && metered[sid] == Metered(cfg, View(), sid, t)
    {
      SameServers(cfg, View());
      hide Metered, GoodConfig, Linked;
      metered := map[];
      var rest := servers.Keys;
      while rest != {}
        invariant rest <= servers.Keys && metered.Keys == servers.Keys - rest
        invariant forall sid :: sid in metered ==> InStore(View(), sid) && metered[sid] == Metered(cfg, View(), sid, t)
        decreases |rest|
      {
        ghost var some := Pick(rest);
        var sid: int :| sid in rest;
        var s := ReadServer(sid, t);
        metered := metered[sid := s];
        rest := rest - {sid};
      }
    }

    method AdvanceEnergyTo(t: real)
      requires Valid()
      modifies this
      ensures Valid() && View() == Advance(cfg, old(View()), t)
    {
      hide Metered, GoodConfig;
      var metered := ReadServers(t);
      assert metered == Advance(cfg, View(), t).servers;
      servers := metered;
      now := t;
    }

    // ----------------------------------------------------------------
    // The run loop
    // ----------------------------------------------------------------

    /** Pops the earliest event, ties in order of their sequence numbers. */
    method PopEarliest() returns (k: nat, ev: Event)
      requires heap != map[]
      modifies this
      ensures IsMin(old(heap), k) && ev == old(heap)[k]
      ensures forall j :: j in old(heap) ==>
                ev.time < old(heap)[j].time || (ev.time == old(heap)[j].time && k <= j)
      ensures View() == Pop(old(View()), k)
    {
      assert heap.Keys != {};
      ghost var some := Pick(heap.Keys);
      k :| k in heap;
      var rest := heap.Keys - {k};
      while rest != {}
        invariant rest <= heap.Keys && k in heap && View() == old(View())
        invariant forall j :: j in heap && j !in rest ==> Before(heap, k, j)
        decreases |rest|
      {
        ghost var other := Pick(rest);
        var j: nat :| j in rest;
        if heap[j].time < heap[k].time || (heap[j].time == heap[k].time && j < k) {
          k := j;
        }
        rest := rest - {j};
      }
      ev := heap[k];
      heap := heap - {k};
    }

    /** The dispatch on the type of the event. */
    method Dispatch(kind: Kind, choice: Choice)
      requires Valid() && KindLinked(cfg, kind) && ChoiceLinked(cfg, View(), choice)
      modifies this
      ensures View() == Handle(cfg, old(View()), kind, choice)
    {
      hide EngineModel.HandleArrival, EngineModel.HandleRouted, EngineModel.HandleBootDone, EngineModel.HandleDrainDone,
        HandleReady, HandleGone, HandleTick, GoodConfig;
      assert forall sid :: sid in servers ==> InStore(View(), sid);
      match kind
      case Arrival(at, svc) => HandleArrival(at, svc);
      case Routed(req) => HandleRouted(req, choice.selected);
      case DecisionTick => DecisionTickEvent(choice);
      case BootDone(sid) => HandleBootDone(sid, choice.order);
      case DrainDone(sid) => HandleDrainDone(sid);
      case ReplicaReady(slot, _) => HandleReplicaReady(slot);
      case ReplicaGone(slot, _) =>
        assert HostLinked(cfg, servers[slot.server].hosted, |objects|);
        HandleReplicaTerminated(slot);
      case EnergyResync =>
    }

    method DecisionTickEvent(choice: Choice)
      requires Valid() && ChoiceLinked(cfg, View(), choice)
      modifies this
      ensures View() == Handle(cfg, old(View()), DecisionTick, choice)
    {
      hide HandleTick, GoodConfig, Linked;
      ghost var s0 := View();
      HandleDecisionTick(choice);
      TickKeepsNow(cfg, s0, choice);
      Push(now + cfg.delays.interval, DecisionTick);
    }

    /** One iteration of the run loop: stops beyond the cutoff, else handles the
        event with what the algorithm answers at this point of the run. */
    method Step(decide: (nat, State, Kind) -> Choice, steps: nat) returns (k: nat, choice: Choice, done: bool)
      requires Valid() && heap != map[]
      requires forall j :: j in heap ==> KindLinked(cfg, heap[j].kind)
      requires Decides(cfg, decide)
      modifies this
      ensures IsMin(old(heap), k) && done == (old(cutoff) < old(heap)[k].time)
      ensures done ==> View() == Pop(old(View()), k)
      ensures !done ==> IsStep(cfg, old(View()), k, choice, View())
    {
      hide Handle, GoodConfig, Metered, Advance, ChoiceOk;
      ghost var s0 := View();
      var ev: Event;
      k, ev := PopEarliest();
      done := cutoff < ev.time;
      choice := Choice(None, [], NoProvision, []);
      if !done {
        AdvanceEnergyTo(ev.time);
        assert View() == Popped(cfg, s0, k);
        choice := decide(steps, View(), ev.kind);
        DecidesHere(cfg, decide, steps, View(), ev.kind);
        Dispatch(ev.kind, choice);
      }
    }

    /** The engine before `prime`. */
    constructor (config: Config)
      ensures cfg == config && View() == Blank(config, [])
    {
      cfg := config;
      now, lastSeq, heap, cutoff := 0.0, 0, map[], CutoffSlack(config);
      servers := map sid | sid in config.servers :: Server(Off, LONG_AGO, false, map[], 0, 0, 0.0, 0.0, 0.0, 0.0);
      objects, byService := [], map svc | svc in config.services :: [];
      pending, rescue, lastScale := map[], map[], map svc | svc in config.services :: LONG_AGO;
      windowStart, ticks, arrived, metrics, log := 0.0, 0, 0, Metrics(0, 0, 0, 0, 0, 0, 0, 0, 0), [];
    }

    /** `prime`: arrivals, clocks, initial placement, the first tick. */
    method Prime(rows: seq<Row>, selected: seq<int>, homes: seq<Slot>)
      requires View() == Blank(cfg, []) && GoodStart(cfg, rows, selected, homes)
      modifies this
      ensures View() == EngineModel.Prime(cfg, rows, selected, homes)
    {
      hide GoodConfig, BootAll, HomeAll, PushArrivals, HomesInBounds, Blank;
      StartClocks(rows);
      PushArrivalEvents(rows);
      BlankLinked(cfg, rows);
      PushArrivalsFrame(Blank(cfg, rows), rows);
      ghost var s1 := View();
      BootServers(selected);
      BootAllLinked(cfg, s1, selected);
      PlaceHomes(homes);
      Push(EarliestTime(rows), DecisionTick);
    }

    /** The clocks begin with the first arrival. */
    method StartClocks(rows: seq<Row>)
      requires View() == Blank(cfg, [])
      modifies this
      ensures View() == Blank(cfg, rows)
    {
      var start := EarliestTime(rows);
      now, windowStart := start, start;
      servers := map sid | sid in servers :: servers[sid].(synced := start);
      cutoff := LatestTime(rows) + CutoffSlack(cfg);
      assert servers == Blank(cfg, rows).servers;
    }

    method BootServers(selected: seq<int>)
      requires forall i :: 0 <= i < |selected| ==> selected[i] in servers
      modifies this
      ensures View() == BootAll(cfg, old(View()), selected)
    {
      hide StartBoot;
      ghost var s1 := View();
      var i := 0;
      while i < |selected|
        invariant 0 <= i <= |selected| && servers.Keys == s1.servers.Keys
        invariant View() == BootAll(cfg, s1, selected[..i])
      {
        assert selected[..i + 1][..i] == selected[..i];
        StartServerBoot(selected[i], false);
        assert BootAll(cfg, s1, selected[..i + 1]).servers.Keys == s1.servers.Keys;
        i := i + 1;
      }
      assert selected[..|selected|] == selected;
    }

    method PushArrivalEvents(rows: seq<Row>)
      modifies this
      ensures View() == PushArrivals(old(View()), rows)
    {
      ghost var s0 := View();
      var i := 0;
      while i < |rows|
        invariant 0 <= i <= |rows| && View() == PushArrivals(s0, rows[..i])
      {
        assert rows[..i + 1][..i] == rows[..i];
        Push(rows[i].time, Arrival(rows[i].at, rows[i].service));
        i := i + 1;
      }
      assert rows[..|rows|] == rows;
    }

    method PlaceHomes(homes: seq<Slot>)
      requires Valid() && HomesInBounds(cfg, homes)
      modifies this
      ensures Valid() && View() == HomeAll(cfg, old(View()), homes)
    {
      hide Place, GoodConfig, Linked;
      ghost var s0 := View();
      var i := 0;
      while i < |homes|
        invariant 0 <= i <= |homes| && Valid()
        invariant View() == HomeAll(cfg, s0, homes[..i])
      {
        assert homes[..i + 1][..i] == homes[..i];
        KnownServer(cfg, View(), homes, i);
        var placed := PlaceReplica(homes[i].server, homes[i].service);
        i := i + 1;
      }
      assert homes[..|homes|] == homes;
    }

    /** `run`: always terminates, and what it goes through is a history that ends
        with every remaining event beyond the cutoff. What the algorithm answers may
        differ from step to step, as with counters of its own. */
    method Run(rows: seq<Row>, selected: seq<int>, homes: seq<Slot>, decide: (nat, State, Kind) -> Choice)
      returns (ghost states: seq<State>, ghost moves: seq<Move>, ghost last: nat)
      requires View() == Blank(cfg, []) && GoodStart(cfg, rows, selected, homes) && Decides(cfg, decide)
      modifies this
      ensures IsHistory(cfg, rows, selected, homes, states, moves)
      ensures IsFinal(states[|states| - 1])
      ensures View() == Pop(states[|states| - 1], last)
    {
      hide EngineModel.Prime, GoodStart, IsStep, Core, CoverOk, SlotsOk, MeasureOf, Decides, EngineModel.Pop,
        GoodConfig;
      GoodStartConfig(cfg, rows, selected, homes);
      Prime(rows, selected, homes);
      PrimeEstablishes(cfg, rows, selected, homes);
      ghost var tau := EarliestTime(rows);
      states, moves, last := [View()], [], 0;
      GoodPeriods(cfg);
      PrimeSlots(cfg, View(), tau);
      var done, steps := false, 0;
      while !done
        invariant |states| == |moves| + 1 == steps + 1
        invariant states[0] == EngineModel.Prime(cfg, rows, selected, homes)
        invariant forall i :: 0 <= i < |moves| ==>
                    IsStep(cfg, states[i], moves[i].event, moves[i].choice, states[i + 1])
        invariant !done ==> SlotsOk(View()) && View() == states[|states| - 1]
        invariant !done ==> Core(cfg, View(), tau, {}) && CoverOk(View())
        invariant done ==> IsFinal(states[|states| - 1]) && View() == Pop(states[|states| - 1], last)
        decreases !done, if done then 0 else MeasureOf(cfg, View(), tau).ticks,
                  if done then 0 else MeasureOf(cfg, View(), tau).boots,
                  if done then 0 else MeasureOf(cfg, View(), tau).weight
      {
        ghost var s := View();
        ReadyToStep(cfg, s, tau);
        var k, choice, stop := Step(decide, steps);
        done := stop;
        if !stop {
          StepKeeps(cfg, s, tau, k, choice, View());
          StepDecreases(cfg, s, tau, k, choice, View());
          tau := NextTick(cfg, tau, s.heap[k].kind);
          states, moves, steps := states + [View()], moves + [Move(k, choice)], steps + 1;
          PrimeSlots(cfg, View(), tau);
        } else {
          AllBeyond(s, k);
          last := k;
        }
      }
    }
  }

  /** The algorithm answers within its contract, after any number of steps, in
      every state and for every event. */
  ghost predicate Decides(cfg: Config, decide: (nat, State, Kind) -> Choice)
    requires GoodConfig(cfg)
  {
    forall steps: nat, s: State, kind: Kind :: Linked(cfg, s) && KindLinked(cfg, kind) ==>
                                                 ChoiceOk(cfg, s, kind, decide(steps, s, kind))
  }

  // ------------------------------------------------------------------
  // An algorithm that meets the contract
  // ------------------------------------------------------------------

  /** The first READY replica of a list with room. */
  function FirstWithRoom(s: State, list: seq<nat>): (o: Option<nat>)
    ensures match o
            case Some(x) => x in list && x < |s.objects| && s.objects[x].phase == Ready && HasRoom(s, x)
            case None => forall x: nat :: x in list && x < |s.objects| && s.objects[x].phase == Ready ==> !HasRoom(s, x)
  {
    if list == [] then None
    else
      assert forall x :: x in list <==> x == list[0] || x in list[1..];
      if list[0] < |s.objects| && s.objects[list[0]].phase == Ready
         && Occupancy(s.objects[list[0]].queue, s.now) < s.objects[list[0]].queue.capacity
      then Some(list[0])
      else FirstWithRoom(s, list[1..])
  }

  lemma {:induction false} SomeIsLeast(members: set<int>)
    requires members != {}
    ensures exists x :: x in members && forall y :: y in members ==> x <= y
  {
    var x := Pick(members);
    var rest := members - {x};
    var least := x;
    if rest != {} {
      SomeIsLeast(rest);
      var m :| m in rest && forall y :: y in rest ==> m <= y;
      least := if x < m then x else m;
    }
    forall y | y in members ensures least <= y {
      assert y == x || y in rest;
    }
    assert least in members;
  }

  /** The members of a set in ascending order. */
  function Listed(members: set<int>): (order: seq<int>)
    ensures Enumerates(order, members)
  {
    if members == {} then []
    else
      SomeIsLeast(members);
      var x :| x in members && forall y :: y in members ==> x <= y;
      [x] + Listed(members - {x})
  }

  /** Never provisions or scales, and routes to the first READY replica with room. */
  function Modest(steps: nat, s: State, kind: Kind): Choice {
    var silent := Choice(None, [], NoProvision, []);
    match kind
    case Routed(req) =>
      if req.service in s.byService then silent.(selected := FirstWithRoom(s, s.byService[req.service])) else silent
    case BootDone(sid) =>
      if sid in s.servers then silent.(order := Listed(s.servers[sid].hosted.Keys)) else silent
    case _ => silent
  }

  /** There is an algorithm for `Run` with every configuration. */
  lemma ModestDecides(cfg: Config)
    requires GoodConfig(cfg)
    ensures Decides(cfg, Modest)
  {
    hide GoodConfig;
    forall steps: nat, s: State, kind: Kind | Linked(cfg, s) && KindLinked(cfg, kind)
      ensures ChoiceOk(cfg, s, kind, Modest(steps, s, kind))
    {
    }
  }

  lemma DecidesHere(cfg: Config, decide: (nat, State, Kind) -> Choice, steps: nat, s: State, kind: Kind)
    requires GoodConfig(cfg) && Decides(cfg, decide) && Linked(cfg, s) && KindLinked(cfg, kind)
    ensures ChoiceOk(cfg, s, kind, decide(steps, s, kind)) && ChoiceLinked(cfg, s, decide(steps, s, kind))
  {
  }

  lemma GoodStartConfig(cfg: Config, rows: seq<Row>, selected: seq<int>, homes: seq<Slot>)
    requires GoodStart(cfg, rows, selected, homes)
    ensures GoodConfig(cfg)
  {
  }

  lemma GoodPeriods(cfg: Config)
    requires GoodConfig(cfg)
    ensures cfg.delays.grace > 0.0 && cfg.delays.interval > 0.0
  {
  }

  lemma PrimeSlots(cfg: Config, s: State, tau: real)
    requires Core(cfg, s, tau, {})
    ensures SlotsOk(s)
  {
  }

  lemma KnownService(cfg: Config, s: State, svc: int)
    requires Linked(cfg, s) && svc in cfg.services
    ensures svc in s.byService
  {
  }

  /** The host with the new object in its slot, charged for it. */
  function HostWith(cfg: Config, sv: Server, svc: int, o: nat): Server {
    sv.(hosted := sv.hosted[svc := o], energy := sv.energy + cfg.podJoule)
  }

  function OneMoreCreate(m: Metrics): Metrics {
    m.(podCreates := m.podCreates + 1)
  }

  /** The fields a placement changes. */
  lemma CreateFields(cfg: Config, s: State, r: State, created: Replica, sid: int, svc: int)
    requires GoodConfig(cfg) && Linked(cfg, s) && sid in s.servers && sid in cfg.servers
    requires svc in cfg.services && svc in s.byService && created == FreshReplica(cfg, sid, svc, s.now)
    requires r == s.(objects := r.objects, servers := r.servers, byService := r.byService, metrics := r.metrics)
    requires r.objects == s.objects + [created]
    requires r.servers == s.servers[sid := HostWith(cfg, s.servers[sid], svc, |s.objects|)]
    requires r.byService == s.byService[svc := s.byService[svc] + [|s.objects|]]
    requires r.metrics == OneMoreCreate(s.metrics)
    ensures r == Create(cfg, s, sid, svc)
  {
    hide GoodConfig, Linked, FreshReplica;
  }

  lemma PlaceKeepsScales(cfg: Config, s: State, sid: int, svc: int)
    requires GoodConfig(cfg) && Linked(cfg, s) && sid in s.servers && svc in cfg.services
    ensures Place(cfg, s, sid, svc).0.now == s.now && Place(cfg, s, sid, svc).0.lastScale == s.lastScale
  {
    hide CanHost, FreshReplica, Linked;
  }

  lemma CreateAppends(cfg: Config, s: State, sid: int, svc: int)
    requires GoodConfig(cfg) && Linked(cfg, s) && sid in s.servers && svc in cfg.services
    ensures |Create(cfg, s, sid, svc).objects| == |s.objects| + 1
  {
  }

  lemma SameServers(cfg: Config, s: State)
    requires Linked(cfg, s)
    ensures s.servers.Keys == cfg.servers.Keys
  {
  }

  /** Between steps there is an event, and every event can be dispatched. */
  lemma ReadyToStep(cfg: Config, s: State, tau: real)
    requires Core(cfg, s, tau, {})
    ensures GoodConfig(cfg) && Linked(cfg, s) && s.heap != map[]
    ensures forall j :: j in s.heap ==> KindLinked(cfg, s.heap[j].kind)
  {
    forall j | j in s.heap ensures KindLinked(cfg, s.heap[j].kind) {
      assert EventOk(cfg, s, tau, s.heap[j]);
    }
    assert HasEvent(s.heap, DecisionTick);
  }

  lemma AllBeyond(s: State, k: nat)
    requires IsMin(s.heap, k) && s.cutoff < s.heap[k].time
    ensures IsFinal(s)
  {
    forall j | j in s.heap ensures s.cutoff < s.heap[j].time {
      assert Before(s.heap, k, j);
    }
  }

  lemma CandidateInList(s: State, svc: int)
    requires svc in s.byService && ListLinked(s.byService[svc], |s.objects|)
    ensures (exists o :: Candidate(s, svc, o))
            <==> (exists i :: 0 <= i < |s.byService[svc]| && s.objects[s.byService[svc][i]].phase == Ready)
  {
    if i :| 0 <= i < |s.byService[svc]| && s.objects[s.byService[svc][i]].phase == Ready {
      assert Candidate(s, svc, s.byService[svc][i]);
    }
  }

  lemma MigrateNext(cfg: Config, s: State, sid: int, steps: seq<MigrationStep>, i: nat)
    requires GoodConfig(cfg) && Linked(cfg, s) && sid in s.servers && StepsInBounds(cfg, s, steps) && i < |steps|
    ensures var m := MigrateAll(cfg, s, sid, steps[..i]);
            && steps[i].target in m.servers && sid in m.servers && steps[i].service in cfg.services
            && MigrateAll(cfg, s, sid, steps[..i + 1]) == EngineModel.Migrate(cfg, m, sid, steps[i])
  {
    hide GoodConfig, Linked, Place;
    assert steps[..i + 1][..i] == steps[..i];
  }

  lemma TickPlan(cfg: Config, s: State, choice: Choice)
    requires Linked(cfg, s) && ChoiceLinked(cfg, s, choice)
    ensures Linked(cfg, s.(ticks := s.ticks + 1))
    ensures choice.provision.TurnOff? ==> PlanInBounds(cfg, s.(ticks := s.ticks + 1), choice.provision.plan)
  {
  }

  lemma BoundsOf(cfg: Config, s: State, plan: DrainPlan)
    requires Linked(cfg, s) && PlanInBounds(cfg, s, plan)
    ensures s.servers.Keys == cfg.servers.Keys && StepsInBounds(cfg, s, plan.steps)
    ensures forall i :: 0 <= i < |plan.picks| ==> plan.picks[i].service in cfg.services
  {
  }

  lemma SoleIsSole(cfg: Config, s: State, sid: int, sole: set<int>)
    requires Linked(cfg, s) && sid in s.servers
    requires forall x :: x in s.servers ==> HostLinked(cfg, s.servers[x].hosted, |s.objects|)
    requires forall v :: v in sole <==>
                           v in s.servers[sid].hosted && s.objects[At(s, sid, v)].phase != Terminated
                           && !(exists x :: x in s.servers && x != sid && v in s.servers[x].hosted
                                            && s.objects[s.servers[x].hosted[v]].phase != Terminated)
    ensures sole == SoleHosted(s, sid)
  {
    forall v | v in s.servers[sid].hosted
      ensures OnlyCopy(s, sid, v) <==> !(exists x :: x in s.servers && x != sid && v in s.servers[x].hosted
                                                     && s.objects[s.servers[x].hosted[v]].phase != Terminated)
    {
      assert forall x :: x in s.servers && v in s.servers[x].hosted ==> At(s, x, v) < |s.objects|;
    }
    forall v ensures v in sole <==> v in SoleHosted(s, sid) {
    }
  }
}
