/** Make-before-break: a service that has a READY replica keeps one. */
module EngineService {
  import opened Collections
  import opened Settings
  import opened ReplicaQueues
  import opened EngineModel
  import opened EngineInvariants
  import opened EngineClock
  import opened EngineBoot
  import opened EngineReady
  import opened EngineServers
  import opened EngineHandlers
  import opened EngineTick
  import opened EngineDrain
  import opened EngineRuns
  import opened EnginePrime
  import opened EngineLedger
  import opened EngineLifecycle

  /** Server x hosts a READY replica of service v. */
  ghost predicate ReadyAt(s: State, x: int, v: int) {
    InSlot(s, x, v) && At(s, x, v) < |s.objects| && s.objects[At(s, x, v)].phase == Ready
  }

  ghost predicate HasReady(s: State, v: int) {
    exists x :: ReadyAt(s, x, v)
  }

  /** The READY replicas the engine sees in its index are the hosted ones. */
  lemma CandidatesAreHosted(s: State, v: int, o: nat)
    requires SlotsOk(s) && IndexOk(s)
    ensures Candidate(s, v, o) <==>
              o < |s.objects| && ReadyAt(s, s.objects[o].server, v) && At(s, s.objects[o].server, v) == o
  {
    if Candidate(s, v, o) {
      assert ListedOk(s, v, o);
    }
    if o < |s.objects| && ReadyAt(s, s.objects[o].server, v) && At(s, s.objects[o].server, v) == o {
      assert InSlot(s, s.objects[o].server, v);
    }
  }

  // ------------------------------------------------------------------
  // Between ticks
  // ------------------------------------------------------------------

  /** The handled event completes a migration of v away from x. */
  predicate CompletesMigration(p: State, kind: Kind, x: int, v: int) {
    && kind.ReplicaReady? && kind.slot.service == v
    && kind.slot in p.pending && p.pending[kind.slot] == x
  }

  /** A READY replica stays READY where it is, or the very event that ends its
      service makes the replica that takes over READY. */
  ghost predicate Handover(p: State, r: State, kind: Kind, x: int, v: int) {
    ReadyAt(p, x, v) ==>
      || (ReadyAt(r, x, v) && At(r, x, v) == At(p, x, v))
      || (CompletesMigration(p, kind, x, v) && ReadyAt(r, kind.slot.server, v))
  }

  lemma QueueHandover(p: State, r: State, kind: Kind, x: int, v: int)
    requires RoutedChange(p, r)
    ensures Handover(p, r, kind, x, v)
  {
  }

  lemma BootHandover(cfg: Config, p: State, sid: int, order: seq<int>, kind: Kind, x: int, v: int)
    requires InStore(p, sid)
    ensures Handover(p, HandleBootDone(cfg, p, sid, order), kind, x, v)
  {
    BootDoneShape(cfg, p, sid, order);
  }

  lemma DrainHandover(cfg: Config, p: State, sid: int, kind: Kind, x: int, v: int)
    requires InStore(p, sid)
    ensures Handover(p, HandleDrainDone(cfg, p, sid), kind, x, v)
  {
    if ReadyAt(p, x, v) && x == sid {
      assert p.objects[p.servers[sid].hosted[v]].phase == Ready;
      assert !AllTerminated(p, sid);
    }
  }

  lemma GoneHandover(cfg: Config, p: State, tau: real, slot: Slot, o: nat, x: int, v: int)
    requires Linked(cfg, p) && SlotsOk(p) && slot.server in p.servers && slot.service in p.byService
    requires WasLegitimate(cfg, p, tau, ReplicaGone(slot, o))
    ensures Handover(p, HandleGone(p, slot), ReplicaGone(slot, o), x, v)
  {
    if ReadyAt(p, x, v) && InSlot(p, slot.server, slot.service) {
      assert SlotOk(p, x, v) && SlotOk(p, slot.server, slot.service);
    }
  }

  lemma ReadyHandover(cfg: Config, p: State, tau: real, slot: Slot, o: nat, x: int, v: int)
    requires Linked(cfg, p) && SlotsOk(p) && PhasesOk(p) && forall sid :: sid in p.servers ==> InStore(p, sid)
    requires slot.server in p.servers && WasLegitimate(cfg, p, tau, ReplicaReady(slot, o))
    ensures Handover(p, HandleReady(cfg, p, slot), ReplicaReady(slot, o), x, v)
    ensures ReadyAt(HandleReady(cfg, p, slot), slot.server, slot.service)
  {
    hide PhasesOk, Linked, EventOk;
    assert ReadyIsDue(cfg, p, slot, o) by {
      LegitimateReadyIsDue(cfg, p, tau, slot, o);
    }
    HandleReadyShape(cfg, p, slot, o);
    OnlySlotOf(p, slot, o);
    var m := MarkReady(p, slot, o);
    var r := HandleReady(cfg, p, slot);
    assert ReadyAt(m, slot.server, slot.service);
    if ReadyAt(p, x, v) {
      assert SlotOk(p, x, v) && At(p, x, v) != o;
      if SourceStillReady(p, slot) {
        assert SlotOk(p, p.pending[slot], slot.service);
      }
    }
  }

  lemma LegitimateReadyIsDue(cfg: Config, p: State, tau: real, slot: Slot, o: nat)
    requires WasLegitimate(cfg, p, tau, ReplicaReady(slot, o))
    ensures ReadyIsDue(cfg, p, slot, o)
  {
  }

  /** Handovers between ticks. */
  lemma HandleHandover(cfg: Config, p: State, tau: real, kind: Kind, choice: Choice, x: int, v: int)
    requires GoodConfig(cfg) && Linked(cfg, p) && SlotsOk(p) && PhasesOk(p)
    requires WasLegitimate(cfg, p, tau, kind) && KindLinked(cfg, kind) && ChoiceLinked(cfg, p, choice)
    requires !kind.DecisionTick?
    ensures Handover(p, Handle(cfg, p, kind, choice), kind, x, v)
  {
    hide HandleRouted, WasLegitimate, SlotsOk, PhasesOk, RoutingDelay, HandleReady, Handover, CompletesMigration;
    assert forall sid :: sid in p.servers ==> InStore(p, sid);
    match kind
    case Arrival(at, svc) => SameReady(p, HandleArrival(cfg, p, at, svc), kind, x, v);
    case Routed(req) =>
      RoutedIsChange(cfg, p, req, choice.selected);
      QueueHandover(p, HandleRouted(cfg, p, req, choice.selected), kind, x, v);
    case BootDone(sid) => BootHandover(cfg, p, sid, choice.order, kind, x, v);
    case DrainDone(sid) => DrainHandover(cfg, p, sid, kind, x, v);
    case ReplicaReady(slot, o) => ReadyHandover(cfg, p, tau, slot, o, x, v);
    case ReplicaGone(slot, o) => GoneHandover(cfg, p, tau, slot, o, x, v);
    case EnergyResync => SameReady(p, p, kind, x, v);
  }

  lemma SameReady(p: State, r: State, kind: Kind, x: int, v: int)
    requires r.servers == p.servers && r.objects == p.objects
    ensures Handover(p, r, kind, x, v)
  {
  }

  /** One step between ticks: no service loses its last READY replica, and a
      source of a migration serves until a replica that takes over is READY. */
  lemma StepHandover(cfg: Config, s: State, tau: real, k: nat, choice: Choice, r: State, x: int, v: int)
    requires Core(cfg, s, tau, {}) && CoverOk(s) && IsStep(cfg, s, k, choice, r) && k in s.heap
    requires !s.heap[k].kind.DecisionTick?
    ensures Handover(s, r, s.heap[k].kind, x, v)
  {
    hide Core, CoverOk, IsStep, WasLegitimate, Handle, Popped, GoodConfig, Linked, ChoiceLinked, KindLinked, IsMin,
      SlotsOk, PhasesOk, QueuesOk, MetersOk, Handover;
    StepParts(cfg, s, k, choice, r);
    PoppedKeeps(cfg, s, tau, k);
    CoreParts(cfg, Popped(cfg, s, k), tau, {s.heap[k].kind});
    HandleHandover(cfg, Popped(cfg, s, k), tau, s.heap[k].kind, choice, x, v);
    PoppedHandover(cfg, s, k, r, x, v);
  }

  lemma PoppedReady(cfg: Config, s: State, k: nat, x: int, v: int)
    requires GoodConfig(cfg) && Linked(cfg, s) && k in s.heap
    ensures ReadyAt(Popped(cfg, s, k), x, v) <==> ReadyAt(s, x, v)
    ensures ReadyAt(s, x, v) ==> At(Popped(cfg, s, k), x, v) == At(s, x, v)
    ensures Popped(cfg, s, k).pending == s.pending
  {
    hide Metered, GoodConfig, Linked;
  }

  lemma PoppedHandover(cfg: Config, s: State, k: nat, r: State, x: int, v: int)
    requires GoodConfig(cfg) && Linked(cfg, s) && k in s.heap
    requires Handover(Popped(cfg, s, k), r, s.heap[k].kind, x, v)
    ensures Handover(s, r, s.heap[k].kind, x, v)
  {
    hide Popped, GoodConfig, Linked;
    PoppedReady(cfg, s, k, x, v);
  }

  lemma StepKeepsReady(cfg: Config, s: State, tau: real, k: nat, choice: Choice, r: State, v: int)
    requires Core(cfg, s, tau, {}) && CoverOk(s) && IsStep(cfg, s, k, choice, r) && k in s.heap
    requires !s.heap[k].kind.DecisionTick? && HasReady(s, v)
    ensures HasReady(r, v)
  {
    hide Core, CoverOk, IsStep, ReadyAt;
    var x :| ReadyAt(s, x, v);
    StepHandover(cfg, s, tau, k, choice, r, x, v);
  }

  // ------------------------------------------------------------------
  // At a tick
  // ------------------------------------------------------------------

  ghost predicate SameReadiness(s: State, r: State) {
    forall x, v :: ReadyAt(r, x, v) <==> ReadyAt(s, x, v)
  }

  lemma UnmovedIsSame(s: State, r: State)
    requires r.objects == s.objects && r.servers.Keys == s.servers.Keys
    requires forall x :: x in s.servers ==> r.servers[x].hosted == s.servers[x].hosted
    ensures SameReadiness(s, r)
  {
    forall x, v ensures ReadyAt(r, x, v) <==> ReadyAt(s, x, v) {
      assert InSlot(r, x, v) <==> InSlot(s, x, v);
    }
  }

  lemma {:induction false} RescueUnmoved(cfg: Config, s: State, picks: seq<MigrationStep>)
    requires s.servers.Keys == cfg.servers.Keys
    requires forall i :: 0 <= i < |picks| ==> picks[i].service in cfg.services
    ensures var r := RescueAll(cfg, s, picks).0;
            r.objects == s.objects && forall x :: x in s.servers ==> r.servers[x].hosted == s.servers[x].hosted
    decreases |picks|
  {
    if picks != [] {
      RescueUnmoved(cfg, s, picks[..|picks| - 1]);
    }
  }

  /** What remains READY on a drained host are the replicas being migrated. */
  ghost predicate AfterDrain(s: State, r: State, d: int, migrated: set<int>) {
    forall x, v :: ReadyAt(r, x, v) <==> ReadyAt(s, x, v) && (x != d || v in migrated)
  }

  lemma EmptiedReadiness(cfg: Config, s: State, e: State, d: int, plan: DrainPlan)
    requires GoodConfig(cfg) && Linked(cfg, s) && SlotsOk(s) && d in s.servers && PlanInBounds(cfg, s, plan)
    requires PlanOk(cfg, s, d, plan) && Drained(cfg, s, e, d, plan)
    ensures AfterDrain(s, e, d, ServicesOf(KeepSteps(cfg, s, plan.steps).0))
  {
    hide KeepSteps, StepsOk, GoodConfig, Moved;
    var steps := KeepSteps(cfg, s, plan.steps).0;
    var m := Moved(cfg, s, d, steps);
    MovedReadiness(cfg, s, m, d, steps);
    forall x, v ensures ReadyAt(e, x, v) <==> ReadyAt(s, x, v) && (x != d || v in ServicesOf(steps)) {
      RetiredReadiness(cfg, s, m, e, d, steps, plan.order, x, v);
    }
  }

  /** Placing migrations makes nothing READY and moves nothing that was. */
  lemma MovedReadiness(cfg: Config, s: State, m: State, d: int, steps: seq<MigrationStep>)
    requires GoodConfig(cfg) && Linked(cfg, s) && SlotsOk(s) && d in s.servers
    requires MovedFrom(cfg, MarkDraining(cfg, s, d), m, d, steps)
    ensures SameReadiness(s, m)
    ensures forall x, v :: ReadyAt(s, x, v) ==> At(m, x, v) == At(s, x, v)
    ensures |s.objects| <= |m.objects| && forall o :: 0 <= o < |s.objects| ==> m.objects[o] == s.objects[o]
    ensures forall x, v :: InSlot(s, x, v) ==> InSlot(m, x, v) && At(m, x, v) == At(s, x, v)
    ensures forall x, v :: InSlot(m, x, v) && !InSlot(s, x, v) ==> At(m, x, v) >= |s.objects|
  {
    hide GoodConfig, Linked, UsedCpu, RawOn, MigratesTo, Targeted;
    var k := MarkDraining(cfg, s, d);
    forall x, v
      ensures InSlot(k, x, v) <==> InSlot(s, x, v)
      ensures InSlot(s, x, v) ==> At(k, x, v) == At(s, x, v)
    {
    }
    forall x, v ensures ReadyAt(m, x, v) <==> ReadyAt(s, x, v) {
      if InSlot(s, x, v) {
        assert SlotOk(s, x, v) && InSlot(k, x, v);
      } else if InSlot(m, x, v) {
        assert At(m, x, v) >= |k.objects|;
      }
    }
    forall x, v | InSlot(s, x, v) ensures InSlot(m, x, v) && At(m, x, v) == At(s, x, v) {
      assert InSlot(k, x, v);
    }
    forall x, v | InSlot(m, x, v) && !InSlot(s, x, v) ensures At(m, x, v) >= |s.objects| {
      assert !InSlot(k, x, v);
    }
  }

  lemma RetiredReadiness(cfg: Config, s: State, m: State, e: State, d: int, steps: seq<MigrationStep>,
                         order: seq<int>, x: int, v: int)
    requires SlotsOk(s) && SameReadiness(s, m) && Retired(m, e, d, order, ServicesOf(steps))
    requires forall y, w :: ReadyAt(s, y, w) ==> At(m, y, w) == At(s, y, w)
    requires |s.objects| <= |m.objects| && forall o :: 0 <= o < |s.objects| ==> m.objects[o] == s.objects[o]
    requires forall y, w :: InSlot(s, y, w) ==> InSlot(m, y, w) && At(m, y, w) == At(s, y, w)
    requires forall y, w :: InSlot(m, y, w) && !InSlot(s, y, w) ==> At(m, y, w) >= |s.objects|
    requires d in s.servers && forall w :: w in s.servers[d].hosted ==> w in order
    ensures ReadyAt(e, x, v) <==> ReadyAt(s, x, v) && (x != d || v in ServicesOf(steps))
  {
    hide SameReadiness, ServicesOf;
    assert ReadyAt(m, x, v) <==> ReadyAt(s, x, v) by {
      SameReadinessAt(s, m, x, v);
    }
    assert InSlot(e, x, v) <==> InSlot(m, x, v);
    if ReadyAt(s, x, v) {
      var o := At(s, x, v);
      assert SlotOk(s, x, v) && At(e, x, v) == o;
      forall w | InSlot(m, d, w) && At(m, d, w) == o ensures w == v && x == d {
        assert InSlot(s, d, w) && SlotOk(s, d, w);
      }
      if x == d && v !in ServicesOf(steps) {
        assert v in order && InSlot(m, d, v);
      } else {
        assert !IsLeftBehind(m, d, ServicesOf(steps), o);
      }
    } else if InSlot(m, x, v) && At(m, x, v) < |m.objects| {
      var o := At(m, x, v);
      assert m.objects[o].phase != Ready;
    }
  }

  lemma SameReadinessAt(s: State, r: State, x: int, v: int)
    requires SameReadiness(s, r)
    ensures ReadyAt(r, x, v) <==> ReadyAt(s, x, v)
  {
  }

  // ------------------------------------------------------------------
  // Scaling never takes the last READY replica
  // ------------------------------------------------------------------

  lemma ScalingReadiness(cfg: Config, s: State, decision: Scaling, v: int)
    requires GoodConfig(cfg) && Linked(cfg, s) && SlotsOk(s) && IndexOk(s)
    ensures HasReady(ApplyScaling(cfg, s, decision), v) <==> HasReady(s, v)
  {
    hide GoodConfig, Linked, IndexOk, SlotsOk, ReadyAt, CanHost;
    var r := ApplyScaling(cfg, s, decision);
    match decision
    case NoScaling =>
    case ScaleUp(svc, target) =>
      if svc in cfg.services && target.Some? && target.value in s.servers {
        PlaceReadiness(cfg, s, r, target.value, svc, v);
      }
    case ScaleDown(svc, victim) =>
      if r != s {
        DownReadiness(cfg, s, r, svc, victim, v);
      }
  }

  lemma PlaceReadiness(cfg: Config, s: State, r: State, sid: int, svc: int, v: int)
    requires GoodConfig(cfg) && Linked(cfg, s) && SlotsOk(s) && sid in s.servers && svc in cfg.services
    requires r == s || r == Place(cfg, s, sid, svc).0.(lastScale := r.lastScale)
    ensures HasReady(r, v) <==> HasReady(s, v)
  {
    hide GoodConfig, Linked, FreeCapacity, CpuOf;
    if r != s {
      forall x ensures ReadyAt(r, x, v) <==> ReadyAt(s, x, v) {
        if InSlot(s, x, v) {
          assert SlotOk(s, x, v);
        }
      }
    }
  }

  lemma DownReadiness(cfg: Config, s: State, r: State, svc: int, victim: nat, v: int)
    requires Linked(cfg, s) && SlotsOk(s) && IndexOk(s) && victim in ReadyOf(s, svc) && |ReadyOf(s, svc)| > 1
    requires r == Retire(cfg, s, victim).(lastScale := r.lastScale)
    ensures HasReady(r, v) <==> HasReady(s, v)
  {
    hide Linked, IndexOk;
    CandidatesAreHosted(s, svc, victim);
    forall x ensures ReadyAt(r, x, v) <==> ReadyAt(s, x, v) && At(s, x, v) != victim {
      if InSlot(s, x, v) {
        assert SlotOk(s, x, v);
      }
    }
    if HasReady(s, v) {
      var x :| ReadyAt(s, x, v);
      assert SlotOk(s, x, v);
      if At(s, x, v) == victim {
        var others := ReadyOf(s, svc) - {victim};
        assert |others| > 0;
        var o := Pick(others);
        CandidatesAreHosted(s, svc, o);
        assert ReadyAt(r, s.objects[o].server, v);
      } else {
        assert ReadyAt(r, x, v);
      }
    }
  }

  lemma {:induction false} ScaleAllReadiness(cfg: Config, s: State, tau: real, decisions: seq<Scaling>, v: int)
    requires Core(cfg, s, tau, {DecisionTick}) && CoverOk(s) && s.now + cfg.delays.startup < tau
    requires GoodConfig(cfg) && Linked(cfg, s)
    ensures HasReady(ScaleAll(cfg, s, decisions), v) <==> HasReady(s, v)
    decreases |decisions|
  {
    hide Core, CoverOk, HasReady, ApplyScaling, GoodConfig, Linked, SlotsOk, IndexOk;
    if decisions != [] {
      var n := |decisions| - 1;
      ScaleAllReadiness(cfg, s, tau, decisions[..n], v);
      ScaleAllKeeps(cfg, s, tau, decisions[..n]);
      CoreIndex(cfg, ScaleAll(cfg, s, decisions[..n]), tau);
      ScalingReadiness(cfg, ScaleAll(cfg, s, decisions[..n]), decisions[n], v);
    }
  }

  lemma CoreIndex(cfg: Config, s: State, tau: real)
    requires Core(cfg, s, tau, {DecisionTick})
    ensures SlotsOk(s) && IndexOk(s)
  {
  }

  // ------------------------------------------------------------------
  // The exact condition
  // ------------------------------------------------------------------

  /** The service is READY only on the server being drained, and that server is
      not its only host, so the drain does not migrate it. */
  ghost predicate Orphaned(cfg: Config, p: State, choice: Choice, v: int)
    requires GoodConfig(cfg) && Linked(cfg, TickStart(p))
    requires choice.provision.TurnOff? ==> PlanInBounds(cfg, TickStart(p), choice.provision.plan)
  {
    && Drains(cfg, TickStart(p), choice.provision)
    && v !in SoleHosted(TickStart(p), choice.provision.server)
    && forall x :: ReadyAt(p, x, v) ==> x == choice.provision.server
  }

  /** The services a drain migrates are exactly those hosted nowhere else. */
  lemma MigratedAreSole(cfg: Config, s: State, d: int, plan: DrainPlan)
    requires GoodConfig(cfg) && Linked(cfg, s) && d in s.servers && PlanInBounds(cfg, s, plan)
    requires PlanOk(cfg, s, d, plan) && Unmigrated(cfg, s, d, plan) == {}
    ensures ServicesOf(KeepSteps(cfg, s, plan.steps).0) == SoleHosted(s, d)
  {
    hide GoodConfig, Linked, KeepSteps, SoleHosted, CanHost, PlanInBounds;
    KeptStepsOk(cfg, s, d, plan);
    var steps := KeepSteps(cfg, s, plan.steps).0;
    forall v | v in ServicesOf(steps) ensures v in SoleHosted(s, d) {
      var i :| 0 <= i < |steps| && steps[i].service == v;
      assert StepOk(cfg, s, d, steps[i]);
    }
    forall v | v in SoleHosted(s, d) ensures v in ServicesOf(steps) {
      assert v !in Unmigrated(cfg, s, d, plan);
    }
  }

  lemma ProvisionReadiness(cfg: Config, p: State, tau: real, choice: Choice, v: int)
    requires Core(cfg, TickStart(p), tau, {DecisionTick}) && CoverOk(TickStart(p)) && Calm(TickStart(p))
    requires GoodConfig(cfg) && Linked(cfg, TickStart(p)) && ProvisionOk(cfg, TickStart(p), choice.provision)
    requires choice.provision.TurnOff? ==> PlanInBounds(cfg, TickStart(p), choice.provision.plan)
    requires p.now + cfg.delays.startup < tau && HasReady(p, v)
    ensures HasReady(ApplyProvision(cfg, TickStart(p), choice.provision), v) <==> !Orphaned(cfg, p, choice, v)
  {
    hide GoodConfig, Linked, Drained, KeepSteps, SoleHosted, Unmigrated, PlanInBounds, PlanOk, Core, CoverOk, Calm,
      AfterDrain, SlotsOk, ReadyAt;
    var s := TickStart(p);
    var r := ApplyProvision(cfg, s, choice.provision);
    UnmovedIsSame(p, s);
    assert HasReady(s, v) <==> HasReady(p, v);
    match choice.provision
    case NoProvision =>
    case TurnOn(sid) =>
      UnmovedIsSame(s, r);
    case TurnOff(d, plan) =>
      if Drains(cfg, s, choice.provision) {
        DrainKeeps(cfg, s, tau, d, plan);
        CoreIndex(cfg, s, tau);
        EmptiedReadiness(cfg, s, Emptied(cfg, s, d, plan), d, plan);
        UnmovedIsSame(Emptied(cfg, s, d, plan), r);
        MigratedAreSole(cfg, s, d, plan);
        DrainedReadiness(p, s, Emptied(cfg, s, d, plan), r, d, SoleHosted(s, d), v);
      } else if MayTurnOff(cfg, s, d) {
        PicksInBounds(cfg, s, plan);
        RescueUnmoved(cfg, s, plan.picks);
        UnmovedIsSame(s, r);
      }
  }

  lemma DrainedReadiness(p: State, s: State, e: State, r: State, d: int, sole: set<int>, v: int)
    requires SameReadiness(p, s) && AfterDrain(s, e, d, sole) && SameReadiness(e, r) && HasReady(p, v)
    ensures HasReady(r, v) <==> !(v !in sole && forall x :: ReadyAt(p, x, v) ==> x == d)
  {
    hide ReadyAt;
    if v in sole {
      var x :| ReadyAt(p, x, v);
      assert ReadyAt(s, x, v) && ReadyAt(e, x, v) && ReadyAt(r, x, v);
    } else if y :| ReadyAt(p, y, v) && y != d {
      assert ReadyAt(s, y, v) && ReadyAt(e, y, v) && ReadyAt(r, y, v);
    } else {
      forall x ensures !ReadyAt(r, x, v) {
        assert ReadyAt(r, x, v) ==> ReadyAt(e, x, v) && ReadyAt(s, x, v) && ReadyAt(p, x, v);
      }
    }
  }

  /** At a tick, whatever the decisions, a service that has a READY replica keeps
      one if and only if it is not orphaned by the drain. */
  lemma TickReadiness(cfg: Config, p: State, tau: real, choice: Choice, v: int)
    requires Core(cfg, p, tau, {DecisionTick}) && CoverOk(p) && p.now == tau && HasReady(p, v)
    requires GoodConfig(cfg) && Linked(cfg, p) && Linked(cfg, TickStart(p)) && ChoiceOk(cfg, p, DecisionTick, choice)
    requires choice.provision.TurnOff? ==> PlanInBounds(cfg, TickStart(p), choice.provision.plan)
    ensures HasReady(Handle(cfg, p, DecisionTick, choice), v) <==> !Orphaned(cfg, p, choice, v)
  {
    hide Linked, Core, CoverOk, Calm, HasReady, Orphaned, ApplyProvision, ScaleAll, PlanInBounds, ProvisionOk;
    var next := tau + cfg.delays.interval;
    var s0 := TickStart(p);
    RetimeKeeps(cfg, p, tau);
    ProvisionReadiness(cfg, p, next, choice, v);
    var s1 := ApplyProvision(cfg, s0, choice.provision);
    ApplyProvisionKeeps(cfg, s0, next, choice.provision);
    ApplyProvisionNow(cfg, s0, choice.provision);
    ScaleAllReadiness(cfg, s1, next, choice.scaling, v);
    WindowReadiness(cfg, ScaleAll(cfg, s1, choice.scaling), next, v);
  }

  lemma WindowReadiness(cfg: Config, s: State, next: real, v: int)
    ensures HasReady(Push(ResetWindow(s), next, DecisionTick), v) <==> HasReady(s, v)
  {
    UnmovedIsSame(s, Push(ResetWindow(s), next, DecisionTick));
  }

  /** Step k is a tick whose drain orphans the service. */
  ghost predicate OrphanedAt(cfg: Config, s: State, k: nat, choice: Choice, v: int) {
    && GoodConfig(cfg) && Linked(cfg, s) && k in s.heap && s.heap[k].kind.DecisionTick?
    && Linked(cfg, TickStart(Popped(cfg, s, k)))
    && (choice.provision.TurnOff? ==> PlanInBounds(cfg, TickStart(Popped(cfg, s, k)), choice.provision.plan))
    && Orphaned(cfg, Popped(cfg, s, k), choice, v)
  }

  /** Over any step, a service that has a READY replica keeps one if and only if
      the step does not orphan it. */
  lemma StepReadiness(cfg: Config, s: State, tau: real, k: nat, choice: Choice, r: State, v: int)
    requires Core(cfg, s, tau, {}) && CoverOk(s) && IsStep(cfg, s, k, choice, r) && HasReady(s, v)
    ensures HasReady(r, v) <==> !OrphanedAt(cfg, s, k, choice, v)
  {
    hide Core, CoverOk, IsStep, HasReady, WasLegitimate, Handle, Popped, GoodConfig, ChoiceLinked, KindLinked, IsMin,
      Orphaned, PlanInBounds, Linked;
    StepParts(cfg, s, k, choice, r);
    if s.heap[k].kind.DecisionTick? {
      var p := Popped(cfg, s, k);
      PoppedKeeps(cfg, s, tau, k);
      TickIsNow(cfg, p, tau);
      TickStartLinked(cfg, p);
      if choice.provision.TurnOff? {
        TickPlanInBounds(cfg, p, choice);
      }
      PoppedHasReady(cfg, s, k, v);
      StepChoice(cfg, s, k, choice, r);
      TickReadiness(cfg, p, tau, choice, v);
    } else {
      StepKeepsReady(cfg, s, tau, k, choice, r, v);
    }
  }

  lemma TickStartLinked(cfg: Config, p: State)
    requires Linked(cfg, p)
    ensures Linked(cfg, TickStart(p))
  {
  }

  lemma StepChoice(cfg: Config, s: State, k: nat, choice: Choice, r: State)
    requires IsStep(cfg, s, k, choice, r)
    ensures ChoiceOk(cfg, Popped(cfg, s, k), s.heap[k].kind, choice)
  {
  }

  lemma PoppedHasReady(cfg: Config, s: State, k: nat, v: int)
    requires GoodConfig(cfg) && Linked(cfg, s) && k in s.heap && HasReady(s, v)
    ensures HasReady(Popped(cfg, s, k), v)
  {
    hide ReadyAt, Popped, GoodConfig, Linked;
    var x :| ReadyAt(s, x, v);
    PoppedReady(cfg, s, k, x, v);
  }

  /** In every run, a service that has a READY replica in state i has one in every
      later state up to the first step that orphans it. */
  lemma {:induction false} ServiceStaysUp(cfg: Config, rows: seq<Row>, selected: seq<int>, homes: seq<Slot>,
                                          states: seq<State>, moves: seq<Move>, i: nat, j: nat, v: int)
    requires IsHistory(cfg, rows, selected, homes, states, moves) && i <= j < |states| && HasReady(states[i], v)
    requires forall m :: i <= m < j ==> !OrphanedAt(cfg, states[m], moves[m].event, moves[m].choice, v)
    ensures HasReady(states[j], v)
    decreases j
  {
    hide Prime, IsStep, Core, CoverOk, GoodStart, HasReady, OrphanedAt;
    if i < j {
      ServiceStaysUp(cfg, rows, selected, homes, states, moves, i, j - 1, v);
      InvAlways(cfg, rows, selected, homes, states, moves, j - 1);
      var tau :| Core(cfg, states[j - 1], tau, {});
      StepReadiness(cfg, states[j - 1], tau, moves[j - 1].event, moves[j - 1].choice, states[j], v);
    }
  }

  /** No orphan when every other hosted copy is READY at the start of the drain. */
  lemma OthersReadySuffice(cfg: Config, p: State, choice: Choice, v: int)
    requires GoodConfig(cfg) && Linked(cfg, TickStart(p))
    requires choice.provision.TurnOff? ==> PlanInBounds(cfg, TickStart(p), choice.provision.plan)
    requires forall x :: InSlot(p, x, v) && choice.provision.TurnOff? && x != choice.provision.server ==>
                          ReadyAt(p, x, v)
    requires HasReady(p, v)
    ensures !Orphaned(cfg, p, choice, v)
  {
    hide GoodConfig, Linked, PlanInBounds, Unmigrated;
    if Drains(cfg, TickStart(p), choice.provision) {
      var d := choice.provision.server;
      var x :| ReadyAt(p, x, v);
      if x == d && v !in SoleHosted(TickStart(p), d) {
        assert !OnlyCopy(TickStart(p), d, v);
        var y :| y in p.servers && y != d && v in p.servers[y].hosted;
        assert InSlot(p, y, v);
      }
    }
  }
}
