/** What the scaling decisions of a tick do, told from the states before and after
    it: which replicas are told to leave, and which are placed. */
module EngineScaling {
  import opened Collections
  import opened Settings
  import opened ReplicaQueues
  import opened EngineModel
  import opened EngineInvariants
  import opened EngineClock
  import opened EngineHandlers
  import opened EngineTick
  import opened EngineDrain
  import opened EngineRuns
  import opened EnginePrime
  import opened EngineLedger
  import opened EngineAccounts
  import opened EngineLifecycle
  import opened EngineService
  import opened EngineFrames
  import opened EngineDecisions
  import opened EngineReplicas

  // ------------------------------------------------------------------
  // Decisions on other services
  // ------------------------------------------------------------------

  predicate Concerns(decision: Scaling, svc: int) {
    match decision
    case NoScaling => false
    case ScaleUp(v, _) => v == svc
    case ScaleDown(v, _) => v == svc
  }

  /** Nothing changed for this service, and no slot was emptied. */
  ghost predicate SameService(s: State, r: State, svc: int) {
    && KeepsHeap(s, r) && r.pending == s.pending && r.servers.Keys == s.servers.Keys && |s.objects| <= |r.objects|
    && svc in s.lastScale && svc in r.lastScale && r.lastScale[svc] == s.lastScale[svc]
    && (forall o :: 0 <= o < |s.objects| && s.objects[o].service == svc ==> r.objects[o] == s.objects[o])
    && (forall x :: InSlot(r, x, svc) <==> InSlot(s, x, svc))
    && (forall x :: InSlot(s, x, svc) ==> At(r, x, svc) == At(s, x, svc))
    && (forall x :: x in s.servers ==> s.servers[x].hosted.Keys <= r.servers[x].hosted.Keys)
  }

  lemma SameServiceTrans(s: State, m: State, r: State, svc: int)
    requires SameService(s, m, svc) && SameService(m, r, svc)
    ensures SameService(s, r, svc)
  {
    hide Fresh;
  }

  lemma PlaceOther(cfg: Config, s: State, sid: int, v: int, svc: int)
    requires GoodConfig(cfg) && Linked(cfg, s) && sid in s.servers && v in cfg.services && v != svc
    requires svc in cfg.services
    ensures Place(cfg, s, sid, v).0.lastScale == s.lastScale && SameService(s, Place(cfg, s, sid, v).0, svc)
  {
    LinkedScales(cfg, s, svc);
    CreateParts(cfg, s, sid, v);
    hide GoodConfig, CanHost, FreshReplica, Create, Linked, SameService;
    SameServiceSelf(s, svc);
    if CanHost(cfg, s, sid, v) {
      CreatedOther(s, Create(cfg, s, sid, v), sid, v, svc);
      PlaceKeepsHeap(cfg, s, sid, v);
      SameButHeap(s, Create(cfg, s, sid, v), Place(cfg, s, sid, v).0, svc);
    }
  }

  lemma PlaceKeepsHeap(cfg: Config, s: State, sid: int, v: int)
    requires GoodConfig(cfg) && Linked(cfg, s) && sid in s.servers && v in cfg.services && CanHost(cfg, s, sid, v)
    ensures KeepsHeap(Create(cfg, s, sid, v), Place(cfg, s, sid, v).0)
  {
    CreateParts(cfg, s, sid, v);
    hide GoodConfig, CanHost, Create, Linked, Fresh;
    var c := Create(cfg, s, sid, v);
    FreshKept(c, c);
    PushKeepsHeap(c, c.now + cfg.delays.startup, ReplicaReady(SlotOf(c, |s.objects|), |s.objects|));
  }

  lemma SameButHeap(s: State, m: State, r: State, svc: int)
    requires SameService(s, m, svc) && r == m.(heap := r.heap, lastSeq := r.lastSeq) && KeepsHeap(m, r)
    ensures SameService(s, r, svc)
  {
    hide Fresh;
  }

  lemma CreatedOther(s: State, c: State, sid: int, v: int, svc: int)
    requires sid in s.servers && v != svc && svc in s.lastScale && c.lastScale == s.lastScale && c.now == s.now
    requires |c.objects| == |s.objects| + 1 && c.objects[..|s.objects|] == s.objects
    requires c.heap == s.heap && c.lastSeq == s.lastSeq && c.pending == s.pending
    requires c.servers.Keys == s.servers.Keys && c.servers[sid].hosted == s.servers[sid].hosted[v := |s.objects|]
    requires forall x :: x in s.servers && x != sid ==> c.servers[x].hosted == s.servers[x].hosted
    ensures SameService(s, c, svc)
  {
    assert forall o :: 0 <= o < |s.objects| ==> c.objects[o] == c.objects[..|s.objects|][o];
  }

  lemma RetireOther(cfg: Config, s: State, o: nat, svc: int)
    requires o < |s.objects| && s.objects[o].service != svc && svc in s.lastScale
    ensures Retire(cfg, s, o).lastScale == s.lastScale && SameService(s, Retire(cfg, s, o), svc)
  {
    hide Fresh;
    FreshKept(s, s);
    PushKeepsHeap(WithObject(s, o, s.objects[o].(phase := Leaving)),
                  s.now + Later(cfg.delays.graceful, s.objects[o].queue.availableAt - s.now),
                  ReplicaGone(SlotOf(s, o), o));
    FreshKept(s, WithObject(s, o, s.objects[o].(phase := Leaving)));
  }

  lemma StampOther(s: State, m: State, v: int, svc: int, time: real)
    requires SameService(s, m, svc) && v != svc
    ensures SameService(s, m.(lastScale := m.lastScale[v := time]), svc)
  {
  }

  lemma ScalingOther(cfg: Config, s: State, decision: Scaling, svc: int)
    requires GoodConfig(cfg) && Linked(cfg, s) && SlotsOk(s) && IndexOk(s) && svc in cfg.services
    requires !Concerns(decision, svc)
    ensures SameService(s, ApplyScaling(cfg, s, decision), svc)
  {
    LinkedScales(cfg, s, svc);
    hide GoodConfig, Linked, Place, Retire, SlotsOk, IndexOk, SameService;
    SameServiceSelf(s, svc);
    match decision
    case NoScaling =>
    case ScaleUp(v, target) =>
      if v in cfg.services && target.Some? && target.value in s.servers {
        PlaceOther(cfg, s, target.value, v, svc);
        StampOther(s, Place(cfg, s, target.value, v).0, v, svc, s.now);
      }
    case ScaleDown(v, victim) =>
      if v in cfg.services && victim in ReadyOf(s, v) {
        CandidateService(s, v, victim);
        RetireOther(cfg, s, victim, svc);
        StampOther(s, Retire(cfg, s, victim), v, svc, s.now);
      }
  }

  lemma SameServiceSelf(s: State, svc: int)
    requires svc in s.lastScale
    ensures SameService(s, s, svc)
  {
  }

  lemma LinkedScales(cfg: Config, s: State, svc: int)
    requires Linked(cfg, s) && svc in cfg.services
    ensures svc in s.lastScale
  {
  }

  lemma CandidateService(s: State, v: int, o: nat)
    requires IndexOk(s) && o in ReadyOf(s, v)
    ensures o < |s.objects| && s.objects[o].service == v
  {
    assert ListedOk(s, v, o);
  }

  /** The decisions from the n-th on concern other services. */
  lemma {:induction false} OthersAfter(cfg: Config, s: State, tau: real, decisions: seq<Scaling>, n: nat, svc: int)
    requires Core(cfg, s, tau, {DecisionTick}) && CoverOk(s) && s.now + cfg.delays.startup < tau
    requires GoodConfig(cfg) && Linked(cfg, s) && svc in cfg.services && n <= |decisions|
    requires forall j :: n <= j < |decisions| ==> !Concerns(decisions[j], svc)
    ensures SameService(ScaleAll(cfg, s, decisions[..n]), ScaleAll(cfg, s, decisions), svc)
    decreases |decisions|
  {
    hide Core, CoverOk, ApplyScaling, GoodConfig, Linked, SlotsOk, IndexOk, SameService;
    if n == |decisions| {
      assert decisions[..n] == decisions;
      LinkedScales(cfg, ScaleAll(cfg, s, decisions), svc);
      SameServiceSelf(ScaleAll(cfg, s, decisions), svc);
    } else {
      var last := |decisions| - 1;
      var before := decisions[..last];
      OthersAfter(cfg, s, tau, before, n, svc);
      assert before[..n] == decisions[..n];
      ScaleAllKeeps(cfg, s, tau, before);
      CoreIndex(cfg, ScaleAll(cfg, s, before), tau);
      ScalingOther(cfg, ScaleAll(cfg, s, before), decisions[last], svc);
      SameServiceTrans(ScaleAll(cfg, s, decisions[..n]), ScaleAll(cfg, s, before), ScaleAll(cfg, s, decisions), svc);
    }
  }

  // ------------------------------------------------------------------
  // What provisioning leaves to scaling
  // ------------------------------------------------------------------

  lemma {:induction false} RescueScales(cfg: Config, s: State, picks: seq<MigrationStep>)
    requires PicksKnown(cfg, s, picks)
    ensures RescueAll(cfg, s, picks).0.lastScale == s.lastScale
    decreases |picks|
  {
    if picks != [] {
      RescueScales(cfg, s, picks[..|picks| - 1]);
    }
  }

  lemma {:induction false} MigrateScales(cfg: Config, s: State, sid: int, steps: seq<MigrationStep>)
    requires GoodConfig(cfg) && Linked(cfg, s) && sid in s.servers && StepsInBounds(cfg, s, steps)
    ensures MigrateAll(cfg, s, sid, steps).lastScale == s.lastScale
    decreases |steps|
  {
    hide GoodConfig, Linked, CanHost, Create;
    if steps != [] {
      var n := |steps| - 1;
      MigrateScales(cfg, s, sid, steps[..n]);
      CreateParts(cfg, MigrateAll(cfg, s, sid, steps[..n]), steps[n].target, steps[n].service);
    }
  }

  /** The slots keep their replicas, and only migrations fill others. */
  ghost predicate SlotsKept(s: State, r: State) {
    && (forall x, v :: InSlot(s, x, v) ==> InSlot(r, x, v) && At(r, x, v) == At(s, x, v))
    && (forall x, v :: InSlot(r, x, v) && !InSlot(s, x, v) ==> Slot(x, v) in r.pending)
  }

  /** A READY replica stays so unless its host is drained and not its only one. */
  ghost predicate ReadyKept(cfg: Config, s: State, r: State, action: Provision)
    requires GoodConfig(cfg) && Linked(cfg, s) && (action.TurnOff? ==> PlanInBounds(cfg, s, action.plan))
  {
    forall x, v :: ReadyAt(r, x, v) <==>
      ReadyAt(s, x, v) && !(Drains(cfg, s, action) && x == action.server && v !in SoleHosted(s, x))
  }

  lemma DrainLeaves(cfg: Config, s: State, tau: real, action: Provision)
    requires Core(cfg, s, tau, {DecisionTick}) && CoverOk(s) && Calm(s) && s.now + cfg.delays.startup < tau
    requires GoodConfig(cfg) && Linked(cfg, s) && ProvisionOk(cfg, s, action)
    requires action.TurnOff? && PlanInBounds(cfg, s, action.plan) && Drains(cfg, s, action)
    ensures var r := ApplyProvision(cfg, s, action);
            SlotsKept(s, r) && r.lastScale == s.lastScale && ReadyKept(cfg, s, r, action)
  {
    hide GoodConfig, Linked, Drained, KeepSteps, SoleHosted, Unmigrated, PlanInBounds, PlanOk, Core, CoverOk, Calm,
      SlotsOk, ReadyAt, IndexOk, Emptied, Moved, StepsInBounds, InSlot;
    var d, plan := action.server, action.plan;
    DrainKeeps(cfg, s, tau, d, plan);
    CoreIndex(cfg, s, tau);
    var e := Emptied(cfg, s, d, plan);
    EmptiedReadiness(cfg, s, e, d, plan);
    MigratedAreSole(cfg, s, d, plan);
    EmptiedSlots(cfg, s, d, plan);
    SameSlotsKept(s, e, Drain(cfg, s, d, plan));
    UnmovedIsSame(e, Drain(cfg, s, d, plan));
    forall x, v
      ensures ReadyAt(ApplyProvision(cfg, s, action), x, v) <==>
                ReadyAt(s, x, v) && !(x == d && v !in SoleHosted(s, x))
    {
      assert ReadyAt(e, x, v) <==> ReadyAt(s, x, v) && (x != d || v in SoleHosted(s, d));
    }
  }

  lemma SameSlotsKept(s: State, e: State, r: State)
    requires SlotsKept(s, e) && r.servers == e.servers && r.pending == e.pending
    ensures SlotsKept(s, r)
  {
  }

  lemma EmptiedSlots(cfg: Config, s: State, d: int, plan: DrainPlan)
    requires GoodConfig(cfg) && Linked(cfg, s) && SlotsOk(s) && d in s.servers && PlanInBounds(cfg, s, plan)
    requires Drained(cfg, s, Emptied(cfg, s, d, plan), d, plan)
    ensures SlotsKept(s, Emptied(cfg, s, d, plan)) && Emptied(cfg, s, d, plan).lastScale == s.lastScale
  {
    hide GoodConfig, KeepSteps, StepsOk, SlotsOk, MovedFrom, Retired, MigrateAll;
    var steps := KeepSteps(cfg, s, plan.steps).0;
    var m := Moved(cfg, s, d, steps);
    MovedReadiness(cfg, s, m, d, steps);
    MigrateScales(cfg, MarkDraining(cfg, s, d), d, steps);
    assert m.pending == Emptied(cfg, s, d, plan).pending && m.servers == Emptied(cfg, s, d, plan).servers;
    forall x, v | InSlot(m, x, v) && !InSlot(s, x, v) ensures Slot(x, v) in m.pending {
      MovedArePending(cfg, s, m, d, steps, x, v);
    }
  }

  lemma MovedArePending(cfg: Config, s: State, m: State, d: int, steps: seq<MigrationStep>, x: int, v: int)
    requires GoodConfig(cfg) && Linked(cfg, s) && d in s.servers
    requires MovedFrom(cfg, MarkDraining(cfg, s, d), m, d, steps) && InSlot(m, x, v) && !InSlot(s, x, v)
    ensures Slot(x, v) in m.pending
  {
    hide GoodConfig, Linked, UsedCpu, RawOn;
    assert !InSlot(MarkDraining(cfg, s, d), x, v);
    assert Targeted(steps, x, v);
    var i :| 0 <= i < |steps| && steps[i] == MigrationStep(v, x);
    assert MigratesTo(m, d, steps[i].service, steps[i].target);
  }

  lemma ProvisionLeaves(cfg: Config, s: State, tau: real, action: Provision)
    requires Core(cfg, s, tau, {DecisionTick}) && CoverOk(s) && Calm(s) && s.now + cfg.delays.startup < tau
    requires GoodConfig(cfg) && Linked(cfg, s) && ProvisionOk(cfg, s, action)
    requires action.TurnOff? ==> PlanInBounds(cfg, s, action.plan)
    ensures var r := ApplyProvision(cfg, s, action);
            SlotsKept(s, r) && r.lastScale == s.lastScale && ReadyKept(cfg, s, r, action)
  {
    if action.TurnOff? && Drains(cfg, s, action) {
      DrainLeaves(cfg, s, tau, action);
    } else {
      NoDrainLeaves(cfg, s, action);
    }
  }

  lemma NoDrainLeaves(cfg: Config, s: State, action: Provision)
    requires GoodConfig(cfg) && Linked(cfg, s) && (action.TurnOff? ==> PlanInBounds(cfg, s, action.plan))
    requires !Drains(cfg, s, action)
    ensures var r := ApplyProvision(cfg, s, action);
            SlotsKept(s, r) && r.lastScale == s.lastScale && ReadyKept(cfg, s, r, action)
  {
    var r := ApplyProvision(cfg, s, action);
    NoDrainShape(cfg, s, action);
    hide GoodConfig, Linked, PlanInBounds, ApplyProvision, Drains, ReadyAt, SoleHosted;
    UnmovedIsSame(s, r);
    UnmovedSlots(s, r);
  }

  lemma UnmovedSlots(s: State, r: State)
    requires r.servers.Keys == s.servers.Keys
    requires forall x :: x in s.servers ==> r.servers[x].hosted == s.servers[x].hosted
    ensures SlotsKept(s, r)
  {
  }

  lemma NoDrainShape(cfg: Config, s: State, action: Provision)
    requires GoodConfig(cfg) && Linked(cfg, s) && (action.TurnOff? ==> PlanInBounds(cfg, s, action.plan))
    requires !Drains(cfg, s, action)
    ensures var r := ApplyProvision(cfg, s, action);
            && r.objects == s.objects && r.lastScale == s.lastScale && r.servers.Keys == s.servers.Keys
            && forall x :: x in s.servers ==> r.servers[x].hosted == s.servers[x].hosted
  {
    if action.TurnOff? {
      PicksInBounds(cfg, s, action.plan);
      RescueUnmoved(cfg, s, action.plan.picks);
      RescueScales(cfg, s, action.plan.picks);
    }
    hide GoodConfig, Linked, PlanInBounds, RescueAll, Unmigrated, MayTurnOff, Drain;
  }

  // ------------------------------------------------------------------
  // The tick as provisioning, the decisions before, one decision, those after
  // ------------------------------------------------------------------

  /** The only decision of the tick on this service is the n-th. */
  ghost predicate OnlyDecision(decisions: seq<Scaling>, n: nat, svc: int) {
    n < |decisions| && forall j :: 0 <= j < |decisions| && j != n ==> !Concerns(decisions[j], svc)
  }

  /** The states around the n-th decision of a tick. */
  ghost predicate AroundDecision(cfg: Config, p: State, choice: Choice, n: nat, svc: int, s1: State, m: State,
                                 after: State, r: State)
    requires GoodConfig(cfg) && Linked(cfg, p) && Linked(cfg, TickStart(p)) && ChoiceLinked(cfg, p, choice)
    requires choice.provision.TurnOff? ==> PlanInBounds(cfg, TickStart(p), choice.provision.plan)
  {
    && SlotsKept(TickStart(p), s1) && s1.lastScale == p.lastScale
    && ReadyKept(cfg, TickStart(p), s1, choice.provision)
    && Fresh(p) && Grown(cfg, TickStart(p), s1) && Grown(cfg, TickStart(p), r)
    && SlotsOk(s1) && SameService(s1, m, svc) && Linked(cfg, m) && SlotsOk(m) && IndexOk(m)
    && n < |choice.scaling| && after == ApplyScaling(cfg, m, choice.scaling[n])
    && SameService(after, r, svc) && Steady(m, r)
  }

  lemma TickAround(cfg: Config, p: State, tau: real, choice: Choice, n: nat, svc: int)
    returns (s1: State, m: State, after: State, r: State)
    requires Core(cfg, p, tau, {DecisionTick}) && CoverOk(p) && p.now == tau
    requires GoodConfig(cfg) && Linked(cfg, p) && Linked(cfg, TickStart(p)) && ChoiceOk(cfg, p, DecisionTick, choice)
    requires choice.provision.TurnOff? ==> PlanInBounds(cfg, TickStart(p), choice.provision.plan)
    requires OnlyDecision(choice.scaling, n, svc) && svc in cfg.services
    ensures r == Handle(cfg, p, DecisionTick, choice) && s1 == ApplyProvision(cfg, TickStart(p), choice.provision)
    ensures AroundDecision(cfg, p, choice, n, svc, s1, m, after, r)
  {
    hide Linked, Core, CoverOk, Calm, ApplyProvision, ScaleAll, PlanInBounds, ProvisionOk, Grown, SameService,
      SlotsKept, ReadyKept, Steady, Handle, SlotsOk, IndexOk, ApplyScaling, Fresh, Concerns;
    var next := tau + cfg.delays.interval;
    var s0 := TickStart(p);
    var decisions := choice.scaling;
    RetimeKeeps(cfg, p, tau);
    CoreFresh(cfg, p, tau, {DecisionTick});
    FreshKept(p, s0);
    ProvisionLeaves(cfg, s0, next, choice.provision);
    ProvisionGrown(cfg, s0, choice.provision);
    TickGrown(cfg, p, choice);
    ApplyProvisionKeeps(cfg, s0, next, choice.provision);
    ApplyProvisionNow(cfg, s0, choice.provision);
    s1 := ApplyProvision(cfg, s0, choice.provision);
    m, after := ScaleAll(cfg, s1, decisions[..n]), ScaleAll(cfg, s1, decisions[..n + 1]);
    OthersAfter(cfg, s1, next, decisions[..n], 0, svc);
    CoreIndex(cfg, s1, next);
    NoDecisions(cfg, s1, decisions[..n]);
    ScaleAllKeeps(cfg, s1, next, decisions[..n]);
    CoreIndex(cfg, m, next);
    DecideOnce(cfg, s1, decisions, n);
    OthersAfter(cfg, s1, next, decisions, n + 1, svc);
    r := Handle(cfg, p, DecisionTick, choice);
    TickEnds(cfg, p, choice, after, svc);
    ScaleAllSteady(cfg, s1, decisions[..n]);
    TickSteady(cfg, p, choice);
    SteadyFrom(s1, m, r);
  }

  lemma SteadyFrom(s: State, m: State, r: State)
    requires Steady(s, m) && Steady(s, r)
    ensures Steady(m, r)
  {
  }

  lemma NoDecisions(cfg: Config, s: State, decisions: seq<Scaling>)
    requires GoodConfig(cfg) && Linked(cfg, s)
    ensures ScaleAll(cfg, s, decisions[..0]) == s
  {
  }

  lemma DecideOnce(cfg: Config, s: State, decisions: seq<Scaling>, n: nat)
    requires GoodConfig(cfg) && Linked(cfg, s) && n < |decisions|
    ensures ScaleAll(cfg, s, decisions[..n + 1]) == ApplyScaling(cfg, ScaleAll(cfg, s, decisions[..n]), decisions[n])
  {
    hide ApplyScaling, GoodConfig, Linked;
    assert decisions[..n + 1][..n] == decisions[..n];
  }

  lemma TickEnds(cfg: Config, p: State, choice: Choice, after: State, svc: int)
    requires GoodConfig(cfg) && Linked(cfg, p) && Linked(cfg, TickStart(p)) && ChoiceLinked(cfg, p, choice)
    requires choice.provision.TurnOff? ==> PlanInBounds(cfg, TickStart(p), choice.provision.plan)
    requires SameService(after, ScaleAll(cfg, ApplyProvision(cfg, TickStart(p), choice.provision), choice.scaling), svc)
    ensures SameService(after, Handle(cfg, p, DecisionTick, choice), svc)
  {
    hide GoodConfig, Linked, PlanInBounds, ApplyProvision, ScaleAll, SameService, ChoiceLinked;
    var m := ScaleAll(cfg, ApplyProvision(cfg, TickStart(p), choice.provision), choice.scaling);
    SameButWindow(after, m, p.now + cfg.delays.interval, svc);
  }

  lemma SameButWindow(after: State, m: State, next: real, svc: int)
    requires SameService(after, m, svc)
    ensures SameService(after, Push(ResetWindow(m), next, DecisionTick), svc)
  {
    hide Fresh;
    FreshKept(m, ResetWindow(m));
    PushKeepsHeap(ResetWindow(m), next, DecisionTick);
  }

  // ------------------------------------------------------------------
  // SCALE_DOWN
  // ------------------------------------------------------------------

  /** The service is out of cooldown and the victim is old enough. */
  predicate Mature(cfg: Config, s: State, now: real, svc: int, victim: nat)
    requires victim < |s.objects|
  {
    && svc in s.lastScale && now - s.lastScale[svc] >= cfg.delays.cooldown
    && now - s.objects[victim].createdAt >= cfg.delays.minAge
  }

  ghost predicate ReadyElsewhere(s: State, x: int, svc: int) {
    exists y :: y != x && ReadyAt(s, y, svc)
  }

  lemma OthersReady(m: State, svc: int, victim: nat)
    requires SlotsOk(m) && IndexOk(m) && victim < |m.objects|
    requires InSlot(m, m.objects[victim].server, svc) && At(m, m.objects[victim].server, svc) == victim
    ensures |ReadyOf(m, svc)| > 1 && victim in ReadyOf(m, svc) <==>
              ReadyAt(m, m.objects[victim].server, svc) && ReadyElsewhere(m, m.objects[victim].server, svc)
  {
    hide SlotsOk, IndexOk, Candidate;
    var x := m.objects[victim].server;
    CandidatesAreHosted(m, svc, victim);
    if victim in ReadyOf(m, svc) {
      var others := ReadyOf(m, svc) - {victim};
      assert ReadyOf(m, svc) == others + {victim};
      if others != {} {
        var o := Pick(others);
        CandidatesAreHosted(m, svc, o);
        assert ReadyAt(m, m.objects[o].server, svc);
      }
      if y :| y != x && ReadyAt(m, y, svc) {
        ReadyIsCandidate(m, y, svc);
        assert At(m, y, svc) != victim && At(m, y, svc) in ReadyOf(m, svc);
      }
    } else if ReadyAt(m, x, svc) {
      ReadyIsCandidate(m, x, svc);
    }
  }

  lemma ReadyIsCandidate(m: State, x: int, svc: int)
    requires SlotsOk(m) && IndexOk(m) && ReadyAt(m, x, svc)
    ensures Candidate(m, svc, At(m, x, svc)) && m.objects[At(m, x, svc)].server == x
  {
    assert SlotOk(m, x, svc);
    CandidatesAreHosted(m, svc, At(m, x, svc));
  }

  /** What the decision makes of the victim, from the state it is applied in. */
  lemma DownApplied(cfg: Config, m: State, svc: int, victim: nat)
    requires GoodConfig(cfg) && Linked(cfg, m) && SlotsOk(m) && IndexOk(m) && svc in cfg.services
    requires victim < |m.objects| && m.objects[victim].phase != Terminated
    requires InSlot(m, m.objects[victim].server, svc) && At(m, m.objects[victim].server, svc) == victim
    ensures var r := ApplyScaling(cfg, m, ScaleDown(svc, victim));
            var x := m.objects[victim].server;
            var down := Mature(cfg, m, m.now, svc, victim) && ReadyAt(m, x, svc) && ReadyElsewhere(m, x, svc);
            && svc in m.lastScale && svc in r.lastScale && |r.objects| == |m.objects|
            && r.objects[victim].phase == (if down then Leaving else m.objects[victim].phase)
            && r.lastScale[svc] == (if down then m.now else m.lastScale[svc])
            && r.objects[victim].service == m.objects[victim].service
  {
    OthersReady(m, svc, victim);
    LinkedScales(cfg, m, svc);
    hide GoodConfig, Linked, SlotsOk, IndexOk, ReadyOf, ReadyAt, InSlot, ReadyElsewhere;
  }

  /** READY and not told to leave by a drain of this tick. */
  ghost predicate Remains(cfg: Config, s: State, now: real, action: Provision, kept: seq<bool>, svc: int, x: int) {
    ReadyAt(s, x, svc) && !(Stops(cfg, s, now, action, kept) && action.server == x && !HostedOnlyOn(s, x, svc))
  }

  lemma DrainsMeans(cfg: Config, s: State, action: Provision, kept: seq<bool>)
    requires GoodConfig(cfg) && Linked(cfg, s) && (action.TurnOff? ==> PlanInBounds(cfg, s, action.plan))
    requires action.TurnOff? ==> s.servers.Keys == cfg.servers.Keys && StepsInBounds(cfg, s, action.plan.steps)
    requires action.TurnOff? ==> KeptByRoom(cfg, s, action.plan.steps, kept)
    ensures Drains(cfg, s, action) <==> Stops(cfg, s, s.now, action, kept)
  {
    if action.TurnOff? {
      var marks := KeptIffFits(cfg, s, action.plan.steps);
      hide GoodConfig, Linked, PlanInBounds, StepsInBounds, MayStop, MayTurnOff, LeftBehind, Unmigrated, FitsBeside,
        KeepSteps, Chosen;
      MarksUnique(cfg, s, action.plan.steps, marks, kept, |kept|);
      assert marks == kept;
      GatesMean(cfg, s, action.server);
      if MayTurnOff(cfg, s, action.server) {
        GateServer(cfg, s, action.server);
        LeftIsUnmigrated(cfg, s, action.server, action.plan, kept);
      }
    }
  }

  /** There is only one way to keep steps by room. */
  lemma {:induction false} MarksUnique(cfg: Config, s: State, steps: seq<MigrationStep>, a: seq<bool>, b: seq<bool>,
                                       n: nat)
    requires GoodConfig(cfg) && s.servers.Keys == cfg.servers.Keys && StepsInBounds(cfg, s, steps)
    requires KeptByRoom(cfg, s, steps, a) && KeptByRoom(cfg, s, steps, b) && n <= |steps|
    ensures |a| == |b| == |steps| && a[..n] == b[..n]
  {
    hide GoodConfig, StepsInBounds, UsedCpu;
    if n > 0 {
      MarksUnique(cfg, s, steps, a, b, n - 1);
      AskedSame(cfg, steps, a, b, n - 1, steps[n - 1].target);
      assert a[n - 1] <==> FitsBeside(cfg, s, steps, a, n - 1);
      assert b[n - 1] <==> FitsBeside(cfg, s, steps, b, n - 1);
      assert a[..n] == a[..n - 1] + [a[n - 1]] && b[..n] == b[..n - 1] + [b[n - 1]];
    }
  }

  lemma {:induction false} AskedSame(cfg: Config, steps: seq<MigrationStep>, a: seq<bool>, b: seq<bool>, n: nat,
                                     target: int)
    requires |a| == |b| == |steps| && n <= |steps| && a[..n] == b[..n]
    ensures AskedBefore(cfg, steps, a, n, target) == AskedBefore(cfg, steps, b, n, target)
  {
    if n > 0 {
      assert a[n - 1] == a[..n][n - 1] == b[..n][n - 1] == b[n - 1];
      assert a[..n - 1] == a[..n][..n - 1] == b[..n][..n - 1] == b[..n - 1];
      AskedSame(cfg, steps, a, b, n - 1, target);
    }
  }

  lemma SameServiceReady(s: State, r: State, svc: int, x: int)
    requires SlotsOk(s) && SameService(s, r, svc)
    ensures ReadyAt(s, x, svc) ==> ReadyAt(r, x, svc)
    ensures ReadyAt(r, x, svc) && InSlot(s, x, svc) ==> ReadyAt(s, x, svc)
    ensures InSlot(r, x, svc) <==> InSlot(s, x, svc)
  {
    if InSlot(s, x, svc) {
      assert SlotOk(s, x, svc);
    }
  }

  lemma SameServiceElsewhere(s: State, r: State, svc: int, x: int)
    requires SlotsOk(s) && SameService(s, r, svc)
    ensures ReadyElsewhere(r, x, svc) <==> ReadyElsewhere(s, x, svc)
    ensures ReadyAt(r, x, svc) <==> ReadyAt(s, x, svc)
  {
    hide SlotsOk, SameService, ReadyAt;
    forall y ensures ReadyAt(r, y, svc) <==> ReadyAt(s, y, svc) {
      SameServiceReady(s, r, svc, y);
      ReadyInSlot(r, y, svc);
    }
  }

  lemma ReadyInSlot(s: State, x: int, svc: int)
    ensures ReadyAt(s, x, svc) ==> InSlot(s, x, svc)
  {
  }

  /** The victim when its decision comes: as before the tick, or already leaving. */
  lemma VictimBefore(cfg: Config, p: State, choice: Choice, n: nat, svc: int, victim: nat, s1: State, m: State,
                     after: State, r: State)
    requires GoodConfig(cfg) && Linked(cfg, p) && Linked(cfg, TickStart(p)) && ChoiceLinked(cfg, p, choice)
    requires choice.provision.TurnOff? ==> PlanInBounds(cfg, TickStart(p), choice.provision.plan)
    requires AroundDecision(cfg, p, choice, n, svc, s1, m, after, r)
    requires victim < |p.objects| && p.objects[victim].service == svc
    requires ReadyAt(p, p.objects[victim].server, svc) && At(p, p.objects[victim].server, svc) == victim
    ensures victim < |m.objects| && SameMake(p.objects[victim], m.objects[victim]) && victim < |s1.objects|
    ensures m.objects[victim] == s1.objects[victim]
    ensures var x := p.objects[victim].server;
            && InSlot(m, x, svc) && At(m, x, svc) == victim
            && m.objects[victim].phase == (if ReadyAt(s1, x, svc) then Ready else Leaving)
    ensures m.now == p.now && svc in m.lastScale && svc in p.lastScale && m.lastScale[svc] == p.lastScale[svc]
  {
    hide GoodConfig, Linked, PlanInBounds, ChoiceLinked, ReadyKept, SlotsOk, IndexOk, Newborn, LeavesInTime, Fresh,
      ApplyScaling;
    var s0, x := TickStart(p), p.objects[victim].server;
    assert Stays(cfg, s0, s1, victim);
    assert InSlot(s0, x, svc) && At(s0, x, svc) == victim;
  }

  lemma {:induction false} VictimAtTick(cfg: Config, p: State, tau: real, choice: Choice, n: nat, svc: int, victim: nat)
    requires Core(cfg, p, tau, {DecisionTick}) && CoverOk(p) && p.now == tau
    requires GoodConfig(cfg) && Linked(cfg, p) && Linked(cfg, TickStart(p)) && ChoiceOk(cfg, p, DecisionTick, choice)
    requires choice.provision.TurnOff? ==> PlanInBounds(cfg, TickStart(p), choice.provision.plan)
    requires OnlyDecision(choice.scaling, n, svc) && svc in cfg.services && choice.scaling[n] == ScaleDown(svc, victim)
    requires victim < |p.objects| && p.objects[victim].service == svc
    requires ReadyAt(p, p.objects[victim].server, svc) && At(p, p.objects[victim].server, svc) == victim
    ensures var r := Handle(cfg, p, DecisionTick, choice);
            var s1 := ApplyProvision(cfg, TickStart(p), choice.provision);
            var x := p.objects[victim].server;
            var stays := ReadyAt(s1, x, svc);
            var down := stays && ReadyElsewhere(s1, x, svc) && Mature(cfg, p, p.now, svc, victim);
            && victim < |r.objects| && svc in r.lastScale && svc in p.lastScale
            && r.objects[victim].phase == (if stays && !down then Ready else Leaving)
            && r.lastScale[svc] == (if down then p.now else p.lastScale[svc])
    ensures ReadyKept(cfg, TickStart(p), ApplyProvision(cfg, TickStart(p), choice.provision), choice.provision)
  {
    hide Core, CoverOk, Handle, ApplyProvision, Linked, GoodConfig, PlanInBounds, ChoiceLinked, ProvisionOk, ReadyAt,
      ReadyElsewhere,      ReadyKept, SlotsOk, IndexOk, SlotsKept, ApplyScaling, Fresh, Grown, SameService;
    var s1, m, after, r := TickAround(cfg, p, tau, choice, n, svc);
    VictimBefore(cfg, p, choice, n, svc, victim, s1, m, after, r);
    SameServiceElsewhere(s1, m, svc, p.objects[victim].server);
    DownApplied(cfg, m, svc, victim);
    AfterIsFinal(after, r, svc, victim);
  }

  lemma AfterIsFinal(after: State, r: State, svc: int, victim: nat)
    requires SameService(after, r, svc) && victim < |after.objects| && after.objects[victim].service == svc
    ensures victim < |r.objects| && r.objects[victim] == after.objects[victim]
    ensures svc in after.lastScale && svc in r.lastScale && r.lastScale[svc] == after.lastScale[svc]
  {
  }

  /** Over a tick of any run, the victim that a SCALE_DOWN names, READY before, is leaving
      afterwards exactly if the tick's drain tells it to, or the service is out of
      cooldown, another copy remains READY and the victim is old enough. */
  lemma VictimLeavesIff(cfg: Config, rows: seq<Row>, selected: seq<int>, homes: seq<Slot>,
                        states: seq<State>, moves: seq<Move>, i: nat, n: nat, svc: int, victim: nat)
    returns (kept: seq<bool>)
    requires IsHistory(cfg, rows, selected, homes, states, moves) && i < |moves| && |states| == |moves| + 1
    requires moves[i].event in states[i].heap && states[i].heap[moves[i].event].kind.DecisionTick?
    requires OnlyDecision(moves[i].choice.scaling, n, svc) && svc in cfg.services
    requires moves[i].choice.scaling[n] == ScaleDown(svc, victim)
    requires victim < |states[i].objects| && states[i].objects[victim].service == svc
    requires var x := states[i].objects[victim].server; ReadyAt(states[i], x, svc) && At(states[i], x, svc) == victim
    ensures moves[i].choice.provision.TurnOff? ==>
              && GoodConfig(cfg) && states[i].servers.Keys == cfg.servers.Keys
              && StepsInBounds(cfg, states[i], moves[i].choice.provision.plan.steps)
              && KeptByRoom(cfg, states[i], moves[i].choice.provision.plan.steps, kept)
    ensures var s, r, action := states[i], states[i + 1], moves[i].choice.provision;
            var x, now := s.objects[victim].server, r.now;
            var down := && Remains(cfg, s, now, action, kept, svc, x)
                        && (exists y :: y != x && Remains(cfg, s, now, action, kept, svc, y))
                        && Mature(cfg, s, now, svc, victim);
            && victim < |r.objects| && svc in s.lastScale && svc in r.lastScale
            && r.objects[victim].phase
               == (if Remains(cfg, s, now, action, kept, svc, x) && !down then Ready else Leaving)
            && r.lastScale[svc] == (if down then now else s.lastScale[svc])
            && (r.objects[victim].phase == Leaving ==> LeavesInTime(cfg, r, victim))
  {
    hide IsHistory, IsRun, Prime, GoodStart, IsStep, Core, CoverOk, WasLegitimate, Remains, LeavesInTime, GoodConfig,
      StepsInBounds, KeptByRoom, AllAged;
    var s, r, move := states[i], states[i + 1], moves[i];
    HistoryStep(cfg, rows, selected, homes, states, moves, i);
    InvAlways(cfg, rows, selected, homes, states, moves, i);
    var tau :| Core(cfg, s, tau, {});
    kept := StepVictim(cfg, s, tau, move.event, move.choice, r, n, svc, victim);
    StepAges(cfg, s, tau, move.event, move.choice, r);
    AgedLeaves(cfg, s, r, victim);
  }

  lemma AgedLeaves(cfg: Config, s: State, r: State, o: nat)
    requires GoodConfig(cfg) && AllAged(cfg, s, r) && o < |s.objects| && s.objects[o].phase != Leaving
    ensures o < |r.objects| && (r.objects[o].phase == Leaving ==> LeavesInTime(cfg, r, o))
  {
    assert Aged(cfg, s, r, o);
  }

  lemma StepVictim(cfg: Config, s: State, tau: real, k: nat, choice: Choice, r: State, n: nat, svc: int, victim: nat)
    returns (kept: seq<bool>)
    requires Core(cfg, s, tau, {}) && CoverOk(s) && IsStep(cfg, s, k, choice, r)
    requires k in s.heap && s.heap[k].kind.DecisionTick?
    requires OnlyDecision(choice.scaling, n, svc) && svc in cfg.services && choice.scaling[n] == ScaleDown(svc, victim)
    requires victim < |s.objects| && s.objects[victim].service == svc
    requires var x := s.objects[victim].server; ReadyAt(s, x, svc) && At(s, x, svc) == victim
    ensures choice.provision.TurnOff? ==>
              && GoodConfig(cfg) && s.servers.Keys == cfg.servers.Keys
              && StepsInBounds(cfg, s, choice.provision.plan.steps)
              && KeptByRoom(cfg, s, choice.provision.plan.steps, kept)
    ensures var action, x, now := choice.provision, s.objects[victim].server, r.now;
            var down := && Remains(cfg, s, now, action, kept, svc, x)
                        && (exists y :: y != x && Remains(cfg, s, now, action, kept, svc, y))
                        && Mature(cfg, s, now, svc, victim);
            && victim < |r.objects| && svc in s.lastScale && svc in r.lastScale
            && r.objects[victim].phase
               == (if Remains(cfg, s, now, action, kept, svc, x) && !down then Ready else Leaving)
            && r.lastScale[svc] == (if down then now else s.lastScale[svc])
  {
    hide Core, CoverOk, IsStep, Popped, GoodConfig, Linked, ChoiceOk, ChoiceLinked, Handle, IsMin, WasLegitimate,
      Remains, ReadyAt, ApplyProvision, PlanInBounds, StepsInBounds, KeptByRoom, ReadyKept, ReadyElsewhere, SameView,
      KindLinked;
    StepParts(cfg, s, k, choice, r);
    PoppedKeeps(cfg, s, tau, k);
    StepChoice(cfg, s, k, choice, r);
    StepTime(cfg, s, tau, k, choice, r);
    var p, action := Popped(cfg, s, k), choice.provision;
    var s0 := TickStart(p);
    TickIsNow(cfg, p, tau);
    TickStartLinked(cfg, p);
    if action.TurnOff? {
      TickPlanInBounds(cfg, p, choice);
    }
    PoppedSteady(cfg, s, k);
    PoppedView(cfg, s, k);
    PoppedReadyAt(s, p);
    VictimAtTick(cfg, p, tau, choice, n, svc, victim);
    kept := KeptMarks(cfg, s, s0, action);
    var s1 := ApplyProvision(cfg, s0, action);
    forall y ensures ReadyAt(s1, y, svc) <==> Remains(cfg, s, r.now, action, kept, svc, y) {
      RemainsReady(cfg, s, s0, s1, action, kept, svc, y);
    }
    ElsewhereMeans(s1, s.objects[victim].server, svc);
  }

  lemma ElsewhereMeans(s: State, x: int, svc: int)
    ensures ReadyElsewhere(s, x, svc) <==> exists y :: y != x && ReadyAt(s, y, svc)
  {
  }

  /** The marks of the state in which the tick is handled are those of the state before. */
  lemma KeptMarks(cfg: Config, s: State, s0: State, action: Provision) returns (kept: seq<bool>)
    requires GoodConfig(cfg) && Linked(cfg, s0) && SameView(s, s0) && s.servers.Keys == cfg.servers.Keys
    requires action.TurnOff? ==> PlanInBounds(cfg, s0, action.plan)
    ensures action.TurnOff? ==>
              && s0.servers.Keys == cfg.servers.Keys && StepsInBounds(cfg, s0, action.plan.steps)
              && StepsInBounds(cfg, s, action.plan.steps) && KeptByRoom(cfg, s, action.plan.steps, kept)
    ensures Drains(cfg, s0, action) <==> Stops(cfg, s, s0.now, action, kept)
  {
    kept := [];
    if action.TurnOff? {
      kept := KeptIffFits(cfg, s0, action.plan.steps);
      ViewRoom(cfg, s, s0, action.plan.steps, kept);
    }
    DrainsMeans(cfg, s0, action, kept);
    ViewGates(cfg, s, s0, s0.now, action, kept);
  }

  lemma RemainsReady(cfg: Config, s: State, s0: State, s1: State, action: Provision, kept: seq<bool>, svc: int, y: int)
    requires GoodConfig(cfg) && Linked(cfg, s0) && SameView(s, s0)
    requires action.TurnOff? ==> PlanInBounds(cfg, s0, action.plan)
    requires ReadyKept(cfg, s0, s1, action) && (Drains(cfg, s0, action) <==> Stops(cfg, s, s0.now, action, kept))
    ensures ReadyAt(s1, y, svc) <==> Remains(cfg, s, s0.now, action, kept, svc, y)
  {
    hide GoodConfig, Linked, PlanInBounds, Drains, Stops, SoleHosted, ReadyAt, HostedOnlyOn, SameView;
    ViewSlots(s, s0);
    if y in s0.servers {
      SoleIsHostedOnly(s0, y, svc);
    }
    ReadyServer(s0, y, svc);
  }

  lemma ReadyServer(s: State, x: int, svc: int)
    ensures ReadyAt(s, x, svc) ==> x in s.servers
  {
  }

  lemma PoppedReadyAt(s: State, p: State)
    requires SameView(s, TickStart(p))
    ensures forall x, v :: ReadyAt(p, x, v) <==> ReadyAt(s, x, v)
    ensures forall x, v :: ReadyAt(s, x, v) ==> At(p, x, v) == At(s, x, v)
  {
    ViewSlots(s, TickStart(p));
    forall x, v
      ensures ReadyAt(p, x, v) <==> ReadyAt(s, x, v)
      ensures ReadyAt(s, x, v) ==> At(p, x, v) == At(s, x, v)
    {
      assert ReadyAt(TickStart(p), x, v) <==> ReadyAt(s, x, v);
      assert InSlot(TickStart(p), x, v) <==> InSlot(p, x, v);
    }
  }

  // ------------------------------------------------------------------
  // SCALE_UP
  // ------------------------------------------------------------------

  /** A copy of the service, created now, is starting on the server, its ready event one
      startup delay ahead. */
  ghost predicate PlacedNow(cfg: Config, r: State, limit: nat, t: int, svc: int) {
    && InSlot(r, t, svc) && limit <= At(r, t, svc) < |r.objects|
    && var o := At(r, t, svc);
       && r.objects[o].server == t && r.objects[o].service == svc
       && r.objects[o].phase == Starting && r.objects[o].createdAt == r.now
       && exists k :: k in r.heap && r.heap[k] == Event(r.now + cfg.delays.startup, ReplicaReady(Slot(t, svc), o))
  }

  /** The service is out of cooldown and the target an ACTIVE server. */
  predicate MayScaleUp(cfg: Config, s: State, now: real, svc: int, target: Option<int>, m: State) {
    && svc in s.lastScale && now - s.lastScale[svc] >= cfg.delays.cooldown
    && target.Some? && target.value in m.servers && m.servers[target.value].phase == Active
  }

  ghost predicate NoRoom(cfg: Config, s: State, t: int, svc: int) {
    && GoodConfig(cfg) && t in s.servers && t in cfg.servers && svc in cfg.services
    && UsedCpu(cfg, s, t) + EffectiveCpu(cfg, t, svc) > cfg.servers[t].capacity
  }

  /** What the decision does in the state it is applied in. */
  lemma UpApplied(cfg: Config, m: State, svc: int, target: Option<int>) returns (placed: bool)
    requires GoodConfig(cfg) && Linked(cfg, m) && svc in cfg.services && Fresh(m)
    ensures var r := ApplyScaling(cfg, m, ScaleUp(svc, target));
            && svc in m.lastScale && svc in r.lastScale && Fresh(r)
            && r.lastScale[svc] == (if placed then m.now else m.lastScale[svc])
            && (placed ==> MayScaleUp(cfg, m, m.now, svc, target, m) && !InSlot(m, target.value, svc)
                           && PlacedNow(cfg, r, |m.objects|, target.value, svc))
            && (!placed ==> r == m && (MayScaleUp(cfg, m, m.now, svc, target, m) ==>
                                         InSlot(m, target.value, svc) || NoRoom(cfg, m, target.value, svc)))
  {
    LinkedScales(cfg, m, svc);
    ScalingGrown(cfg, m, ScaleUp(svc, target));
    hide Grown;
    GrownFresh(cfg, m, ApplyScaling(cfg, m, ScaleUp(svc, target)));
    placed := false;
    if MayScaleUp(cfg, m, m.now, svc, target, m) {
      placed := CanHost(cfg, m, target.value, svc);
      LinkedServer(cfg, m, target.value);
      if placed {
        PlacedHere(cfg, m, target.value, svc);
        hide GoodConfig, Linked, Place, CanHost, PlacedNow, Fresh;
        SamePlaced(cfg, Place(cfg, m, target.value, svc).0, ApplyScaling(cfg, m, ScaleUp(svc, target)), |m.objects|,
                   target.value, svc);
      } else {
        hide GoodConfig, Linked, Fresh;
      }
    }
  }

  lemma LinkedServer(cfg: Config, m: State, t: int)
    requires Linked(cfg, m) && t in m.servers
    ensures t in cfg.servers
  {
  }

  lemma GrownFresh(cfg: Config, s: State, r: State)
    requires GoodConfig(cfg) && Grown(cfg, s, r) && Fresh(s)
    ensures Fresh(r)
  {
  }

  lemma SamePlaced(cfg: Config, p: State, r: State, limit: nat, t: int, svc: int)
    requires PlacedNow(cfg, p, limit, t, svc) && r == p.(lastScale := r.lastScale)
    ensures PlacedNow(cfg, r, limit, t, svc)
  {
  }

  lemma PlacedHere(cfg: Config, m: State, t: int, svc: int)
    requires GoodConfig(cfg) && Linked(cfg, m) && svc in cfg.services && t in m.servers && m.servers[t].phase == Active
    requires CanHost(cfg, m, t, svc)
    ensures !InSlot(m, t, svc) && Place(cfg, m, t, svc).1.Some?
    ensures PlacedNow(cfg, Place(cfg, m, t, svc).0, |m.objects|, t, svc)
    ensures Place(cfg, m, t, svc).0.now == m.now
  {
    CreateParts(cfg, m, t, svc);
    hide GoodConfig, Linked, Create, FreeCapacity, ExecTime;
    var r := Place(cfg, m, t, svc).0;
    assert r.heap[r.lastSeq] == Event(r.now + cfg.delays.startup, ReplicaReady(Slot(t, svc), |m.objects|));
  }

  /** What was placed stays as it is to the end of the tick. */
  lemma PlacedStays(cfg: Config, after: State, r: State, limit: nat, t: int, svc: int)
    requires PlacedNow(cfg, after, limit, t, svc) && SameService(after, r, svc) && Fresh(after)
    ensures PlacedNow(cfg, r, limit, t, svc)
  {
    hide Fresh;
    var o := At(after, t, svc);
    var k :| k in after.heap
             && after.heap[k] == Event(after.now + cfg.delays.startup, ReplicaReady(Slot(t, svc), o));
    assert k in r.heap && r.heap[k] == after.heap[k];
  }

  lemma NoRoomStays(cfg: Config, m: State, r: State, t: int, svc: int)
    requires NoRoom(cfg, m, t, svc) && SameService(m, r, svc)
    ensures NoRoom(cfg, r, t, svc)
  {
    hide GoodConfig, CpuSum;
    CpuSumMonotone(cfg, t, m.servers[t].hosted.Keys, r.servers[t].hosted.Keys);
  }

  /** The slot is taken by a copy from before the tick, or by a migration of the tick. */
  ghost predicate TakenBefore(s: State, r: State, t: int, svc: int) {
    InSlot(r, t, svc) && (InSlot(s, t, svc) || Slot(t, svc) in r.pending)
  }

  lemma UpAtTick(cfg: Config, p: State, tau: real, choice: Choice, n: nat, svc: int, target: Option<int>)
    returns (placed: bool)
    requires Core(cfg, p, tau, {DecisionTick}) && CoverOk(p) && p.now == tau
    requires GoodConfig(cfg) && Linked(cfg, p) && Linked(cfg, TickStart(p)) && ChoiceOk(cfg, p, DecisionTick, choice)
    requires choice.provision.TurnOff? ==> PlanInBounds(cfg, TickStart(p), choice.provision.plan)
    requires OnlyDecision(choice.scaling, n, svc) && svc in cfg.services && choice.scaling[n] == ScaleUp(svc, target)
    ensures var r := Handle(cfg, p, DecisionTick, choice);
            && svc in r.lastScale && svc in p.lastScale
            && r.lastScale[svc] == (if placed then p.now else p.lastScale[svc])
            && (placed ==> MayScaleUp(cfg, p, p.now, svc, target, r) && !InSlot(TickStart(p), target.value, svc)
                           && PlacedNow(cfg, r, |p.objects|, target.value, svc))
            && (!placed && MayScaleUp(cfg, p, p.now, svc, target, r) ==>
                  TakenBefore(TickStart(p), r, target.value, svc) || NoRoom(cfg, r, target.value, svc))
  {
    hide Core, CoverOk, Handle, ApplyProvision, Linked, GoodConfig, PlanInBounds, ChoiceLinked, ProvisionOk,
      ReadyKept, SlotsOk, IndexOk, ApplyScaling, Fresh, Grown, PlacedNow, NoRoom, InSlot, AroundDecision;
    var s1, m, after, r := TickAround(cfg, p, tau, choice, n, svc);
    AroundFacts(cfg, p, choice, n, svc, s1, m, after, r);
    placed := UpApplied(cfg, m, svc, target);
    if placed {
      PlacedStays(cfg, after, r, |m.objects|, target.value, svc);
      FewerBefore(cfg, r, |m.objects|, |p.objects|, target.value, svc);
    } else if MayScaleUp(cfg, p, p.now, svc, target, r) {
      if NoRoom(cfg, m, target.value, svc) {
        NoRoomStays(cfg, m, r, target.value, svc);
      }
    }
  }

  lemma FewerBefore(cfg: Config, r: State, limit: nat, fewer: nat, t: int, svc: int)
    requires PlacedNow(cfg, r, limit, t, svc) && fewer <= limit
    ensures PlacedNow(cfg, r, fewer, t, svc)
  {
  }

  lemma AroundFacts(cfg: Config, p: State, choice: Choice, n: nat, svc: int, s1: State, m: State, after: State,
                    r: State)
    requires GoodConfig(cfg) && Linked(cfg, p) && Linked(cfg, TickStart(p)) && ChoiceLinked(cfg, p, choice)
    requires choice.provision.TurnOff? ==> PlanInBounds(cfg, TickStart(p), choice.provision.plan)
    requires AroundDecision(cfg, p, choice, n, svc, s1, m, after, r)
    ensures Linked(cfg, m) && Fresh(m) && m.now == p.now && |p.objects| <= |m.objects|
    ensures n < |choice.scaling| && after == ApplyScaling(cfg, m, choice.scaling[n]) && SameService(after, r, svc)
    ensures svc in m.lastScale && svc in p.lastScale && m.lastScale[svc] == p.lastScale[svc]
    ensures forall t :: t in m.servers <==> t in r.servers
    ensures forall t :: t in m.servers ==> r.servers[t].phase == m.servers[t].phase
    ensures forall t :: InSlot(TickStart(p), t, svc) ==> InSlot(m, t, svc)
    ensures after == m ==> forall t :: InSlot(m, t, svc) ==> TakenBefore(TickStart(p), r, t, svc)
  {
    hide GoodConfig, Linked, PlanInBounds, ChoiceLinked, ReadyKept, SlotsOk, IndexOk, Newborn, LeavesInTime, Fresh,
      Stays, ApplyScaling;
    FreshKept(p, TickStart(p));
    forall t | InSlot(m, t, svc) && after == m ensures TakenBefore(TickStart(p), r, t, svc) {
      assert InSlot(s1, t, svc) && InSlot(r, t, svc);
    }
  }

  /** Over a tick of any run, a SCALE_UP places a copy on its target, an ACTIVE server,
      exactly if the service is out of cooldown, the slot is free and there is room
      beside what else is placed there; the copy is then starting. */
  lemma PlacedUnlessNoRoom(cfg: Config, rows: seq<Row>, selected: seq<int>, homes: seq<Slot>,
                           states: seq<State>, moves: seq<Move>, i: nat, n: nat, svc: int, target: Option<int>)
    returns (placed: bool)
    requires IsHistory(cfg, rows, selected, homes, states, moves) && i < |moves| && |states| == |moves| + 1
    requires moves[i].event in states[i].heap && states[i].heap[moves[i].event].kind.DecisionTick?
    requires OnlyDecision(moves[i].choice.scaling, n, svc) && svc in cfg.services
    requires moves[i].choice.scaling[n] == ScaleUp(svc, target)
    ensures var s, r := states[i], states[i + 1];
            && svc in r.lastScale && svc in s.lastScale
            && r.lastScale[svc] == (if placed then r.now else s.lastScale[svc])
            && (placed ==> MayScaleUp(cfg, s, r.now, svc, target, r) && !InSlot(s, target.value, svc)
                           && PlacedNow(cfg, r, |s.objects|, target.value, svc))
            && (!placed && MayScaleUp(cfg, s, r.now, svc, target, r) ==>
                  TakenBefore(s, r, target.value, svc) || NoRoom(cfg, r, target.value, svc))
  {
    hide IsHistory, IsRun, Prime, GoodStart, IsStep, Core, CoverOk, Popped, GoodConfig, Linked, ChoiceOk, ChoiceLinked,
      Handle, IsMin, WasLegitimate, PlacedNow, NoRoom, PlanInBounds, KindLinked, SameView, InSlot;
    var s, r, k, choice := states[i], states[i + 1], moves[i].event, moves[i].choice;
    HistoryStep(cfg, rows, selected, homes, states, moves, i);
    InvAlways(cfg, rows, selected, homes, states, moves, i);
    var tau :| Core(cfg, s, tau, {});
    StepParts(cfg, s, k, choice, r);
    PoppedKeeps(cfg, s, tau, k);
    StepChoice(cfg, s, k, choice, r);
    StepTime(cfg, s, tau, k, choice, r);
    var p := Popped(cfg, s, k);
    TickIsNow(cfg, p, tau);
    TickStartLinked(cfg, p);
    if choice.provision.TurnOff? {
      TickPlanInBounds(cfg, p, choice);
    }
    PoppedSteady(cfg, s, k);
    PoppedView(cfg, s, k);
    ViewSlots(s, TickStart(p));
    placed := UpAtTick(cfg, p, tau, choice, n, svc, target);
  }
}
