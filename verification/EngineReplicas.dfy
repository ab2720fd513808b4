/** The life of a replica over whole runs: its queue comes from the tables, it notes
    when it became READY, and once told to leave it goes when its time has come. */
module EngineReplicas {
  import opened Settings
  import opened ReplicaQueues
  import opened EngineModel
  import opened EngineInvariants
  import opened EngineClock
  import opened EngineReady
  import opened EngineServers
  import opened EngineHandlers
  import opened EngineDrain
  import opened EngineRuns
  import opened EnginePrime
  import opened EngineLedger
  import opened EngineAccounts
  import opened EngineTraffic
  import opened EngineLifecycle
  import opened EngineService
  import opened EngineFrames
  import opened EngineDecisions

  /** How a replica may change in one step. */
  ghost predicate Aged(cfg: Config, s: State, r: State, o: nat)
    requires o < |s.objects| && o < |r.objects|
  {
    var a, b := s.objects[o], r.objects[o];
    && SameMake(a, b)
    && (b.readySince == a.readySince
        || (a.phase == Starting && b.phase == Ready && b.readySince == Some(r.now)))
    && (b.phase == Starting ==> a.phase == Starting)
    && (b.phase == Ready && a.phase != Ready ==> a.phase == Starting && b.readySince == Some(r.now))
    && (b.phase == Leaving && a.phase != Leaving ==> LeavesInTime(cfg, r, o))
  }

  lemma StaysAged(cfg: Config, s: State, r: State, o: nat)
    requires o < |s.objects| && o < |r.objects| && Stays(cfg, s, r, o)
    ensures Aged(cfg, s, r, o)
  {
    hide LeavesInTime;
  }

  lemma SameReplicaAged(cfg: Config, s: State, r: State, o: nat)
    requires o < |s.objects| && o < |r.objects|
    requires r.objects[o] == s.objects[o].(queue := r.objects[o].queue)
    requires r.objects[o].queue.capacity == s.objects[o].queue.capacity
    requires r.objects[o].queue.exec == s.objects[o].queue.exec
    ensures Aged(cfg, s, r, o)
  {
    hide LeavesInTime;
  }

  lemma RoutedAged(cfg: Config, p: State, req: Request, selected: Option<nat>, o: nat)
    requires selected.Some? ==> selected.value < |p.objects|
    requires selected.Some? ==> p.objects[selected.value].server in cfg.servers
    requires selected.Some? ==> p.objects[selected.value].service in cfg.services
    requires req.service in cfg.services && o < |p.objects|
    ensures |HandleRouted(cfg, p, req, selected).objects| == |p.objects|
    ensures Aged(cfg, p, HandleRouted(cfg, p, req, selected), o)
  {
    hide NetworkDelayMs, ColdStartExtra, ResponseTime, Candidate, RecordRequest, Pending, Aged;
    SameReplicaAged(cfg, p, HandleRouted(cfg, p, req, selected), o);
  }

  lemma ReadyAged(cfg: Config, p: State, tau: real, slot: Slot, owner: nat, o: nat)
    requires Linked(cfg, p) && SlotsOk(p) && PhasesOk(p) && forall sid :: sid in p.servers ==> InStore(p, sid)
    requires slot.server in p.servers && WasLegitimate(cfg, p, tau, ReplicaReady(slot, owner)) && Fresh(p)
    requires GoodConfig(cfg) && o < |p.objects|
    ensures |HandleReady(cfg, p, slot).objects| == |p.objects|
    ensures Aged(cfg, p, HandleReady(cfg, p, slot), o)
  {
    hide PhasesOk, Linked, EventOk, GoodConfig, SlotsOk, Fresh;
    assert ReadyIsDue(cfg, p, slot, owner) by {
      LegitimateReadyIsDue(cfg, p, tau, slot, owner);
    }
    HandleReadyShape(cfg, p, slot, owner);
    var m, r := MarkReady(p, slot, owner), HandleReady(cfg, p, slot);
    assert m.objects == p.objects[owner := p.objects[owner].(phase := Ready, readySince := Some(p.now))];
    if SourceStillReady(p, slot) {
      var source := At(p, p.pending[slot], slot.service);
      FreshKept(p, m);
      RetireGrown(cfg, m, source);
      RetireOthersSame(cfg, m, source);
      assert Stays(cfg, m, r, o);
      MarkedAged(cfg, p, m, r, owner, o);
    } else {
      assert Stays(cfg, m, m, o);
      MarkedAged(cfg, p, m, m, owner, o);
    }
  }

  lemma RetireOthersSame(cfg: Config, m: State, o: nat)
    requires o < |m.objects|
    ensures forall x :: 0 <= x < |m.objects| && x != o ==> Retire(cfg, m, o).objects[x] == m.objects[x]
    ensures Retire(cfg, m, o).now == m.now
  {
  }

  lemma MarkedAged(cfg: Config, p: State, m: State, r: State, owner: nat, o: nat)
    requires owner < |p.objects| && o < |p.objects| == |m.objects| == |r.objects| && r.now == m.now == p.now
    requires p.objects[owner].phase == Starting
    requires m.objects == p.objects[owner := p.objects[owner].(phase := Ready, readySince := Some(p.now))]
    requires Stays(cfg, m, r, o) && r.objects[owner] == m.objects[owner]
    ensures Aged(cfg, p, r, o)
  {
    hide LeavesInTime;
  }

  lemma HandleAged(cfg: Config, p: State, tau: real, kind: Kind, choice: Choice, o: nat)
    requires GoodConfig(cfg) && Linked(cfg, p) && SlotsOk(p) && PhasesOk(p) && Fresh(p) && !kind.DecisionTick?
    requires WasLegitimate(cfg, p, tau, kind) && KindLinked(cfg, kind) && ChoiceLinked(cfg, p, choice)
    requires o < |p.objects|
    ensures |Handle(cfg, p, kind, choice).objects| == |p.objects|
    ensures Aged(cfg, p, Handle(cfg, p, kind, choice), o)
  {
    hide GoodConfig, Linked, SlotsOk, PhasesOk, WasLegitimate, HandleReady, HandleRouted, HandleGone, HandleDrainDone,
      HandleBootDone, Aged, Fresh;
    StoresOk(cfg, p);
    match kind
    case Arrival(at, svc) => SameReplicaAged(cfg, p, HandleArrival(cfg, p, at, svc), o);
    case Routed(req) =>
      RoutedServers(cfg, p, req, choice);
      RoutedAged(cfg, p, req, choice.selected, o);
    case BootDone(sid) => BootDoneAged(cfg, p, sid, choice.order, o);
    case DrainDone(sid) => DrainDoneAged(cfg, p, sid, o);
    case ReplicaReady(slot, owner) => ReadyAged(cfg, p, tau, slot, owner, o);
    case ReplicaGone(slot, owner) => GoneAged(cfg, p, slot, o);
    case EnergyResync => SameReplicaAged(cfg, p, p, o);
  }

  lemma BootDoneAged(cfg: Config, p: State, sid: int, order: seq<int>, o: nat)
    requires InStore(p, sid) && o < |p.objects|
    ensures HandleBootDone(cfg, p, sid, order).objects == p.objects
    ensures Aged(cfg, p, HandleBootDone(cfg, p, sid, order), o)
  {
    hide LeavesInTime;
  }

  lemma DrainDoneAged(cfg: Config, p: State, sid: int, o: nat)
    requires InStore(p, sid) && o < |p.objects|
    ensures HandleDrainDone(cfg, p, sid).objects == p.objects
    ensures Aged(cfg, p, HandleDrainDone(cfg, p, sid), o)
  {
    hide LeavesInTime, AllTerminated;
  }

  lemma GoneAged(cfg: Config, p: State, slot: Slot, o: nat)
    requires slot.server in p.servers && InStore(p, slot.server) && slot.service in p.byService && o < |p.objects|
    ensures |HandleGone(p, slot).objects| == |p.objects| && Aged(cfg, p, HandleGone(p, slot), o)
  {
    hide LeavesInTime, Without;
  }

  // ------------------------------------------------------------------
  // One step
  // ------------------------------------------------------------------

  ghost predicate AllAged(cfg: Config, s: State, r: State)
    requires GoodConfig(cfg)
  {
    && |s.objects| <= |r.objects|
    && (forall o :: 0 <= o < |s.objects| ==> Aged(cfg, s, r, o))
    && (forall o :: |s.objects| <= o < |r.objects| ==> Newborn(cfg, r.now, r.objects[o]))
  }

  lemma CoreFresh(cfg: Config, s: State, tau: real, handled: set<Kind>)
    requires Core(cfg, s, tau, handled)
    ensures Fresh(s)
  {
  }

  lemma GrownAged(cfg: Config, p: State, r: State)
    requires GoodConfig(cfg) && Grown(cfg, p, r)
    ensures AllAged(cfg, p, r)
  {
    hide GoodConfig, Stays, Newborn, Aged;
    forall o | 0 <= o < |p.objects| ensures Aged(cfg, p, r, o) {
      StaysAged(cfg, p, r, o);
    }
  }

  lemma SameObjectsAged(cfg: Config, s: State, p: State, r: State)
    requires GoodConfig(cfg) && AllAged(cfg, p, r) && s.objects == p.objects
    ensures AllAged(cfg, s, r)
  {
    hide GoodConfig, Newborn, LeavesInTime, SameMake;
    forall o | 0 <= o < |s.objects| ensures Aged(cfg, s, r, o) {
      assert Aged(cfg, p, r, o);
    }
  }

  lemma StepAges(cfg: Config, s: State, tau: real, k: nat, choice: Choice, r: State)
    requires Core(cfg, s, tau, {}) && CoverOk(s) && IsStep(cfg, s, k, choice, r)
    ensures GoodConfig(cfg) && AllAged(cfg, s, r)
  {
    hide Core, CoverOk, IsStep, Popped, GoodConfig, Linked, ChoiceLinked, KindLinked, Handle, IsMin, Aged, Newborn,
      Stays, WasLegitimate, Grown, AllAged, Fresh, PlanInBounds, SlotsOk, PhasesOk;
    StepParts(cfg, s, k, choice, r);
    PoppedKeeps(cfg, s, tau, k);
    var p, kind := Popped(cfg, s, k), s.heap[k].kind;
    PoppedSteady(cfg, s, k);
    CoreParts(cfg, p, tau, {kind});
    CoreFresh(cfg, p, tau, {kind});
    if kind.DecisionTick? {
      TickStartLinked(cfg, p);
      if choice.provision.TurnOff? {
        TickPlanInBounds(cfg, p, choice);
      }
      TickGrown(cfg, p, choice);
      GrownAged(cfg, TickStart(p), r);
      SameObjectsAged(cfg, s, TickStart(p), r);
    } else {
      OthersAged(cfg, p, tau, kind, choice);
      SameObjectsAged(cfg, s, p, r);
    }
  }

  lemma OthersAged(cfg: Config, p: State, tau: real, kind: Kind, choice: Choice)
    requires GoodConfig(cfg) && Linked(cfg, p) && SlotsOk(p) && PhasesOk(p) && Fresh(p) && !kind.DecisionTick?
    requires WasLegitimate(cfg, p, tau, kind) && KindLinked(cfg, kind) && ChoiceLinked(cfg, p, choice)
    ensures AllAged(cfg, p, Handle(cfg, p, kind, choice))
  {
    hide GoodConfig, Linked, SlotsOk, PhasesOk, WasLegitimate, Handle, Aged, Newborn, Fresh, KindLinked, ChoiceLinked;
    var r := Handle(cfg, p, kind, choice);
    HandleObjects(cfg, p, tau, kind, choice);
    forall o | 0 <= o < |p.objects| ensures Aged(cfg, p, r, o) {
      HandleAged(cfg, p, tau, kind, choice, o);
    }
  }

  lemma HandleObjects(cfg: Config, p: State, tau: real, kind: Kind, choice: Choice)
    requires GoodConfig(cfg) && Linked(cfg, p) && SlotsOk(p) && PhasesOk(p) && Fresh(p) && !kind.DecisionTick?
    requires WasLegitimate(cfg, p, tau, kind) && KindLinked(cfg, kind) && ChoiceLinked(cfg, p, choice)
    ensures |Handle(cfg, p, kind, choice).objects| == |p.objects|
  {
    hide GoodConfig, Linked, SlotsOk, PhasesOk, WasLegitimate, HandleReady, HandleRouted, HandleGone, HandleDrainDone,
      HandleBootDone, Fresh;
    StoresOk(cfg, p);
    match kind
    case Routed(req) =>
      RoutedServers(cfg, p, req, choice);
      RoutedIsChange(cfg, p, req, choice.selected);
    case BootDone(sid) => BootDoneObjects(cfg, p, sid, choice.order);
    case DrainDone(sid) => DrainDoneObjects(cfg, p, sid);
    case ReplicaReady(slot, _) => ReadyObjects(cfg, p, slot);
    case ReplicaGone(slot, _) => GoneObjects(cfg, p, slot);
    case _ =>
  }

  lemma BootDoneObjects(cfg: Config, p: State, sid: int, order: seq<int>)
    requires InStore(p, sid)
    ensures HandleBootDone(cfg, p, sid, order).objects == p.objects
  {
  }

  lemma DrainDoneObjects(cfg: Config, p: State, sid: int)
    requires InStore(p, sid)
    ensures HandleDrainDone(cfg, p, sid).objects == p.objects
  {
    hide AllTerminated;
  }

  lemma ReadyObjects(cfg: Config, p: State, slot: Slot)
    requires slot.server in p.servers && forall sid :: sid in p.servers ==> InStore(p, sid)
    ensures |HandleReady(cfg, p, slot).objects| == |p.objects|
  {
    hide Retire;
  }

  lemma GoneObjects(cfg: Config, p: State, slot: Slot)
    requires slot.server in p.servers && InStore(p, slot.server) && slot.service in p.byService
    ensures |HandleGone(p, slot).objects| == |p.objects|
  {
    hide Without;
  }

  // ------------------------------------------------------------------
  // Whole runs
  // ------------------------------------------------------------------

  lemma {:induction false} HomeAllGrown(cfg: Config, s: State, homes: seq<Slot>)
    requires GoodConfig(cfg) && Linked(cfg, s) && HomesInBounds(cfg, homes) && Fresh(s)
    ensures Grown(cfg, s, HomeAll(cfg, s, homes))
    decreases |homes|
  {
    hide GoodConfig, Linked, Place, Stays, Newborn, Fresh;
    if homes == [] {
      FreshKept(s, s);
      SameObjectsGrown(cfg, s, s);
    } else {
      var n := |homes| - 1;
      var m := HomeAll(cfg, s, homes[..n]);
      HomeAllGrown(cfg, s, homes[..n]);
      KnownServer(cfg, m, homes, n);
      PlaceGrown(cfg, m, homes[n].server, homes[n].service);
      GrownTrans(cfg, s, m, HomeAll(cfg, s, homes));
    }
  }

  lemma {:induction false} BootAllObjects(cfg: Config, s: State, selected: seq<int>)
    requires forall i :: 0 <= i < |selected| ==> selected[i] in s.servers
    ensures BootAll(cfg, s, selected).objects == s.objects && BootAll(cfg, s, selected).now == s.now
    decreases |selected|
  {
    if selected != [] {
      BootAllObjects(cfg, s, selected[..|selected| - 1]);
    }
  }

  /** The first replicas are newly placed. */
  lemma PrimeNewborn(cfg: Config, rows: seq<Row>, selected: seq<int>, homes: seq<Slot>)
    requires GoodStart(cfg, rows, selected, homes)
    ensures var s := Prime(cfg, rows, selected, homes);
            forall o :: 0 <= o < |s.objects| ==> Newborn(cfg, s.now, s.objects[o])
  {
    hide BootAll, HomeAll, Works, PushArrivals, Fresh, Newborn, Stays;
    var s0 := Blank(cfg, rows);
    var s1 := PushArrivals(s0, rows);
    PushArrivalsFrame(s0, rows);
    PushArrivalsTraffic(s0, rows);
    BootAllLinked(cfg, s1, selected);
    BootAllWorks(cfg, s1, selected);
    WorksTraffic(cfg, s1, BootAll(cfg, s1, selected));
    BootAllObjects(cfg, s1, selected);
    HomeAllGrown(cfg, BootAll(cfg, s1, selected), homes);
  }

  /** In step j the replica became READY, at this time. */
  ghost predicate BecameReady(states: seq<State>, j: int, o: nat, time: real) {
    && 0 <= j && j + 1 < |states| && o < |states[j].objects| && o < |states[j + 1].objects|
    && states[j].objects[o].phase == Starting && states[j + 1].objects[o].phase == Ready
    && states[j + 1].now == time
  }

  /** The queue comes from the tables, and the time noted is that of becoming READY. */
  ghost predicate LifeOk(cfg: Config, states: seq<State>, i: nat, o: nat)
    requires i < |states| && o < |states[i].objects| && GoodConfig(cfg)
  {
    var r := states[i].objects[o];
    && r.server in cfg.servers && r.service in cfg.services
    && GoodServer(cfg, cfg.servers[r.server]) && GoodService(cfg.services[r.service])
    && r.queue.capacity == cfg.services[r.service].queueLen && r.queue.exec == ExecTime(cfg, r.server, r.service)
    && (r.phase == Starting ==> r.readySince == None) && (r.phase == Ready ==> r.readySince.Some?)
    && (r.readySince.Some? ==> exists j :: j < i && BecameReady(states, j, o, r.readySince.value))
  }

  lemma NewbornLife(cfg: Config, states: seq<State>, i: nat, o: nat)
    requires GoodConfig(cfg) && i < |states| && o < |states[i].objects|
    requires Newborn(cfg, states[i].now, states[i].objects[o])
    ensures LifeOk(cfg, states, i, o)
  {
    var r := states[i].objects[o];
    assert GoodServer(cfg, cfg.servers[r.server]) && GoodService(cfg.services[r.service]);
  }

  lemma AgedLife(cfg: Config, states: seq<State>, i: nat, o: nat)
    requires GoodConfig(cfg) && 0 < i < |states| && o < |states[i - 1].objects| && o < |states[i].objects|
    requires LifeOk(cfg, states, i - 1, o) && Aged(cfg, states[i - 1], states[i], o)
    ensures LifeOk(cfg, states, i, o)
  {
    hide GoodConfig, LeavesInTime, GoodServer, GoodService, ExecTime;
    var a, b := states[i - 1].objects[o], states[i].objects[o];
    if b.readySince.Some? {
      if b.readySince == a.readySince {
        var j :| j < i - 1 && BecameReady(states, j, o, a.readySince.value);
        assert BecameReady(states, j, o, b.readySince.value);
      } else {
        assert BecameReady(states, i - 1, o, b.readySince.value);
      }
    }
  }

  /** In every state of every run each replica has the queue length of its service and
      executes it at the speed of its host, and the time it notes is that of the step
      in which it became READY. */
  lemma {:induction false} LifeAlways(cfg: Config, rows: seq<Row>, selected: seq<int>, homes: seq<Slot>,
                                      states: seq<State>, moves: seq<Move>, i: nat, o: nat)
    requires IsHistory(cfg, rows, selected, homes, states, moves) && i < |states| && o < |states[i].objects|
    ensures GoodConfig(cfg) && LifeOk(cfg, states, i, o)
  {
    hide IsRun, IsStep, Prime, Core, CoverOk, LifeOk, Aged, Newborn, GoodConfig;
    if i == 0 {
      PrimeNewborn(cfg, rows, selected, homes);
      NewbornLife(cfg, states, 0, o);
    } else {
      HistoryLength(cfg, rows, selected, homes, states, moves);
      HistoryStep(cfg, rows, selected, homes, states, moves, i - 1);
      InvAlways(cfg, rows, selected, homes, states, moves, i - 1);
      var tau :| Core(cfg, states[i - 1], tau, {});
      StepAges(cfg, states[i - 1], tau, moves[i - 1].event, moves[i - 1].choice, states[i]);
      if o < |states[i - 1].objects| {
        LifeAlways(cfg, rows, selected, homes, states, moves, i - 1, o);
        AgedLife(cfg, states, i, o);
      } else {
        NewbornLife(cfg, states, i, o);
      }
    }
  }

  /** Over any step of any run, a replica that begins to leave has its termination due
      after the graceful delay, or with its last departure if that is later. */
  lemma LeavesGracefully(cfg: Config, rows: seq<Row>, selected: seq<int>, homes: seq<Slot>,
                         states: seq<State>, moves: seq<Move>, i: nat, o: nat)
    requires IsHistory(cfg, rows, selected, homes, states, moves) && i < |moves| && |states| == |moves| + 1
    requires o < |states[i].objects| && states[i].objects[o].phase != Leaving
    requires o < |states[i + 1].objects| && states[i + 1].objects[o].phase == Leaving
    ensures var r := states[i + 1];
            var gone := ReplicaGone(Slot(r.objects[o].server, r.objects[o].service), o);
            var available := r.objects[o].queue.availableAt;
            exists k :: k in r.heap && r.heap[k].kind == gone
                        && r.heap[k].time == (if available <= r.now + cfg.delays.graceful
                                              then r.now + cfg.delays.graceful else available)
  {
    hide IsHistory, IsRun, IsStep, Core, CoverOk, GoodConfig, LeavesInTime, Newborn;
    HistoryStep(cfg, rows, selected, homes, states, moves, i);
    InvAlways(cfg, rows, selected, homes, states, moves, i);
    var tau :| Core(cfg, states[i], tau, {});
    StepAges(cfg, states[i], tau, moves[i].event, moves[i].choice, states[i + 1]);
    assert Aged(cfg, states[i], states[i + 1], o);
    DueToLeave(cfg, states[i + 1], o);
  }

  lemma DueToLeave(cfg: Config, r: State, o: nat)
    requires o < |r.objects| && LeavesInTime(cfg, r, o)
    ensures var gone := ReplicaGone(Slot(r.objects[o].server, r.objects[o].service), o);
            var available := r.objects[o].queue.availableAt;
            exists k :: k in r.heap && r.heap[k].kind == gone
                        && r.heap[k].time == (if available <= r.now + cfg.delays.graceful
                                              then r.now + cfg.delays.graceful else available)
  {
  }
}
