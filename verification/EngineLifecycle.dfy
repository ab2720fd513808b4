/** The life of servers and replicas over whole runs: events meet the objects
    they were scheduled for, some server stays ACTIVE, an ACTIVE stint lasts, and
    a drain ends in time. */
module EngineLifecycle {
  import opened Collections
  import opened Settings
  import opened ReplicaQueues
  import opened EngineModel
  import opened EngineInvariants
  import opened EngineClock
  import opened EngineBoot
  import opened EngineServers
  import opened EngineHandlers
  import opened EngineTick
  import opened EngineDrain
  import opened EngineRuns
  import opened EnginePrime
  import opened EngineLedger
  import opened EngineAccounts

  // ------------------------------------------------------------------
  // The heap matches the objects
  // ------------------------------------------------------------------

  ghost predicate ExactlyOne(heap: map<nat, Event>, kind: Kind) {
    exists k :: IsTheOnly(heap, kind, k)
  }

  ghost predicate IsTheOnly(heap: map<nat, Event>, kind: Kind, k: nat) {
    k in heap && heap[k].kind == kind && forall j :: j in heap && heap[j].kind == kind ==> j == k
  }

  lemma DueOnce(heap: map<nat, Event>, kind: Kind)
    requires UniqueOk(heap) && Single(kind) && HasEvent(heap, kind)
    ensures ExactlyOne(heap, kind)
  {
    var k :| k in heap && heap[k].kind == kind;
    assert IsTheOnly(heap, kind, k);
  }

  /** Exactly one boot event per BOOTING server, exactly one drain event per
      DRAINING server, none for any other, and an OFF server hosts nothing. */
  lemma HeapMatchesServers(cfg: Config, s: State, tau: real, sid: int)
    requires Core(cfg, s, tau, {}) && sid in s.servers
    ensures if s.servers[sid].phase == Booting then ExactlyOne(s.heap, BootDone(sid))
            else !HasEvent(s.heap, BootDone(sid))
    ensures if s.servers[sid].phase == Draining then ExactlyOne(s.heap, DrainDone(sid))
            else !HasEvent(s.heap, DrainDone(sid))
    ensures s.servers[sid].phase == Off ==> s.servers[sid].hosted == map[]
  {
    hide Linked, IndexOk, CapacityOk, GonePairsOk, SlotsArmed, PendingOk, RescueOk, QueuesOk, MetersOk, DrainBoundOk;
    assert ServerArmed(s, sid, {});
    forall k | k in s.heap
      ensures s.heap[k].kind == BootDone(sid) ==> s.servers[sid].phase == Booting
      ensures s.heap[k].kind == DrainDone(sid) ==> s.servers[sid].phase == Draining
    {
      assert EventOk(cfg, s, tau, s.heap[k]);
    }
    if s.servers[sid].phase == Booting {
      DueOnce(s.heap, BootDone(sid));
    }
    if s.servers[sid].phase == Draining {
      DueOnce(s.heap, DrainDone(sid));
    }
    if s.servers[sid].phase == Off {
      forall v ensures v !in s.servers[sid].hosted {
        OffIsEmpty(s, sid, v);
      }
    }
  }

  /** Every replica still starting on an ACTIVE server has exactly one ready
      event, and every leaving replica has a termination event. */
  lemma HeapMatchesReplicas(cfg: Config, s: State, tau: real, sid: int, v: int)
    requires Core(cfg, s, tau, {}) && InSlot(s, sid, v)
    ensures At(s, sid, v) < |s.objects|
    ensures s.servers[sid].phase == Active && s.objects[At(s, sid, v)].phase == Starting ==>
              ExactlyOne(s.heap, ReplicaReady(Slot(sid, v), At(s, sid, v)))
    ensures s.objects[At(s, sid, v)].phase == Leaving ==> HasEvent(s.heap, ReplicaGone(Slot(sid, v), At(s, sid, v)))
  {
    hide Linked, IndexOk, CapacityOk, GonePairsOk, EventsOk, PendingOk, RescueOk, QueuesOk, MetersOk, DrainBoundOk,
      PhasesOk;
    assert SlotOk(s, sid, v) && SlotArmed(s, sid, v, {});
    if s.servers[sid].phase == Active && s.objects[At(s, sid, v)].phase == Starting {
      DueOnce(s.heap, ReplicaReady(Slot(sid, v), At(s, sid, v)));
    }
  }

  /** What the handler of a replica event finds in the slot, although the event
      carries only (server, service). */
  ghost predicate MeetsOwner(p: State, kind: Kind) {
    match kind
    case ReplicaReady(slot, owner) =>
      && InSlot(p, slot.server, slot.service) && At(p, slot.server, slot.service) == owner
      && owner < |p.objects| && p.objects[owner].phase == Starting && p.servers[slot.server].phase == Active
    case ReplicaGone(slot, owner) =>
      InSlot(p, slot.server, slot.service) ==>
        && At(p, slot.server, slot.service) == owner && owner < |p.objects|
        && p.objects[owner].phase == Leaving
        && p.objects[owner].queue.availableAt <= p.now && Occupancy(p.objects[owner].queue, p.now) == 0
    case BootDone(sid) => sid in p.servers && p.servers[sid].phase == Booting
    case DrainDone(sid) => sid in p.servers && p.servers[sid].phase == Draining
    case _ => true
  }

  /** A replica is empty once its last departure has passed. */
  lemma EmptyWhenAvailable(q: Queue, now: real)
    requires Consistent(q) && q.availableAt <= now
    ensures Occupancy(q, now) == 0
  {
    PendingIsTheFuture(q.departures, now);
    var n := |q.departures|;
    if n > 0 {
      assert q.departures[n - 1] <= now;
    }
  }

  /** Every event meets the object it was scheduled for; a termination finds that
      very replica with an empty queue, or an empty slot, and nothing else. */
  lemma EventMeetsOwner(cfg: Config, s: State, tau: real, k: nat)
    requires Core(cfg, s, tau, {}) && CoverOk(s) && IsMin(s.heap, k)
    ensures MeetsOwner(Popped(cfg, s, k), s.heap[k].kind)
  {
    hide SlotsOk, IndexOk, CapacityOk, PhasesOk, EventsOk, UniqueOk, GonePairsOk, ServersArmed, SlotsArmed,
      PendingOk, RescueOk, MetersOk, DrainBoundOk, CoverOk, HandledOk, Popped;
    PoppedKeeps(cfg, s, tau, k);
    var p := Popped(cfg, s, k);
    match s.heap[k].kind
    case ReplicaGone(slot, owner) =>
      if InSlot(p, slot.server, slot.service) {
        assert QueueOk(p, owner);
        EmptyWhenAvailable(p.objects[owner].queue, p.now);
      }
    case _ =>
  }

  /** A termination event that finds its slot empty changes nothing. */
  lemma StaleTerminationIsNoOp(p: State, slot: Slot)
    requires slot.server in p.servers && !InSlot(p, slot.server, slot.service)
    ensures HandleGone(p, slot) == p
  {
  }

  // ------------------------------------------------------------------
  // Phases over one step
  // ------------------------------------------------------------------

  /** The cycle OFF, BOOTING, ACTIVE, DRAINING, OFF, with the gates of a TURN_OFF. */
  ghost predicate PhaseStep(cfg: Config, p: State, r: State, sid: int)
    requires sid in p.servers && sid in r.servers
  {
    var x, y := p.servers[sid], r.servers[sid];
    || (y.phase == x.phase && y.lastTransition == x.lastTransition)
    || (y.lastTransition == r.now && (
         || (x.phase == Off && y.phase == Booting)
         || (x.phase == Booting && y.phase == Active)
         || (x.phase == Active && y.phase == Draining && r.now - x.lastTransition >= cfg.delays.minActive
             && |ActiveServers(p)| > 1)
         || (x.phase == Draining && y.phase == Off)))
  }

  /** All servers move along the cycle, and at most one (d) leaves ACTIVE. */
  ghost predicate PhasesStep(cfg: Config, p: State, r: State, d: int) {
    && r.servers.Keys == p.servers.Keys
    && (forall sid :: sid in p.servers ==> PhaseStep(cfg, p, r, sid))
    && (forall sid :: sid in p.servers && p.servers[sid].phase == Active && r.servers[sid].phase != Active ==> sid == d)
  }

  lemma WorksPhases(cfg: Config, p: State, r: State, d: int)
    requires Works(cfg, p, r)
    ensures PhasesStep(cfg, p, r, d)
  {
    hide SameTraffic, Balanced;
    WorksKeys(cfg, p, r);
    forall sid | sid in p.servers ensures PhaseStep(cfg, p, r, sid) {
      assert SamePhase(p, r, sid) || BegunBoot(p, r, sid);
    }
    forall sid | sid in p.servers ensures p.servers[sid].phase == Active ==> r.servers[sid].phase == Active {
      assert SamePhase(p, r, sid) || BegunBoot(p, r, sid);
    }
  }

  /** An emergency flag never shortens an ACTIVE stint: it is cleared at boot completion. */
  lemma NoEmergencyWhileActive(s: State, sid: int)
    requires RescueOk(s) && sid in s.servers && s.servers[sid].phase == Active
    ensures !s.servers[sid].emergency
  {
  }

  lemma TickPhases(cfg: Config, p: State, choice: Choice) returns (d: int)
    requires GoodConfig(cfg) && Linked(cfg, p) && ChoiceLinked(cfg, p, choice) && RescueOk(p)
    ensures PhasesStep(cfg, p, Handle(cfg, p, DecisionTick, choice), d)
  {
    hide GoodConfig, Unmigrated, ChoiceLinked, Handle, Works, RescueOk, PlanInBounds;
    if choice.provision.TurnOff? {
      TickPlanInBounds(cfg, p, choice);
    }
    TickWorks(cfg, p, choice);
    var s0 := TickStart(p);
    var m := Marked(cfg, s0, choice.provision);
    var r := Handle(cfg, p, DecisionTick, choice);
    d := if choice.provision.TurnOff? then choice.provision.server else 0;
    WorksOnPhases(cfg, m, r);
    if Drains(cfg, s0, choice.provision) {
      assert ActiveServers(s0) == ActiveServers(p);
      NoEmergencyWhileActive(p, d);
    }
    MarkedPhases(cfg, p, s0, m, r, choice.provision, d);
  }

  lemma MarkedPhases(cfg: Config, p: State, s0: State, m: State, r: State, action: Provision, d: int)
    requires GoodConfig(cfg) && Linked(cfg, s0) && s0 == TickStart(p)
    requires action.TurnOff? ==> PlanInBounds(cfg, s0, action.plan) && d == action.server
    requires m == Marked(cfg, s0, action) && r.servers.Keys == m.servers.Keys && r.now == m.now
    requires forall sid :: sid in m.servers ==> SamePhase(m, r, sid) || BegunBoot(m, r, sid)
    requires Drains(cfg, s0, action) ==> |ActiveServers(p)| > 1 && !p.servers[d].emergency
    ensures PhasesStep(cfg, p, r, d)
  {
    hide GoodConfig, Linked, Unmigrated, PlanInBounds, ActiveServers;
    forall sid | sid in p.servers
      ensures PhaseStep(cfg, p, r, sid)
      ensures p.servers[sid].phase == Active && r.servers[sid].phase != Active ==> sid == d
    {
      assert SamePhase(m, r, sid) || BegunBoot(m, r, sid);
    }
  }

  lemma WorksOnPhases(cfg: Config, m: State, r: State)
    requires Works(cfg, m, r)
    ensures r.servers.Keys == m.servers.Keys && r.now == m.now
    ensures forall sid :: sid in m.servers ==> SamePhase(m, r, sid) || BegunBoot(m, r, sid)
  {
  }

  lemma BootDonePhases(cfg: Config, p: State, sid: int, order: seq<int>)
    requires InStore(p, sid) && p.servers[sid].phase == Booting
    ensures PhasesStep(cfg, p, HandleBootDone(cfg, p, sid, order), sid)
  {
  }

  lemma DrainDonePhases(cfg: Config, p: State, sid: int)
    requires InStore(p, sid) && p.servers[sid].phase == Draining
    ensures PhasesStep(cfg, p, HandleDrainDone(cfg, p, sid), sid)
  {
  }

  lemma HandlePhases(cfg: Config, p: State, tau: real, kind: Kind, choice: Choice) returns (d: int)
    requires GoodConfig(cfg) && Linked(cfg, p) && RescueOk(p)
    requires WasLegitimate(cfg, p, tau, kind) && KindLinked(cfg, kind) && ChoiceLinked(cfg, p, choice)
    ensures PhasesStep(cfg, p, Handle(cfg, p, kind, choice), d)
  {
    hide RescueOk, HandleRouted, RoutingDelay;
    assert forall sid :: sid in p.servers ==> InStore(p, sid);
    d := 0;
    match kind
    case DecisionTick => d := TickPhases(cfg, p, choice);
    case Routed(req) => RoutedIsChange(cfg, p, req, choice.selected);
    case BootDone(sid) => d := sid; BootDonePhases(cfg, p, sid, choice.order);
    case DrainDone(sid) => d := sid; DrainDonePhases(cfg, p, sid);
    case ReplicaReady(slot, o) =>
      ReadyWorks(cfg, p, slot);
      WorksPhases(cfg, p, HandleReady(cfg, p, slot), d);
    case _ =>
  }

  /** Popping and metering leave the phases alone. */
  lemma StepPhases(cfg: Config, s: State, tau: real, k: nat, choice: Choice, r: State) returns (d: int)
    requires Core(cfg, s, tau, {}) && CoverOk(s) && IsStep(cfg, s, k, choice, r)
    ensures PhasesStep(cfg, s, r, d) && s.now <= r.now
  {
    hide Core, CoverOk, IsStep, WasLegitimate, Handle, Popped, GoodConfig, Linked, ChoiceLinked, KindLinked, IsMin;
    StepParts(cfg, s, k, choice, r);
    PoppedKeeps(cfg, s, tau, k);
    var p := Popped(cfg, s, k);
    CoreRescue(cfg, p, tau, {s.heap[k].kind});
    d := HandlePhases(cfg, p, tau, s.heap[k].kind, choice);
    HandleNow(cfg, p, s.heap[k].kind, choice);
    PoppedPhases(cfg, s, k, r, d);
  }

  lemma CoreRescue(cfg: Config, s: State, tau: real, handled: set<Kind>)
    requires Core(cfg, s, tau, handled)
    ensures RescueOk(s)
  {
  }

  lemma PoppedPhases(cfg: Config, s: State, k: nat, r: State, d: int)
    requires GoodConfig(cfg) && Linked(cfg, s) && k in s.heap && PhasesStep(cfg, Popped(cfg, s, k), r, d)
    ensures PhasesStep(cfg, s, r, d)
  {
    hide Metered, GoodConfig, Linked;
    var p := Popped(cfg, s, k);
    assert ActiveServers(p) == ActiveServers(s);
    forall sid | sid in s.servers
      ensures PhaseStep(cfg, s, r, sid)
      ensures s.servers[sid].phase == Active && r.servers[sid].phase != Active ==> sid == d
    {
      assert PhaseStep(cfg, p, r, sid);
    }
  }

  /** Consecutive states of a history are one phase step apart. */
  lemma HistoryPhases(cfg: Config, rows: seq<Row>, selected: seq<int>, homes: seq<Slot>,
                      states: seq<State>, moves: seq<Move>, i: nat) returns (d: int)
    requires IsHistory(cfg, rows, selected, homes, states, moves) && i < |moves|
    ensures PhasesStep(cfg, states[i], states[i + 1], d) && states[i].now <= states[i + 1].now
  {
    hide Prime, IsStep, Core, CoverOk, GoodStart;
    InvAlways(cfg, rows, selected, homes, states, moves, i);
    var tau :| Core(cfg, states[i], tau, {});
    d := StepPhases(cfg, states[i], tau, moves[i].event, moves[i].choice, states[i + 1]);
  }

  /** The clock never runs backwards. */
  lemma {:induction false} TimeMovesForward(cfg: Config, rows: seq<Row>, selected: seq<int>, homes: seq<Slot>,
                                            states: seq<State>, moves: seq<Move>, i: nat, j: nat)
    requires IsHistory(cfg, rows, selected, homes, states, moves) && i <= j < |states|
    ensures states[i].now <= states[j].now
    decreases j
  {
    hide IsHistory, IsRun, PhasesStep;
    if i < j {
      HistoryLength(cfg, rows, selected, homes, states, moves);
      TimeMovesForward(cfg, rows, selected, homes, states, moves, i, j - 1);
      var d := HistoryPhases(cfg, rows, selected, homes, states, moves, j - 1);
    }
  }

  /** Server sid hosts replica o for service v. */
  ghost predicate HostsAs(s: State, sid: int, v: int, o: nat) {
    InSlot(s, sid, v) && At(s, sid, v) == o
  }

  /** In every state of every run the per-service index lists exactly the hosted
      replicas, each once, and no host is over its capacity. */
  lemma IndexAndCapacityAgree(cfg: Config, rows: seq<Row>, selected: seq<int>, homes: seq<Slot>,
                              states: seq<State>, moves: seq<Move>, i: nat)
    requires IsHistory(cfg, rows, selected, homes, states, moves) && i < |states|
    ensures var s := states[i];
            && GoodConfig(cfg) && s.servers.Keys == cfg.servers.Keys && s.byService.Keys == cfg.services.Keys
            && (forall v :: v in s.byService ==> Distinct(s.byService[v]))
            && (forall v, o: nat :: v in s.byService ==> (o in s.byService[v] <==> exists sid :: HostsAs(s, sid, v, o)))
            && (forall sid :: sid in s.servers ==> UsedCpu(cfg, s, sid) <= cfg.servers[sid].capacity)
  {
    hide IsHistory, PhasesOk, EventsOk, UniqueOk, GonePairsOk, ServersArmed, SlotsArmed, PendingOk, RescueOk, QueuesOk,
      MetersOk, DrainBoundOk, CoverOk, HandledOk, UsedCpu;
    InvAlways(cfg, rows, selected, homes, states, moves, i);
    var s := states[i];
    var tau :| Core(cfg, s, tau, {});
    forall v, o: nat | v in s.byService ensures o in s.byService[v] <==> exists sid :: HostsAs(s, sid, v, o) {
      if o in s.byService[v] {
        assert ListedOk(s, v, o);
        assert HostsAs(s, s.objects[o].server, v, o);
      }
    }
  }

  // ------------------------------------------------------------------
  // Some server stays ACTIVE
  // ------------------------------------------------------------------

  ghost predicate SomeActive(s: State) {
    exists sid :: sid in s.servers && s.servers[sid].phase == Active
  }

  lemma ActiveSurvives(cfg: Config, s: State, r: State, d: int)
    requires PhasesStep(cfg, s, r, d) && SomeActive(s)
    ensures SomeActive(r)
  {
    var a :| a in s.servers && s.servers[a].phase == Active;
    if r.servers[a].phase != Active {
      assert PhaseStep(cfg, s, r, a) && a in ActiveServers(s);
      var others := ActiveServers(s) - {a};
      assert |others| > 0;
      var b := Pick(others);
      assert b in s.servers && s.servers[b].phase == Active && b != d;
      assert r.servers[b].phase == Active;
    } else {
      assert a in r.servers;
    }
  }

  /** Once some server is ACTIVE there is always one. */
  lemma {:induction false} ActiveForever(cfg: Config, rows: seq<Row>, selected: seq<int>, homes: seq<Slot>,
                                         states: seq<State>, moves: seq<Move>, i: nat, j: nat)
    requires IsHistory(cfg, rows, selected, homes, states, moves) && i <= j < |states|
    requires SomeActive(states[i])
    ensures SomeActive(states[j])
    decreases j
  {
    hide IsHistory, IsRun, SomeActive, PhasesStep;
    if i < j {
      ActiveForever(cfg, rows, selected, homes, states, moves, i, j - 1);
      HistoryLength(cfg, rows, selected, homes, states, moves);
      var d := HistoryPhases(cfg, rows, selected, homes, states, moves, j - 1);
      ActiveSurvives(cfg, states[j - 1], states[j], d);
    }
  }

  lemma HistoryLength(cfg: Config, rows: seq<Row>, selected: seq<int>, homes: seq<Slot>,
                      states: seq<State>, moves: seq<Move>)
    requires IsHistory(cfg, rows, selected, homes, states, moves)
    ensures |states| == |moves| + 1
  {
  }

  // ------------------------------------------------------------------
  // An ACTIVE stint lasts
  // ------------------------------------------------------------------

  ghost predicate PhaseThroughout(states: seq<State>, sid: int, phase: ServerPhase, i: int, j: int) {
    && 0 <= i <= j < |states|
    && forall k :: i <= k <= j ==> sid in states[k].servers && states[k].servers[sid].phase == phase
  }

  /** While a server keeps its phase, the time of its last transition stays too. */
  lemma {:induction false} StintKeepsStart(cfg: Config, rows: seq<Row>, selected: seq<int>, homes: seq<Slot>,
                                           states: seq<State>, moves: seq<Move>, sid: int, phase: ServerPhase,
                                           i: nat, j: nat)
    requires IsHistory(cfg, rows, selected, homes, states, moves) && PhaseThroughout(states, sid, phase, i, j)
    ensures states[j].servers[sid].lastTransition == states[i].servers[sid].lastTransition
    decreases j
  {
    hide IsHistory, IsRun;
    if i < j {
      StintKeepsStart(cfg, rows, selected, homes, states, moves, sid, phase, i, j - 1);
      HistoryLength(cfg, rows, selected, homes, states, moves);
      var d := HistoryPhases(cfg, rows, selected, homes, states, moves, j - 1);
      assert PhaseStep(cfg, states[j - 1], states[j], sid);
    }
  }

  /** Every ACTIVE stint, emergency boots included, lasts at least the minimum
      active duration: states i + 1 to j are the whole stint. */
  lemma ActiveStintLasts(cfg: Config, rows: seq<Row>, selected: seq<int>, homes: seq<Slot>,
                         states: seq<State>, moves: seq<Move>, sid: int, i: nat, j: nat)
    requires IsHistory(cfg, rows, selected, homes, states, moves)
    requires i < j && j + 1 < |states| && PhaseThroughout(states, sid, Active, i + 1, j)
    requires sid in states[i].servers && states[i].servers[sid].phase != Active
    requires sid in states[j + 1].servers && states[j + 1].servers[sid].phase != Active
    ensures states[j + 1].servers[sid].phase == Draining
    ensures states[j + 1].now - states[i + 1].now >= cfg.delays.minActive
  {
    hide IsHistory, IsRun, ActiveServers;
    HistoryLength(cfg, rows, selected, homes, states, moves);
    StintKeepsStart(cfg, rows, selected, homes, states, moves, sid, Active, i + 1, j);
    var d := HistoryPhases(cfg, rows, selected, homes, states, moves, i);
    assert PhaseStep(cfg, states[i], states[i + 1], sid);
    d := HistoryPhases(cfg, rows, selected, homes, states, moves, j);
    assert PhaseStep(cfg, states[j], states[j + 1], sid);
  }

  // ------------------------------------------------------------------
  // A drain ends in time
  // ------------------------------------------------------------------

  /** The latest departure accepted by any replica of this server. */
  function Backlog(objects: seq<Replica>, sid: int, floor: real): (b: real)
    ensures b >= floor
  {
    if objects == [] then floor
    else
      var n := |objects| - 1;
      var b := Backlog(objects[..n], sid, floor);
      if objects[n].server == sid then Later(b, objects[n].queue.availableAt) else b
  }

  lemma {:induction false} BacklogCovers(objects: seq<Replica>, sid: int, floor: real, o: nat)
    requires o < |objects| && objects[o].server == sid
    ensures objects[o].queue.availableAt <= Backlog(objects, sid, floor)
  {
    var n := |objects| - 1;
    if o < n {
      BacklogCovers(objects[..n], sid, floor, o);
    }
  }

  /** When the current drain of a server must be over. */
  function DrainDeadline(cfg: Config, s: State, sid: int): real
    requires sid in s.servers
  {
    Backlog(s.objects, sid, s.servers[sid].lastTransition + cfg.delays.startup + cfg.delays.graceful)
    + cfg.delays.grace
  }

  /** A server is DRAINING at most until pod startup plus graceful termination
      (or the longest accepted backlog) plus one grace period after the drain began. */
  lemma DrainIsBounded(cfg: Config, s: State, tau: real, sid: int)
    requires Core(cfg, s, tau, {}) && sid in s.servers && s.servers[sid].phase == Draining
    ensures s.now <= DrainDeadline(cfg, s, sid)
  {
    hide Linked, IndexOk, CapacityOk, GonePairsOk, SlotsArmed, PendingOk, RescueOk, QueuesOk, MetersOk, PhasesOk;
    assert ServerArmed(s, sid, {});
    var k :| k in s.heap && s.heap[k].kind == DrainDone(sid);
    assert EventOk(cfg, s, tau, s.heap[k]);
    var t := s.heap[k].time - cfg.delays.grace;
    assert DueInTime(cfg, s, sid, t);
    if t > s.servers[sid].lastTransition + cfg.delays.startup + cfg.delays.graceful {
      var o :| 0 <= o < |s.objects| && s.objects[o].server == sid && t <= s.objects[o].queue.availableAt;
      BacklogCovers(s.objects, sid, s.servers[sid].lastTransition + cfg.delays.startup + cfg.delays.graceful, o);
    }
  }

  /** In every run, a drain that began in state i is over once its deadline has
      passed: the server is not DRAINING through to such a state j. */
  lemma DrainEnds(cfg: Config, rows: seq<Row>, selected: seq<int>, homes: seq<Slot>,
                  states: seq<State>, moves: seq<Move>, sid: int, i: nat, j: nat)
    requires IsHistory(cfg, rows, selected, homes, states, moves)
    requires PhaseThroughout(states, sid, Draining, i, j)
    ensures states[j].now <= Backlog(states[j].objects, sid,
                                     states[i].servers[sid].lastTransition + cfg.delays.startup + cfg.delays.graceful)
                             + cfg.delays.grace
  {
    hide IsHistory, IsRun, Core, CoverOk;
    InvAlways(cfg, rows, selected, homes, states, moves, j);
    var tau :| Core(cfg, states[j], tau, {});
    DrainIsBounded(cfg, states[j], tau, sid);
    StintKeepsStart(cfg, rows, selected, homes, states, moves, sid, Draining, i, j);
  }

  // ------------------------------------------------------------------
  // Migrations are placed
  // ------------------------------------------------------------------

  /** Every migration step that passes the joint reservation check is placed: its
      destination is starting on the target, recorded as taking over from the host. */
  lemma EveryKeptMigrationIsPlaced(cfg: Config, s: State, tau: real, sid: int, plan: DrainPlan, i: nat)
    requires Core(cfg, s, tau, {DecisionTick}) && CoverOk(s) && Calm(s)
    requires sid in s.servers && s.servers[sid].phase == Active
    requires PlanOk(cfg, s, sid, plan) && s.now + cfg.delays.startup < tau
    requires PlanInBounds(cfg, s, plan) && i < |KeepSteps(cfg, s, plan.steps).0|
    ensures var step := KeepSteps(cfg, s, plan.steps).0[i];
            var r := Drain(cfg, s, sid, plan);
            && MigratesTo(r, sid, step.service, step.target) && InSlot(r, step.target, step.service)
            && At(r, step.target, step.service) < |r.objects|
            && r.objects[At(r, step.target, step.service)].phase == Starting
  {
    hide SlotsOk, IndexOk, CapacityOk, PhasesOk, EventsOk, UniqueOk, GonePairsOk, ServersArmed, SlotsArmed,
      RescueOk, QueuesOk, MetersOk, DrainBoundOk, CoverOk, HandledOk, Drain, KeepSteps, Moved, UsedCpu;
    DrainKeeps(cfg, s, tau, sid, plan);
    var step := KeepSteps(cfg, s, plan.steps).0[i];
    var r := Drain(cfg, s, sid, plan);
    assert MigratesTo(Moved(cfg, s, sid, KeepSteps(cfg, s, plan.steps).0), sid, step.service, step.target);
    assert PendingEntryOk(cfg, r, Slot(step.target, step.service));
  }
}
