/** The invariant holds in every state of every run: `prime` establishes it and
    each step keeps it, whatever the algorithm answers within its contract. */
module EngineRuns {
  import opened Settings
  import opened ReplicaQueues
  import opened EngineModel
  import opened EngineInvariants
  import opened EngineClock
  import opened EngineOps
  import opened EngineBoot
  import opened EnginePlace
  import opened EngineRetire
  import opened EngineReady
  import opened EngineGone
  import opened EngineServers
  import opened EngineHandlers
  import opened EngineTick
  import opened EngineDrain

  // ------------------------------------------------------------------
  // Runs
  // ------------------------------------------------------------------

  ghost predicate HasRoom(s: State, o: nat)
    requires o < |s.objects|
  {
    Occupancy(s.objects[o].queue, s.now) < s.objects[o].queue.capacity
  }

  /** `select_replica` returns a candidate with room, and None only if none has. */
  ghost predicate SelectionOk(s: State, svc: int, selected: Option<nat>) {
    match selected
    case Some(o) => Candidate(s, svc, o) && HasRoom(s, o)
    case None => forall o :: Candidate(s, svc, o) ==> !HasRoom(s, o)
  }

  /** What the algorithm, and the order of a dictionary, may answer in a step. */
  ghost predicate ChoiceOk(cfg: Config, s: State, kind: Kind, choice: Choice)
    requires GoodConfig(cfg) && Linked(cfg, s)
  {
    && ChoiceLinked(cfg, s, choice)
    && match kind
       case Routed(req) => SelectionOk(s, req.service, choice.selected)
       case BootDone(sid) => sid in s.servers && Enumerates(choice.order, s.servers[sid].hosted.Keys)
       case DecisionTick => ProvisionOk(cfg, s.(ticks := s.ticks + 1), choice.provision)
       case _ => true
  }

  /** The state in which the handler of event k starts: popped, metered, clock moved. */
  ghost function Popped(cfg: Config, s: State, k: nat): State
    requires GoodConfig(cfg) && Linked(cfg, s) && k in s.heap
  {
    Advance(cfg, Pop(s, k), s.heap[k].time)
  }

  /** One iteration of the run loop that is not cut off. */
  ghost predicate IsStep(cfg: Config, s: State, k: nat, choice: Choice, r: State) {
    && GoodConfig(cfg) && Linked(cfg, s)
    && IsMin(s.heap, k) && s.heap[k].time <= s.cutoff && KindLinked(cfg, s.heap[k].kind)
    && ChoiceOk(cfg, Popped(cfg, s, k), s.heap[k].kind, choice)
    && r == Handle(cfg, Popped(cfg, s, k), s.heap[k].kind, choice)
  }

  datatype Move = Move(event: nat, choice: Choice)

  /** The states a run goes through, one step each. */
  ghost predicate IsRun(cfg: Config, states: seq<State>, moves: seq<Move>) {
    && |states| == |moves| + 1
    && forall i :: 0 <= i < |moves| ==> IsStep(cfg, states[i], moves[i].event, moves[i].choice, states[i + 1])
  }

  ghost predicate Inv(cfg: Config, s: State) {
    SlotsOk(s) && CoverOk(s) && exists tau :: Core(cfg, s, tau, {})
  }

  // ------------------------------------------------------------------
  // A popped event is still legitimate
  // ------------------------------------------------------------------

  lemma MeterIgnoresHeap(cfg: Config, s: State, p: State, sid: int, t: real)
    requires GoodConfig(cfg) && InStore(s, sid) && sid in cfg.servers && p == s.(heap := p.heap)
    ensures InStore(p, sid) && Metered(cfg, p, sid, t) == Metered(cfg, s, sid, t)
  {
    hide CpuSum, Fraction, Working, GoodConfig;
    var last := s.servers[sid].synced;
    assert BusyServices(p, sid, last) == BusyServices(s, sid, last);
  }

  lemma PopCommutes(cfg: Config, s: State, k: nat)
    requires GoodConfig(cfg) && Linked(cfg, s) && k in s.heap
    ensures Popped(cfg, s, k) == Pop(Advance(cfg, s, s.heap[k].time), k)
  {
    hide Metered, GoodConfig;
    var p := Pop(s, k);
    forall sid | sid in s.servers ensures Metered(cfg, p, sid, s.heap[k].time) == Metered(cfg, s, sid, s.heap[k].time) {
      assert InStore(s, sid);
      MeterIgnoresHeap(cfg, s, p, sid, s.heap[k].time);
    }
    assert Popped(cfg, s, k).servers == Advance(cfg, s, s.heap[k].time).servers;
  }

  /** The event that is handled in state p, popped from a state where it was legitimate. */
  ghost predicate WasLegitimate(cfg: Config, p: State, tau: real, kind: Kind) {
    && EventOk(cfg, p, tau, Event(p.now, kind))
    && (kind.ReplicaGone? && InSlot(p, kind.slot.server, kind.slot.service) && kind.owner < |p.objects| ==>
          forall j :: j in p.heap && p.heap[j].kind == kind ==>
            && p.servers[kind.slot.server].phase == Draining
            && p.heap[j].time <= Later(p.servers[kind.slot.server].lastTransition + cfg.delays.graceful,
                                       p.objects[kind.owner].queue.availableAt))
    && (kind.ReplicaReady? && kind.slot in p.pending ==>
          && p.pending[kind.slot] in p.servers && p.servers[p.pending[kind.slot]].phase == Draining
          && p.now == p.servers[p.pending[kind.slot]].lastTransition + cfg.delays.startup)
  }

  lemma PoppedWasLegitimate(cfg: Config, a: State, tau: real, k: nat)
    requires EventsOk(cfg, a, tau) && GonePairsOk(cfg, a) && PendingOk(cfg, a)
    requires k in a.heap && a.heap[k].time == a.now
    ensures WasLegitimate(cfg, Pop(a, k), tau, a.heap[k].kind)
  {
    var p := Pop(a, k);
    var kind := a.heap[k].kind;
    assert EventOk(cfg, a, tau, a.heap[k]);
    match kind
    case ReplicaGone(slot, owner) =>
      assert InSlot(p, slot.server, slot.service) <==> InSlot(a, slot.server, slot.service);
      forall j | j in p.heap && p.heap[j].kind == kind && InSlot(p, slot.server, slot.service) && owner < |p.objects|
        ensures p.servers[slot.server].phase == Draining
        ensures p.heap[j].time <= Later(p.servers[slot.server].lastTransition + cfg.delays.graceful,
                                        p.objects[owner].queue.availableAt)
      {
        assert GonePairOk(cfg, a, j, k);
      }
    case ReplicaReady(slot, owner) =>
      assert InSlot(a, slot.server, slot.service) && InSlot(p, slot.server, slot.service);
      if slot in a.pending {
        assert PendingEntryOk(cfg, a, slot);
      }
    case _ =>
  }

  /** Between events nothing is owed, and the earliest event is legitimate when handled. */
  lemma PoppedKeeps(cfg: Config, s: State, tau: real, k: nat)
    requires Core(cfg, s, tau, {}) && CoverOk(s) && IsMin(s.heap, k)
    ensures Core(cfg, Popped(cfg, s, k), tau, {s.heap[k].kind}) && CoverOk(Popped(cfg, s, k))
    ensures WasLegitimate(cfg, Popped(cfg, s, k), tau, s.heap[k].kind)
    ensures s.now <= s.heap[k].time <= tau && Popped(cfg, s, k).now == s.heap[k].time
  {
    hide SlotsOk, IndexOk, CapacityOk, PhasesOk, UniqueOk, GonePairsOk, ServersArmed, SlotsArmed, PendingOk,
      RescueOk, QueuesOk, MetersOk, DrainBoundOk, CoverOk, HandledOk, WasLegitimate;
    var t := s.heap[k].time;
    EarliestIsBeforeTick(cfg, s, tau, k);
    AdvanceKeeps(cfg, s, tau, t);
    var a := Advance(cfg, s, t);
    PopKeeps(cfg, a, tau, k);
    PoppedWasLegitimate(cfg, a, tau, k);
    PopCommutes(cfg, s, k);
    CoverFrame(a, Pop(a, k));
  }

  lemma EarliestIsBeforeTick(cfg: Config, s: State, tau: real, k: nat)
    requires EventsOk(cfg, s, tau) && Due(s.heap, DecisionTick, {}) && IsMin(s.heap, k)
    ensures s.now <= s.heap[k].time <= tau
    ensures forall j :: j in s.heap ==> s.heap[k].time <= s.heap[j].time
  {
    var j :| j in s.heap && s.heap[j].kind == DecisionTick;
    assert EventOk(cfg, s, tau, s.heap[j]) && EventOk(cfg, s, tau, s.heap[k]);
    forall i | i in s.heap ensures s.heap[k].time <= s.heap[i].time {
      assert Before(s.heap, k, i);
    }
  }

  // ------------------------------------------------------------------
  // Dispatch
  // ------------------------------------------------------------------

  function NextTick(cfg: Config, tau: real, kind: Kind): real {
    if kind.DecisionTick? then tau + cfg.delays.interval else tau
  }

  lemma ArrivalKeeps(cfg: Config, p: State, tau: real, at: Position, svc: int)
    requires Core(cfg, p, tau, {Arrival(at, svc)}) && CoverOk(p) && svc in cfg.services
    ensures Core(cfg, HandleArrival(cfg, p, at, svc), tau, {}) && CoverOk(HandleArrival(cfg, p, at, svc))
  {
    hide Core, CoverOk;
    NothingOwed(cfg, p, tau, Arrival(at, svc));
    HandleArrivalKeeps(cfg, p, tau, at, svc);
  }

  lemma RoutedKeeps(cfg: Config, p: State, tau: real, req: Request, choice: Choice)
    requires GoodConfig(cfg) && Linked(cfg, p) && Core(cfg, p, tau, {Routed(req)}) && CoverOk(p)
    requires KindLinked(cfg, Routed(req)) && ChoiceOk(cfg, p, Routed(req), choice)
    ensures Core(cfg, Handle(cfg, p, Routed(req), choice), tau, {}) && CoverOk(Handle(cfg, p, Routed(req), choice))
  {
    hide Core, CoverOk, HandleRouted;
    NothingOwed(cfg, p, tau, Routed(req));
    if choice.selected.Some? {
      assert ObjectLinked(cfg, p.objects[choice.selected.value]);
    }
    HandleRoutedKeeps(cfg, p, tau, req, choice.selected);
  }

  lemma TickKeeps(cfg: Config, p: State, tau: real, choice: Choice)
    requires GoodConfig(cfg) && Linked(cfg, p) && Core(cfg, p, tau, {DecisionTick}) && CoverOk(p)
    requires p.now == tau && ChoiceOk(cfg, p, DecisionTick, choice)
    ensures Core(cfg, Handle(cfg, p, DecisionTick, choice), tau + cfg.delays.interval, {})
    ensures CoverOk(Handle(cfg, p, DecisionTick, choice))
  {
    hide Core, CoverOk, HandleTick, ProvisionOk, GoodConfig, Linked, ChoiceLinked;
    HandleTickKeeps(cfg, p, tau, choice);
  }

  lemma TickIsNow(cfg: Config, p: State, tau: real)
    requires WasLegitimate(cfg, p, tau, DecisionTick)
    ensures p.now == tau
  {
  }

  lemma BootDoneKeeps(cfg: Config, p: State, tau: real, sid: int, choice: Choice)
    requires GoodConfig(cfg) && Linked(cfg, p) && Core(cfg, p, tau, {BootDone(sid)}) && CoverOk(p)
    requires WasLegitimate(cfg, p, tau, BootDone(sid))
    requires KindLinked(cfg, BootDone(sid)) && ChoiceOk(cfg, p, BootDone(sid), choice)
    ensures Core(cfg, Handle(cfg, p, BootDone(sid), choice), tau, {}) && CoverOk(Handle(cfg, p, BootDone(sid), choice))
  {
    hide SlotsOk, IndexOk, CapacityOk, PhasesOk, EventsOk, UniqueOk, GonePairsOk, ServersArmed, SlotsArmed,
      PendingOk, RescueOk, QueuesOk, MetersOk, DrainBoundOk, CoverOk, HandledOk;
    assert BootIsDue(cfg, p, tau, sid) && InStore(p, sid);
    HandleBootDoneKeeps(cfg, p, tau, sid, choice.order);
  }

  lemma DrainDoneKeeps(cfg: Config, p: State, tau: real, sid: int, choice: Choice)
    requires GoodConfig(cfg) && Linked(cfg, p) && Core(cfg, p, tau, {DrainDone(sid)}) && CoverOk(p)
    requires WasLegitimate(cfg, p, tau, DrainDone(sid))
    requires KindLinked(cfg, DrainDone(sid)) && ChoiceLinked(cfg, p, choice)
    ensures Core(cfg, Handle(cfg, p, DrainDone(sid), choice), tau, {})
    ensures CoverOk(Handle(cfg, p, DrainDone(sid), choice))
  {
    hide SlotsOk, IndexOk, CapacityOk, PhasesOk, EventsOk, UniqueOk, GonePairsOk, ServersArmed, SlotsArmed,
      PendingOk, RescueOk, QueuesOk, MetersOk, DrainBoundOk, CoverOk, HandledOk;
    assert DrainIsDue(cfg, p, sid) && InStore(p, sid);
    if AllTerminated(p, sid) {
      TurnedOffKeeps(cfg, p, tau, sid);
    } else {
      RearmKeeps(cfg, p, tau, sid);
    }
  }

  lemma ReplicaReadyKeeps(cfg: Config, p: State, tau: real, slot: Slot, o: nat, choice: Choice)
    requires GoodConfig(cfg) && Linked(cfg, p) && Core(cfg, p, tau, {ReplicaReady(slot, o)}) && CoverOk(p)
    requires WasLegitimate(cfg, p, tau, ReplicaReady(slot, o))
    requires KindLinked(cfg, ReplicaReady(slot, o)) && ChoiceLinked(cfg, p, choice)
    ensures Core(cfg, Handle(cfg, p, ReplicaReady(slot, o), choice), tau, {})
    ensures CoverOk(Handle(cfg, p, ReplicaReady(slot, o), choice))
  {
    hide SlotsOk, IndexOk, CapacityOk, PhasesOk, EventsOk, UniqueOk, GonePairsOk, ServersArmed, SlotsArmed,
      PendingOk, RescueOk, QueuesOk, MetersOk, DrainBoundOk, CoverOk, HandledOk;
    assert ReadyIsDue(cfg, p, slot, o);
    assert forall sid :: sid in p.servers ==> InStore(p, sid);
    HandleReadyKeeps(cfg, p, tau, slot, o);
  }

  lemma ReplicaGoneKeeps(cfg: Config, p: State, tau: real, slot: Slot, o: nat, choice: Choice)
    requires GoodConfig(cfg) && Linked(cfg, p) && Core(cfg, p, tau, {ReplicaGone(slot, o)}) && CoverOk(p)
    requires WasLegitimate(cfg, p, tau, ReplicaGone(slot, o))
    requires KindLinked(cfg, ReplicaGone(slot, o)) && ChoiceLinked(cfg, p, choice)
    ensures Core(cfg, Handle(cfg, p, ReplicaGone(slot, o), choice), tau, {})
    ensures CoverOk(Handle(cfg, p, ReplicaGone(slot, o), choice))
  {
    hide SlotsOk, IndexOk, CapacityOk, PhasesOk, EventsOk, UniqueOk, GonePairsOk, ServersArmed, SlotsArmed,
      PendingOk, RescueOk, QueuesOk, MetersOk, DrainBoundOk, CoverOk, HandledOk;
    assert InStore(p, slot.server);
    if InSlot(p, slot.server, slot.service) {
      assert GoneIsDue(cfg, p, slot, o);
      HandleGoneKeeps(cfg, p, tau, slot, o);
    } else {
      StaleGoneKeeps(cfg, p, tau, slot, o);
    }
  }

  /** Every handler, called on the event it was meant for, keeps the invariant. */
  lemma HandleKeeps(cfg: Config, p: State, tau: real, kind: Kind, choice: Choice)
    requires GoodConfig(cfg) && Linked(cfg, p) && Core(cfg, p, tau, {kind}) && CoverOk(p)
    requires WasLegitimate(cfg, p, tau, kind) && KindLinked(cfg, kind) && ChoiceOk(cfg, p, kind, choice)
    ensures Core(cfg, Handle(cfg, p, kind, choice), NextTick(cfg, tau, kind), {})
    ensures CoverOk(Handle(cfg, p, kind, choice))
  {
    hide Core, CoverOk, WasLegitimate, HandleArrival, HandleRouted, Linked, GoodConfig;
    match kind
    case Arrival(at, svc) => ArrivalKeeps(cfg, p, tau, at, svc);
    case Routed(req) => RoutedKeeps(cfg, p, tau, req, choice);
    case DecisionTick => TickIsNow(cfg, p, tau); TickKeeps(cfg, p, tau, choice);
    case BootDone(sid) => BootDoneKeeps(cfg, p, tau, sid, choice);
    case DrainDone(sid) => DrainDoneKeeps(cfg, p, tau, sid, choice);
    case ReplicaReady(slot, o) => ReplicaReadyKeeps(cfg, p, tau, slot, o, choice);
    case ReplicaGone(slot, o) => ReplicaGoneKeeps(cfg, p, tau, slot, o, choice);
    case EnergyResync => NothingOwed(cfg, p, tau, kind);
  }

  lemma StepKeeps(cfg: Config, s: State, tau: real, k: nat, choice: Choice, r: State)
    requires Core(cfg, s, tau, {}) && CoverOk(s) && IsStep(cfg, s, k, choice, r)
    ensures Core(cfg, r, NextTick(cfg, tau, s.heap[k].kind), {}) && CoverOk(r)
  {
    hide Core, CoverOk, WasLegitimate, Handle, ChoiceOk;
    PoppedKeeps(cfg, s, tau, k);
    HandleKeeps(cfg, Popped(cfg, s, k), tau, s.heap[k].kind, choice);
  }

  /** The parts of the invariant most often needed by themselves. */
  lemma CoreParts(cfg: Config, s: State, tau: real, handled: set<Kind>)
    requires Core(cfg, s, tau, handled)
    ensures GoodConfig(cfg) && Linked(cfg, s) && SlotsOk(s) && PhasesOk(s) && QueuesOk(s) && MetersOk(cfg, s)
  {
  }

  lemma InvKept(cfg: Config, s: State, k: nat, choice: Choice, r: State)
    requires Inv(cfg, s) && IsStep(cfg, s, k, choice, r)
    ensures Inv(cfg, r)
  {
    hide SlotsOk, IndexOk, CapacityOk, PhasesOk, EventsOk, UniqueOk, GonePairsOk, ServersArmed, SlotsArmed,
      PendingOk, RescueOk, QueuesOk, MetersOk, DrainBoundOk, CoverOk, HandledOk, IsStep;
    var tau :| Core(cfg, s, tau, {});
    StepParts(cfg, s, k, choice, r);
    StepKeeps(cfg, s, tau, k, choice, r);
  }

  /** What a step is made of. */
  lemma StepParts(cfg: Config, s: State, k: nat, choice: Choice, r: State)
    requires IsStep(cfg, s, k, choice, r)
    ensures GoodConfig(cfg) && Linked(cfg, s) && k in s.heap && Linked(cfg, Pop(s, k)) && Linked(cfg, Popped(cfg, s, k))
    ensures IsMin(s.heap, k) && s.heap[k].time <= s.cutoff
    ensures KindLinked(cfg, s.heap[k].kind) && ChoiceLinked(cfg, Popped(cfg, s, k), choice)
    ensures r == Handle(cfg, Popped(cfg, s, k), s.heap[k].kind, choice)
  {
    hide GoodConfig;
  }

  /** Every state of a run that starts well satisfies the invariant. */
  lemma {:induction false} RunKeeps(cfg: Config, states: seq<State>, moves: seq<Move>, i: nat)
    requires IsRun(cfg, states, moves) && Inv(cfg, states[0]) && i < |states|
    ensures Inv(cfg, states[i])
  {
    hide Inv, IsStep;
    if i > 0 {
      RunKeeps(cfg, states, moves, i - 1);
      InvKept(cfg, states[i - 1], moves[i - 1].event, moves[i - 1].choice, states[i]);
    }
  }
}
