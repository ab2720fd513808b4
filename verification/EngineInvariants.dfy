/** What every reachable state of the engine satisfies. `tau` is the time of the
    next decision tick. */
module EngineInvariants {
  import opened Collections
  import opened Settings
  import opened ReplicaQueues
  import opened EngineModel

  ghost predicate InSlot(s: State, sid: int, v: int) {
    sid in s.servers && v in s.servers[sid].hosted
  }

  ghost predicate HasEvent(heap: map<nat, Event>, kind: Kind) {
    exists k :: k in heap && heap[k].kind == kind
  }

  /** The event is in the heap, or is among those being taken care of right now. */
  ghost predicate Due(heap: map<nat, Event>, kind: Kind, handled: set<Kind>) {
    kind in handled || HasEvent(heap, kind)
  }

  ghost predicate HasResync(heap: map<nat, Event>, time: real) {
    exists k :: k in heap && heap[k] == Event(time, EnergyResync)
  }

  // ------------------------------------------------------------------
  // Objects, slots and the per-service index
  // ------------------------------------------------------------------

  ghost predicate SlotOk(s: State, sid: int, v: int)
    requires InSlot(s, sid, v)
  {
    At(s, sid, v) < |s.objects| && SlotOf(s, At(s, sid, v)) == Slot(sid, v)
  }

  ghost predicate SlotsOk(s: State) {
    forall sid, v :: InSlot(s, sid, v) ==> SlotOk(s, sid, v)
  }

  /** A listed replica is hosted where it says it is. */
  ghost predicate ListedOk(s: State, v: int, o: nat) {
    o < |s.objects| && s.objects[o].service == v
    && InSlot(s, s.objects[o].server, v) && At(s, s.objects[o].server, v) == o
  }

  /** `replicas_by_service[v]` holds exactly the hosted replicas of v, once each. */
  ghost predicate IndexOk(s: State) {
    && (forall v :: v in s.byService ==> Distinct(s.byService[v]))
    && (forall v, o :: v in s.byService && o in s.byService[v] ==> ListedOk(s, v, o))
    && (forall sid, v :: InSlot(s, sid, v) ==> v in s.byService && At(s, sid, v) in s.byService[v])
  }

  ghost predicate CapacityOk(cfg: Config, s: State)
    requires GoodConfig(cfg)
  {
    forall sid :: sid in s.servers && sid in cfg.servers ==> UsedCpu(cfg, s, sid) <= cfg.servers[sid].capacity
  }

  // ------------------------------------------------------------------
  // Which replica phases go with which server phase
  // ------------------------------------------------------------------

  ghost predicate PhaseOk(s: State, sid: int, v: int)
    requires InSlot(s, sid, v) && At(s, sid, v) < |s.objects|
  {
    var r := s.objects[At(s, sid, v)];
    && (r.phase == Starting ==> r.readySince == None && r.createdAt <= s.now)
    && match s.servers[sid].phase
       case Off => false
       case Booting => r.phase == Starting
       case Active => r.phase != Terminated
       case Draining => r.phase in {Ready, Leaving}
  }

  ghost predicate PhasesOk(s: State)
    requires SlotsOk(s)
  {
    forall sid, v :: InSlot(s, sid, v) ==> SlotOk(s, sid, v) && PhaseOk(s, sid, v)
  }

  // ------------------------------------------------------------------
  // Every event in the heap is legitimate ...
  // ------------------------------------------------------------------

  /** A termination event still meets the object it was scheduled for, or finds
      the slot empty on a server that cannot have been refilled. */
  ghost predicate GoneOk(cfg: Config, s: State, time: real, slot: Slot, owner: nat)
    requires slot.server in s.servers
  {
    var sv := s.servers[slot.server];
    && owner < |s.objects| && SlotOf(s, owner) == slot
    && var available := s.objects[owner].queue.availableAt;
       if InSlot(s, slot.server, slot.service) then
         && At(s, slot.server, slot.service) == owner
         && s.objects[owner].phase == Leaving && available <= time
         && (sv.phase == Active ==> time <= Later(s.now + cfg.delays.graceful, available))
         && (sv.phase == Draining ==>
               time <= Later(sv.lastTransition + cfg.delays.startup + cfg.delays.graceful, available))
       else
         || (sv.phase == Draining && time <= Later(sv.lastTransition + cfg.delays.graceful, s.now))
         || (sv.phase in {Off, Booting} && time <= sv.lastTransition)
  }

  ghost predicate EventOk(cfg: Config, s: State, tau: real, ev: Event) {
    && s.now <= ev.time && KindLinked(cfg, ev.kind) && s.servers.Keys == cfg.servers.Keys
    && match ev.kind
       case BootDone(sid) =>
         && s.servers[sid].phase == Booting
         && ev.time == s.servers[sid].lastTransition + cfg.delays.boot
         && (if s.ticks > 0 then ev.time + cfg.delays.startup < tau else tau < ev.time)
       case DrainDone(sid) =>
         && s.servers[sid].phase == Draining
         && s.servers[sid].lastTransition + cfg.delays.grace <= ev.time <= s.now + cfg.delays.grace
       case ReplicaReady(slot, owner) =>
         && InSlot(s, slot.server, slot.service) && At(s, slot.server, slot.service) == owner
         && owner < |s.objects| && s.objects[owner].phase == Starting
         && s.servers[slot.server].phase == Active
         && ev.time <= s.now + cfg.delays.startup && ev.time < tau
       case ReplicaGone(slot, owner) => GoneOk(cfg, s, ev.time, slot, owner)
       case DecisionTick => ev.time == tau
       case _ => true
  }

  ghost predicate EventsOk(cfg: Config, s: State, tau: real) {
    forall k :: k in s.heap ==> k <= s.lastSeq && EventOk(cfg, s, tau, s.heap[k])
  }

  predicate Single(kind: Kind) {
    kind.BootDone? || kind.DrainDone? || kind.ReplicaReady? || kind.DecisionTick?
  }

  /** Boot, drain, ready and tick events occur at most once each. */
  ghost predicate UniqueOk(heap: map<nat, Event>) {
    forall j, k :: j in heap && k in heap && heap[j].kind == heap[k].kind && Single(heap[j].kind) ==> j == k
  }

  /** Two termination events for one hosted replica only on a draining server,
      and then both are due by the same bound. */
  ghost predicate GonePairOk(cfg: Config, s: State, j: nat, k: nat)
    requires j in s.heap && k in s.heap
  {
    j != k && s.heap[j].kind == s.heap[k].kind && s.heap[j].kind.ReplicaGone? ==>
      var slot, owner := s.heap[j].kind.slot, s.heap[j].kind.owner;
      InSlot(s, slot.server, slot.service) && owner < |s.objects| ==>
        && s.servers[slot.server].phase == Draining
        && s.heap[j].time <= Later(s.servers[slot.server].lastTransition + cfg.delays.graceful,
                                   s.objects[owner].queue.availableAt)
  }

  ghost predicate GonePairsOk(cfg: Config, s: State) {
    forall j, k :: j in s.heap && k in s.heap ==> GonePairOk(cfg, s, j, k)
  }

  // ------------------------------------------------------------------
  // ... and every object that needs an event has one.
  // ------------------------------------------------------------------

  ghost predicate ServerArmed(s: State, sid: int, handled: set<Kind>)
    requires sid in s.servers
  {
    && (s.servers[sid].phase == Booting ==> Due(s.heap, BootDone(sid), handled))
    && (s.servers[sid].phase == Draining ==> Due(s.heap, DrainDone(sid), handled))
  }

  ghost predicate SlotArmed(s: State, sid: int, v: int, handled: set<Kind>)
    requires InSlot(s, sid, v) && At(s, sid, v) < |s.objects|
  {
    var o := At(s, sid, v);
    && (s.servers[sid].phase == Active && s.objects[o].phase == Starting ==>
          Due(s.heap, ReplicaReady(Slot(sid, v), o), handled))
    && (s.objects[o].phase == Leaving ==> Due(s.heap, ReplicaGone(Slot(sid, v), o), handled))
  }

  ghost predicate ServersArmed(s: State, handled: set<Kind>) {
    forall sid :: sid in s.servers ==> ServerArmed(s, sid, handled)
  }

  ghost predicate SlotsArmed(s: State, handled: set<Kind>)
    requires SlotsOk(s)
  {
    forall sid, v :: InSlot(s, sid, v) ==> SlotOk(s, sid, v) && SlotArmed(s, sid, v, handled)
  }

  // ------------------------------------------------------------------
  // Migrations and emergency boots
  // ------------------------------------------------------------------

  /** A pending migration: the destination is still starting on an ACTIVE server
      and becomes ready one startup delay after the source began to drain. */
  ghost predicate PendingEntryOk(cfg: Config, s: State, slot: Slot)
    requires slot in s.pending
  {
    var source := s.pending[slot];
    && InSlot(s, slot.server, slot.service) && At(s, slot.server, slot.service) < |s.objects|
    && s.objects[At(s, slot.server, slot.service)].phase == Starting
    && s.servers[slot.server].phase == Active
    && source in s.servers && s.servers[source].phase == Draining
    && forall k :: k in s.heap && s.heap[k].kind.ReplicaReady? && s.heap[k].kind.slot == slot ==>
                     s.heap[k].time == s.servers[source].lastTransition + cfg.delays.startup
  }

  ghost predicate PendingOk(cfg: Config, s: State) {
    forall slot :: slot in s.pending ==> PendingEntryOk(cfg, s, slot)
  }

  ghost predicate MigratesTo(s: State, sid: int, v: int, target: int) {
    Slot(target, v) in s.pending && s.pending[Slot(target, v)] == sid
  }

  /** A replica still READY on a draining server is waiting for its migration. */
  ghost predicate SlotCovered(s: State, sid: int, v: int)
    requires InSlot(s, sid, v) && At(s, sid, v) < |s.objects|
  {
    s.servers[sid].phase == Draining && s.objects[At(s, sid, v)].phase == Ready ==>
      exists target :: MigratesTo(s, sid, v, target)
  }

  ghost predicate CoverOk(s: State)
    requires SlotsOk(s)
  {
    forall sid, v :: InSlot(s, sid, v) ==> SlotOk(s, sid, v) && SlotCovered(s, sid, v)
  }

  ghost predicate Rescues(s: State, v: int, sid: int) {
    v in s.rescue && s.rescue[v] == sid
  }

  /** Emergency entries point to booting servers, and a flag is always backed by one. */
  ghost predicate RescueOk(s: State) {
    && (forall v :: v in s.rescue ==> s.rescue[v] in s.servers && s.servers[s.rescue[v]].phase == Booting)
    && (forall sid :: sid in s.servers && s.servers[sid].emergency ==>
                        s.servers[sid].phase == Booting && exists v :: Rescues(s, v, sid))
  }

  // ------------------------------------------------------------------
  // Clocks, queues and meters
  // ------------------------------------------------------------------

  ghost predicate TimesOk(s: State, tau: real) {
    && s.now <= tau
    && (forall sid :: sid in s.servers ==> s.servers[sid].lastTransition <= s.now)
    && (s.ticks == 0 ==> s.now == tau && forall sid :: sid in s.servers ==> s.servers[sid].phase in {Off, Booting})
  }

  /** The departures are in order, fit the queue, and each future one has a resync. */
  ghost predicate QueueOk(s: State, o: nat)
    requires o < |s.objects|
  {
    var q := s.objects[o].queue;
    && Consistent(q) && q.exec > 0.0 && |q.departures| <= q.capacity
    && (s.objects[o].phase == Starting ==> q.departures == [])
    && forall i :: 0 <= i < |q.departures| && q.departures[i] > s.now ==> HasResync(s.heap, q.departures[i])
  }

  ghost predicate QueuesOk(s: State) {
    forall o :: 0 <= o < |s.objects| ==> QueueOk(s, o)
  }

  /** The busy time of the current window is between none and all of it. */
  predicate WindowOk(sv: Server, capacity: int, span: real) {
    0.0 <= sv.busy - sv.busyAtWindow <= capacity as real * span
  }

  ghost predicate MeterOk(cfg: Config, s: State, sid: int)
    requires sid in s.servers && sid in cfg.servers
  {
    var sv := s.servers[sid];
    && sv.synced == s.now && s.windowStart <= s.now
    && WindowOk(sv, cfg.servers[sid].capacity, s.now - s.windowStart)
  }

  ghost predicate MetersOk(cfg: Config, s: State) {
    forall sid :: sid in s.servers && sid in cfg.servers ==> MeterOk(cfg, s, sid)
  }

  /** A drain-done event is never later than one grace period after the last
      termination this drain can be waiting for. */
  ghost predicate DrainBoundOk(cfg: Config, s: State) {
    forall k :: k in s.heap && s.heap[k].kind.DrainDone? && s.heap[k].kind.server in s.servers ==>
                  DueInTime(cfg, s, s.heap[k].kind.server, s.heap[k].time - cfg.delays.grace)
  }

  /** Time t is within the bound of the current drain of this server. */
  ghost predicate DueInTime(cfg: Config, s: State, sid: int, t: real)
    requires sid in s.servers
  {
    || t <= s.servers[sid].lastTransition + cfg.delays.startup + cfg.delays.graceful
    || exists o :: 0 <= o < |s.objects| && s.objects[o].server == sid && t <= s.objects[o].queue.availableAt
  }

  /** A unique event being taken care of is not in the heap as well. */
  ghost predicate HandledOk(heap: map<nat, Event>, handled: set<Kind>) {
    forall kind :: kind in handled && Single(kind) ==> !HasEvent(heap, kind)
  }

  /** The invariant while the events `handled` are popped but not yet dealt
      with, or owed but not yet pushed. */
  ghost predicate Core(cfg: Config, s: State, tau: real, handled: set<Kind>) {
    && GoodConfig(cfg) && Linked(cfg, s)
    && SlotsOk(s) && IndexOk(s) && CapacityOk(cfg, s) && PhasesOk(s)
    && EventsOk(cfg, s, tau) && UniqueOk(s.heap) && GonePairsOk(cfg, s)
    && ServersArmed(s, handled) && SlotsArmed(s, handled) && HandledOk(s.heap, handled)
    && PendingOk(cfg, s) && RescueOk(s) && TimesOk(s, tau)
    && QueuesOk(s) && MetersOk(cfg, s) && DrainBoundOk(cfg, s)
    && Due(s.heap, DecisionTick, handled)
  }
}
