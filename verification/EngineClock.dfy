/** Moving the clock and popping an event keep the invariant. */
module EngineClock {
  import opened Collections
  import opened Settings
  import opened ReplicaQueues
  import opened EngineModel
  import opened EngineInvariants

  // ------------------------------------------------------------------
  // Sums of reserved CPU
  // ------------------------------------------------------------------

  lemma {:induction false} CpuSumRemove(cfg: Config, sid: int, svcs: set<int>, v: int)
    requires GoodConfig(cfg) && v in svcs
    ensures CpuSum(cfg, sid, svcs) == CpuOf(cfg, sid, v) + CpuSum(cfg, sid, svcs - {v})
    decreases |svcs|
  {
    var x := Pick(svcs);
    if x != v {
      CpuSumRemove(cfg, sid, svcs - {x}, v);
      CpuSumRemove(cfg, sid, svcs - {v}, x);
      assert svcs - {x} - {v} == svcs - {v} - {x};
    }
  }

  lemma CpuSumAdd(cfg: Config, sid: int, svcs: set<int>, v: int)
    requires GoodConfig(cfg) && v !in svcs
    ensures CpuSum(cfg, sid, svcs + {v}) == CpuSum(cfg, sid, svcs) + CpuOf(cfg, sid, v)
  {
    CpuSumRemove(cfg, sid, svcs + {v}, v);
    assert svcs + {v} - {v} == svcs;
  }

  /** What the services of a list demand of a host together. */
  function Demand(cfg: Config, sid: int, list: seq<int>): int
    requires sid in cfg.servers && cfg.referenceMips > 0.0 && forall v :: v in list ==> v in cfg.services
  {
    if list == [] then 0
    else
      var n := |list| - 1;
      assert forall v :: v in list[..n] ==> v in list;
      assert list[n] in list;
      Demand(cfg, sid, list[..n]) + EffectiveCpu(cfg, sid, list[n])
  }

  /** However they are listed. */
  lemma {:induction false} CpuSumIsDemand(cfg: Config, sid: int, svcs: set<int>, list: seq<int>)
    requires GoodConfig(cfg) && sid in cfg.servers && Distinct(list) && (forall v :: v in list <==> v in svcs)
    requires forall v :: v in list ==> v in cfg.services
    ensures CpuSum(cfg, sid, svcs) == Demand(cfg, sid, list)
    decreases |list|
  {
    hide GoodConfig, EffectiveCpu;
    if list == [] {
      forall v ensures v !in svcs {
        assert v !in list;
      }
      assert svcs == {};
    } else {
      var n := |list| - 1;
      assert list == list[..n] + [list[n]] && list[n] in list;
      assert list[n] !in list[..n];
      forall v ensures v in list[..n] <==> v in svcs - {list[n]} {
        assert v in list <==> v in list[..n] || v == list[n];
      }
      CpuSumRemove(cfg, sid, svcs, list[n]);
      CpuSumIsDemand(cfg, sid, svcs - {list[n]}, list[..n]);
    }
  }

  lemma CpuOfNonnegative(cfg: Config, sid: int, v: int)
    requires GoodConfig(cfg)
    ensures CpuOf(cfg, sid, v) >= 0
  {
    if sid in cfg.servers && v in cfg.services {
      EffectiveAtMostRaw(cfg, sid, v);
    }
  }

  lemma {:induction false} CpuSumMonotone(cfg: Config, sid: int, part: set<int>, whole: set<int>)
    requires GoodConfig(cfg) && part <= whole
    ensures 0 <= CpuSum(cfg, sid, part) <= CpuSum(cfg, sid, whole)
    decreases |whole|
  {
    if whole == {} {
      assert part == {};
    } else {
      var x := Pick(whole);
      CpuOfNonnegative(cfg, sid, x);
      if x in part {
        CpuSumRemove(cfg, sid, part, x);
        CpuSumMonotone(cfg, sid, part - {x}, whole - {x});
      } else {
        CpuSumMonotone(cfg, sid, part, whole - {x});
      }
    }
  }

  // ------------------------------------------------------------------
  // Popping
  // ------------------------------------------------------------------

  lemma PopEvents(cfg: Config, s: State, tau: real, k: nat)
    requires EventsOk(cfg, s, tau) && k in s.heap
    ensures EventsOk(cfg, Pop(s, k), tau)
  {
    var p := Pop(s, k);
    forall j | j in p.heap ensures j <= p.lastSeq && EventOk(cfg, p, tau, p.heap[j]) {
      assert EventOk(cfg, s, tau, s.heap[j]);
    }
  }

  lemma PopPairs(cfg: Config, s: State, k: nat)
    requires GonePairsOk(cfg, s) && k in s.heap
    ensures GonePairsOk(cfg, Pop(s, k))
  {
    var p := Pop(s, k);
    forall i, j | i in p.heap && j in p.heap ensures GonePairOk(cfg, p, i, j) {
      assert GonePairOk(cfg, s, i, j);
    }
  }

  lemma PopPending(cfg: Config, s: State, k: nat)
    requires PendingOk(cfg, s) && k in s.heap
    ensures PendingOk(cfg, Pop(s, k))
  {
    var p := Pop(s, k);
    forall slot | slot in p.pending ensures PendingEntryOk(cfg, p, slot) {
      assert PendingEntryOk(cfg, s, slot);
    }
  }

  lemma PopDue(s: State, k: nat, kind: Kind)
    requires k in s.heap && Due(s.heap, kind, {})
    ensures Due(Pop(s, k).heap, kind, {s.heap[k].kind})
  {
    if kind != s.heap[k].kind {
      var j :| j in s.heap && s.heap[j].kind == kind;
      assert j in Pop(s, k).heap;
    }
  }

  lemma PopArmed(s: State, k: nat)
    requires SlotsOk(s) && k in s.heap && UniqueOk(s.heap)
    requires ServersArmed(s, {}) && SlotsArmed(s, {})
    ensures SlotsOk(Pop(s, k)) && HandledOk(Pop(s, k).heap, {s.heap[k].kind})
    ensures ServersArmed(Pop(s, k), {s.heap[k].kind}) && SlotsArmed(Pop(s, k), {s.heap[k].kind})
  {
    var p := Pop(s, k);
    var kind := s.heap[k].kind;
    forall sid, v | InSlot(p, sid, v) ensures SlotOk(p, sid, v) && SlotArmed(p, sid, v, {kind}) {
      assert InSlot(s, sid, v) && SlotOk(s, sid, v) && SlotArmed(s, sid, v, {});
      var o := At(s, sid, v);
      if s.servers[sid].phase == Active && s.objects[o].phase == Starting {
        PopDue(s, k, ReplicaReady(Slot(sid, v), o));
      }
      if s.objects[o].phase == Leaving {
        PopDue(s, k, ReplicaGone(Slot(sid, v), o));
      }
    }
    forall sid | sid in p.servers ensures ServerArmed(p, sid, {kind}) {
      assert ServerArmed(s, sid, {});
      if s.servers[sid].phase == Booting {
        PopDue(s, k, BootDone(sid));
      }
      if s.servers[sid].phase == Draining {
        PopDue(s, k, DrainDone(sid));
      }
    }
  }

  lemma PopQueues(s: State, k: nat)
    requires QueuesOk(s) && k in s.heap && s.heap[k].time == s.now
    ensures QueuesOk(Pop(s, k))
  {
    var p := Pop(s, k);
    forall o | 0 <= o < |p.objects| ensures QueueOk(p, o) {
      assert QueueOk(s, o);
      var q := s.objects[o].queue;
      forall i | 0 <= i < |q.departures| && q.departures[i] > s.now ensures HasResync(p.heap, q.departures[i]) {
        var j :| j in s.heap && s.heap[j] == Event(q.departures[i], EnergyResync);
        assert j in p.heap && p.heap[j] == s.heap[j];
      }
    }
  }

  lemma PopBounds(cfg: Config, s: State, k: nat)
    requires DrainBoundOk(cfg, s) && k in s.heap
    ensures DrainBoundOk(cfg, Pop(s, k))
  {
    var p := Pop(s, k);
    forall j | j in p.heap && p.heap[j].kind.DrainDone? && p.heap[j].kind.server in p.servers
      ensures DueInTime(cfg, p, p.heap[j].kind.server, p.heap[j].time - cfg.delays.grace)
    {
      assert DueInTime(cfg, s, s.heap[j].kind.server, s.heap[j].time - cfg.delays.grace);
    }
  }

  // ------------------------------------------------------------------
  // Frames: groups that do not depend on what changed
  // ------------------------------------------------------------------

  /** Neither the slots, nor the index, nor the objects' identities change. */
  ghost predicate SameHosting(s: State, r: State) {
    && r.servers.Keys == s.servers.Keys && r.byService == s.byService
    && (forall sid :: sid in s.servers ==> r.servers[sid].hosted == s.servers[sid].hosted)
    && |r.objects| == |s.objects|
    && (forall o :: 0 <= o < |s.objects| ==> SlotOf(r, o) == SlotOf(s, o))
  }

  lemma HostingLinked(cfg: Config, s: State, r: State)
    requires SameHosting(s, r) && Linked(cfg, s)
    requires r.lastScale.Keys == s.lastScale.Keys
    requires forall slot :: slot in r.pending ==> r.pending[slot] in cfg.servers
    ensures Linked(cfg, r)
  {
    forall sid | sid in r.servers ensures HostLinked(cfg, r.servers[sid].hosted, |r.objects|) {
      assert r.servers[sid].hosted == s.servers[sid].hosted;
    }
    forall o | 0 <= o < |r.objects| ensures ObjectLinked(cfg, r.objects[o]) {
      assert SlotOf(r, o) == SlotOf(s, o) && ObjectLinked(cfg, s.objects[o]);
    }
  }

  lemma HostingSlots(s: State, r: State)
    requires SameHosting(s, r) && SlotsOk(s)
    ensures SlotsOk(r)
  {
    forall sid, v | InSlot(r, sid, v) ensures SlotOk(r, sid, v) {
      assert InSlot(s, sid, v) && SlotOk(s, sid, v);
      assert SlotOf(r, At(s, sid, v)) == SlotOf(s, At(s, sid, v));
    }
  }

  lemma HostingIndex(s: State, r: State)
    requires SameHosting(s, r) && IndexOk(s)
    ensures IndexOk(r)
  {
    forall v, o | v in r.byService && o in r.byService[v] ensures ListedOk(r, v, o) {
      assert ListedOk(s, v, o) && SlotOf(r, o) == SlotOf(s, o);
      assert InSlot(r, r.objects[o].server, v);
    }
    forall sid, v | InSlot(r, sid, v) ensures v in r.byService && At(r, sid, v) in r.byService[v] {
      assert InSlot(s, sid, v);
    }
  }

  lemma HostingCapacity(cfg: Config, s: State, r: State)
    requires GoodConfig(cfg) && SameHosting(s, r) && CapacityOk(cfg, s)
    ensures CapacityOk(cfg, r)
  {
    forall sid | sid in r.servers && sid in cfg.servers
      ensures UsedCpu(cfg, r, sid) <= cfg.servers[sid].capacity
    {
      assert UsedCpu(cfg, r, sid) == UsedCpu(cfg, s, sid) <= cfg.servers[sid].capacity;
    }
  }

  /** Everything about hosting at once. */
  lemma HostingKept(cfg: Config, s: State, r: State)
    requires GoodConfig(cfg) && SameHosting(s, r) && Linked(cfg, s)
    requires SlotsOk(s) && IndexOk(s) && CapacityOk(cfg, s)
    requires r.lastScale.Keys == s.lastScale.Keys
    requires forall slot :: slot in r.pending ==> r.pending[slot] in cfg.servers
    ensures Linked(cfg, r) && SlotsOk(r) && IndexOk(r) && CapacityOk(cfg, r)
  {
    HostingLinked(cfg, s, r);
    HostingSlots(s, r);
    HostingIndex(s, r);
    HostingCapacity(cfg, s, r);
  }

  lemma PhasesFrame(s: State, r: State)
    requires SlotsOk(s) && PhasesOk(s) && SlotsOk(r)
    requires r.servers == s.servers && r.objects == s.objects && s.now <= r.now
    ensures PhasesOk(r)
  {
    forall sid, v | InSlot(r, sid, v) ensures SlotOk(r, sid, v) && PhaseOk(r, sid, v) {
      assert InSlot(s, sid, v) && SlotOk(s, sid, v) && PhaseOk(s, sid, v);
    }
  }

  lemma CoverFrame(s: State, r: State)
    requires SlotsOk(s) && CoverOk(s) && SlotsOk(r)
    requires r.pending == s.pending && r.objects == s.objects
    requires r.servers.Keys == s.servers.Keys
    requires forall sid :: sid in s.servers ==>
                             r.servers[sid].hosted == s.servers[sid].hosted
                             && r.servers[sid].phase == s.servers[sid].phase
    ensures CoverOk(r)
  {
    forall sid, v | InSlot(r, sid, v) ensures SlotOk(r, sid, v) && SlotCovered(r, sid, v) {
      assert InSlot(s, sid, v) && SlotOk(s, sid, v) && SlotCovered(s, sid, v);
      if r.servers[sid].phase == Draining && r.objects[At(r, sid, v)].phase == Ready {
        var t :| MigratesTo(s, sid, v, t);
        assert MigratesTo(r, sid, v, t);
      }
    }
  }

  lemma RescueFrame(s: State, r: State)
    requires RescueOk(s) && r.rescue == s.rescue && r.servers.Keys == s.servers.Keys
    requires forall sid :: sid in s.servers ==> r.servers[sid].emergency == s.servers[sid].emergency
                                                && r.servers[sid].phase == s.servers[sid].phase
    ensures RescueOk(r)
  {
    forall v | v in r.rescue
      ensures r.rescue[v] in r.servers && r.servers[r.rescue[v]].phase == Booting
    {
      var sid := s.rescue[v];
      assert sid in s.servers && s.servers[sid].phase == Booting;
      assert r.servers[sid].phase == s.servers[sid].phase;
    }
    forall sid | sid in r.servers && r.servers[sid].emergency
      ensures r.servers[sid].phase == Booting && exists v :: Rescues(r, v, sid)
    {
      assert s.servers[sid].emergency;
      var v :| Rescues(s, v, sid);
      assert Rescues(r, v, sid);
    }
  }

  lemma MetersFrame(cfg: Config, s: State, r: State)
    requires MetersOk(cfg, s) && r.now == s.now && r.windowStart == s.windowStart && r.servers == s.servers
    ensures MetersOk(cfg, r)
  {
    forall sid | sid in r.servers && sid in cfg.servers ensures MeterOk(cfg, r, sid) {
      assert MeterOk(cfg, s, sid);
    }
  }

  /** Nothing but counters, the log and the emergency entries changed. */
  ghost predicate OnlyBooks(s: State, r: State) {
    r == s.(arrived := r.arrived, log := r.log, metrics := r.metrics, rescue := r.rescue, lastScale := r.lastScale)
  }

  lemma BooksEvents(cfg: Config, s: State, r: State, tau: real)
    requires OnlyBooks(s, r) && EventsOk(cfg, s, tau) && GonePairsOk(cfg, s)
    ensures EventsOk(cfg, r, tau) && GonePairsOk(cfg, r)
  {
    forall k | k in r.heap ensures k <= r.lastSeq && EventOk(cfg, r, tau, r.heap[k]) {
      assert EventOk(cfg, s, tau, s.heap[k]);
      if s.heap[k].kind.ReplicaGone? || s.heap[k].kind.ReplicaReady? {
        var slot := s.heap[k].kind.slot;
        assert InSlot(r, slot.server, slot.service) <==> InSlot(s, slot.server, slot.service);
      }
    }
    forall i, j | i in r.heap && j in r.heap ensures GonePairOk(cfg, r, i, j) {
      assert GonePairOk(cfg, s, i, j);
    }
  }

  lemma BooksArmed(s: State, r: State, handled: set<Kind>)
    requires OnlyBooks(s, r) && SlotsOk(s) && SlotsOk(r) && ServersArmed(s, handled) && SlotsArmed(s, handled)
    ensures ServersArmed(r, handled) && SlotsArmed(r, handled)
  {
    forall x, v | InSlot(r, x, v) ensures SlotOk(r, x, v) && SlotArmed(r, x, v, handled) {
      assert InSlot(s, x, v) && SlotOk(s, x, v) && SlotArmed(s, x, v, handled);
    }
    forall x | x in r.servers ensures ServerArmed(r, x, handled) {
      assert ServerArmed(s, x, handled);
    }
  }

  lemma BooksRest(cfg: Config, s: State, r: State)
    requires OnlyBooks(s, r) && PendingOk(cfg, s) && QueuesOk(s) && DrainBoundOk(cfg, s)
    ensures PendingOk(cfg, r) && QueuesOk(r) && DrainBoundOk(cfg, r)
  {
    forall slot | slot in r.pending ensures PendingEntryOk(cfg, r, slot) {
      assert PendingEntryOk(cfg, s, slot);
    }
    forall o | 0 <= o < |r.objects| ensures QueueOk(r, o) {
      assert QueueOk(s, o);
    }
    forall j | j in r.heap && r.heap[j].kind.DrainDone? && r.heap[j].kind.server in r.servers
      ensures DueInTime(cfg, r, r.heap[j].kind.server, r.heap[j].time - cfg.delays.grace)
    {
      assert DueInTime(cfg, s, s.heap[j].kind.server, s.heap[j].time - cfg.delays.grace);
    }
  }

  /** Only the emergency entries are read by the invariant, by one group of it. */
  lemma BooksKeep(cfg: Config, s: State, r: State, tau: real, handled: set<Kind>)
    requires Core(cfg, s, tau, handled) && OnlyBooks(s, r) && r.lastScale.Keys == s.lastScale.Keys && RescueOk(r)
    ensures Core(cfg, r, tau, handled)
    ensures CoverOk(s) ==> CoverOk(r)
  {
    hide SlotsOk, IndexOk, CapacityOk, PhasesOk, EventsOk, UniqueOk, GonePairsOk, ServersArmed, SlotsArmed,
      PendingOk, RescueOk, QueuesOk, MetersOk, DrainBoundOk, CoverOk, HandledOk;
    HostingKept(cfg, s, r);
    PhasesFrame(s, r);
    MetersFrame(cfg, s, r);
    BooksEvents(cfg, s, r, tau);
    BooksArmed(s, r, handled);
    BooksRest(cfg, s, r);
    if CoverOk(s) {
      CoverFrame(s, r);
    }
  }

  lemma PopKeeps(cfg: Config, s: State, tau: real, k: nat)
    requires Core(cfg, s, tau, {}) && k in s.heap && s.heap[k].time == s.now
    ensures Core(cfg, Pop(s, k), tau, {s.heap[k].kind})
  {
    hide SlotsOk, IndexOk, CapacityOk, PhasesOk, EventsOk, GonePairsOk, ServersArmed, SlotsArmed, PendingOk,
      RescueOk, QueuesOk, MetersOk, DrainBoundOk, CoverOk, HandledOk;
    HostingKept(cfg, s, Pop(s, k));
    PhasesFrame(s, Pop(s, k));
    RescueFrame(s, Pop(s, k));
    MetersFrame(cfg, s, Pop(s, k));
    PopEvents(cfg, s, tau, k);
    PopPairs(cfg, s, k);
    PopPending(cfg, s, k);
    PopArmed(s, k);
    PopDue(s, k, DecisionTick);
    PopQueues(s, k);
    PopBounds(cfg, s, k);
  }

  // ------------------------------------------------------------------
  // Advancing the clock
  // ------------------------------------------------------------------

  lemma BusyWithinCapacity(cfg: Config, s: State, sid: int, t: real)
    requires GoodConfig(cfg) && CapacityOk(cfg, s) && InStore(s, sid) && sid in cfg.servers
    ensures 0.0 <= Utilization(cfg, s, sid, t) <= 1.0
    ensures Utilization(cfg, s, sid, t) * cfg.servers[sid].capacity as real
            == CpuSum(cfg, sid, BusyServices(s, sid, t)) as real
  {
    hide Fraction, CpuSum, Pick, Working;
    var busy := BusyServices(s, sid, t);
    CpuSumMonotone(cfg, sid, busy, s.servers[sid].hosted.Keys);
    assert UsedCpu(cfg, s, sid) <= cfg.servers[sid].capacity;
    assert GoodServer(cfg, cfg.servers[sid]);
    FractionOfWhole(CpuSum(cfg, sid, busy), cfg.servers[sid].capacity);
  }

  lemma FractionOfWhole(part: int, whole: int)
    requires 0 <= part <= whole && 0 < whole
    ensures 0.0 <= Fraction(part, whole) <= 1.0
    ensures Fraction(part, whole) * whole as real == part as real
  {
    Ratio(part as real, whole as real);
  }

  lemma Ratio(a: real, b: real)
    requires 0.0 <= a <= b && 0.0 < b
    ensures 0.0 <= a / b <= 1.0 && a / b * b == a
  {
  }

  lemma MeterArithmetic(x: real, rate: real, cap: real, a: real, b: real)
    requires 0.0 <= rate <= 1.0 && 0.0 <= cap && 0.0 <= a && 0.0 <= b
    requires 0.0 <= x <= cap * a
    ensures 0.0 <= x + rate * cap * b <= cap * (a + b)
  {
    var load := rate * cap;
    assert 0.0 <= load <= cap;
    assert 0.0 <= load * b <= cap * b;
    assert cap * a + cap * b == cap * (a + b);
  }

  lemma MeterAdvances(cfg: Config, s: State, sid: int, t: real)
    requires GoodConfig(cfg) && InStore(s, sid) && sid in cfg.servers && CapacityOk(cfg, s)
    requires MeterOk(cfg, s, sid) && s.now <= t
    ensures Metered(cfg, s, sid, t).synced == t
    ensures WindowOk(Metered(cfg, s, sid, t), cfg.servers[sid].capacity, t - s.windowStart)
  {
    hide CpuSum, Pick, Working, BusyServices, CapacityOk, Fraction, Power;
    if t > s.now {
      var util := Utilization(cfg, s, sid, s.now);
      var cap := cfg.servers[sid].capacity as real;
      assert 0.0 <= cap by {
        assert GoodServer(cfg, cfg.servers[sid]);
      }
      BusyWithinCapacity(cfg, s, sid, s.now);
      var sv := s.servers[sid];
      MeterArithmetic(sv.busy - sv.busyAtWindow, util, cap, s.now - s.windowStart, t - s.now);
      assert s.now - s.windowStart + (t - s.now) == t - s.windowStart;
      assert Metered(cfg, s, sid, t).busy == sv.busy + util * cap * (t - s.now);
    }
  }

  lemma AdvanceMeters(cfg: Config, s: State, t: real)
    requires GoodConfig(cfg) && Linked(cfg, s) && CapacityOk(cfg, s) && MetersOk(cfg, s) && s.now <= t
    ensures MetersOk(cfg, Advance(cfg, s, t))
  {
    var r := Advance(cfg, s, t);
    forall sid | sid in r.servers && sid in cfg.servers ensures MeterOk(cfg, r, sid) {
      assert MeterOk(cfg, s, sid);
      MeterAdvances(cfg, s, sid, t);
      assert r.servers[sid] == Metered(cfg, s, sid, t);
    }
  }

  lemma AdvanceEvents(cfg: Config, s: State, tau: real, t: real)
    requires GoodConfig(cfg) && Linked(cfg, s) && EventsOk(cfg, s, tau) && s.now <= t
    requires forall k :: k in s.heap ==> t <= s.heap[k].time
    ensures EventsOk(cfg, Advance(cfg, s, t), tau)
  {
    hide Metered;
    var r := Advance(cfg, s, t);
    forall k | k in r.heap ensures k <= r.lastSeq && EventOk(cfg, r, tau, r.heap[k]) {
      assert EventOk(cfg, s, tau, s.heap[k]);
      match s.heap[k].kind
      case ReplicaGone(slot, owner) =>
        assert r.servers[slot.server].hosted == s.servers[slot.server].hosted;
        assert InSlot(r, slot.server, slot.service) <==> InSlot(s, slot.server, slot.service);
      case ReplicaReady(slot, owner) =>
        assert InSlot(s, slot.server, slot.service);
      case _ =>
    }
  }

  lemma AdvancePairs(cfg: Config, s: State, t: real)
    requires GoodConfig(cfg) && Linked(cfg, s) && GonePairsOk(cfg, s)
    ensures GonePairsOk(cfg, Advance(cfg, s, t))
  {
    var r := Advance(cfg, s, t);
    forall i, j | i in r.heap && j in r.heap ensures GonePairOk(cfg, r, i, j) {
      assert GonePairOk(cfg, s, i, j);
      if i != j && s.heap[i].kind == s.heap[j].kind && s.heap[i].kind.ReplicaGone? {
        var slot := s.heap[i].kind.slot;
        assert InSlot(r, slot.server, slot.service) ==> InSlot(s, slot.server, slot.service);
      }
    }
  }

  lemma AdvanceArmed(cfg: Config, s: State, t: real)
    requires GoodConfig(cfg) && Linked(cfg, s) && SlotsOk(s) && SlotsOk(Advance(cfg, s, t))
    requires ServersArmed(s, {}) && SlotsArmed(s, {})
    ensures ServersArmed(Advance(cfg, s, t), {}) && SlotsArmed(Advance(cfg, s, t), {})
  {
    var r := Advance(cfg, s, t);
    forall sid | sid in r.servers ensures ServerArmed(r, sid, {}) {
      assert ServerArmed(s, sid, {});
    }
    forall sid, v | InSlot(r, sid, v) ensures SlotOk(r, sid, v) && SlotArmed(r, sid, v, {}) {
      assert InSlot(s, sid, v) && SlotOk(s, sid, v) && SlotArmed(s, sid, v, {});
    }
  }

  lemma AdvancePending(cfg: Config, s: State, t: real)
    requires GoodConfig(cfg) && Linked(cfg, s) && PendingOk(cfg, s)
    ensures PendingOk(cfg, Advance(cfg, s, t))
  {
    var r := Advance(cfg, s, t);
    forall slot | slot in r.pending ensures PendingEntryOk(cfg, r, slot) {
      assert PendingEntryOk(cfg, s, slot);
      assert InSlot(s, slot.server, slot.service);
    }
  }

  lemma AdvancePhases(cfg: Config, s: State, t: real)
    requires GoodConfig(cfg) && Linked(cfg, s) && SlotsOk(s) && SlotsOk(Advance(cfg, s, t)) && s.now <= t
    requires PhasesOk(s)
    ensures PhasesOk(Advance(cfg, s, t))
    ensures CoverOk(s) ==> CoverOk(Advance(cfg, s, t))
  {
    var r := Advance(cfg, s, t);
    forall sid, v | InSlot(r, sid, v) ensures SlotOk(r, sid, v) && PhaseOk(r, sid, v) {
      assert InSlot(s, sid, v) && SlotOk(s, sid, v) && PhaseOk(s, sid, v);
    }
    if CoverOk(s) {
      CoverFrame(s, r);
    }
  }

  lemma AdvanceQueues(cfg: Config, s: State, t: real)
    requires GoodConfig(cfg) && Linked(cfg, s) && QueuesOk(s) && s.now <= t
    ensures QueuesOk(Advance(cfg, s, t))
  {
    var r := Advance(cfg, s, t);
    forall o | 0 <= o < |r.objects| ensures QueueOk(r, o) {
      assert QueueOk(s, o);
    }
  }

  lemma AdvanceBounds(cfg: Config, s: State, t: real)
    requires GoodConfig(cfg) && Linked(cfg, s) && DrainBoundOk(cfg, s)
    ensures DrainBoundOk(cfg, Advance(cfg, s, t))
  {
    var r := Advance(cfg, s, t);
    forall j | j in r.heap && r.heap[j].kind.DrainDone? && r.heap[j].kind.server in r.servers
      ensures DueInTime(cfg, r, r.heap[j].kind.server, r.heap[j].time - cfg.delays.grace)
    {
      assert DueInTime(cfg, s, s.heap[j].kind.server, s.heap[j].time - cfg.delays.grace);
    }
  }

  /** The clock may move up to the earliest event. */
  lemma AdvanceKeeps(cfg: Config, s: State, tau: real, t: real)
    requires Core(cfg, s, tau, {}) && s.now <= t <= tau
    requires forall k :: k in s.heap ==> t <= s.heap[k].time
    ensures Core(cfg, Advance(cfg, s, t), tau, {})
    ensures CoverOk(s) ==> CoverOk(Advance(cfg, s, t))
  {
    hide SlotsOk, IndexOk, CapacityOk, PhasesOk, EventsOk, UniqueOk, GonePairsOk, ServersArmed, SlotsArmed,
      PendingOk, RescueOk, QueuesOk, MetersOk, DrainBoundOk, CoverOk, HandledOk, UniqueOk;
    var r := Advance(cfg, s, t);
    HostingKept(cfg, s, r);
    AdvancePhases(cfg, s, t);
    AdvanceEvents(cfg, s, tau, t);
    AdvancePairs(cfg, s, t);
    AdvanceArmed(cfg, s, t);
    AdvancePending(cfg, s, t);
    AdvanceQueues(cfg, s, t);
    AdvanceBounds(cfg, s, t);
    AdvanceMeters(cfg, s, t);
    RescueFrame(s, r);
  }
}
