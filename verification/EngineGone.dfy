/** A replica's termination keeps the invariant. */
module EngineGone {
  import opened Collections
  import opened Settings
  import opened ReplicaQueues
  import opened EngineModel
  import opened EngineInvariants
  import opened EngineClock

  /** The slot's termination is due: its replica is leaving with an empty queue,
      and what else is due for the slot is within the bound of a drain. */
  ghost predicate GoneIsDue(cfg: Config, s: State, slot: Slot, o: nat) {
    && InSlot(s, slot.server, slot.service) && At(s, slot.server, slot.service) == o && o < |s.objects|
    && s.objects[o].phase == Leaving && s.objects[o].queue.availableAt <= s.now
    && forall k :: k in s.heap && s.heap[k].kind == ReplicaGone(slot, o) ==>
         && s.servers[slot.server].phase == Draining
         && s.heap[k].time <= Later(s.servers[slot.server].lastTransition + cfg.delays.graceful, s.now)
  }

  /** Only the one slot empties, and its object sits nowhere else. */
  lemma SlotAfterGone(cfg: Config, s: State, slot: Slot, o: nat, x: int, w: int)
    requires Linked(cfg, s) && SlotsOk(s) && GoneIsDue(cfg, s, slot, o)
    ensures InSlot(HandleGone(s, slot), x, w) <==> InSlot(s, x, w) && Slot(x, w) != slot
    ensures InSlot(s, x, w) ==> SlotOk(s, x, w) && (At(s, x, w) == o ==> Slot(x, w) == slot)
  {
    assert SlotOk(s, slot.server, slot.service);
    if InSlot(s, x, w) {
      assert SlotOk(s, x, w);
    }
  }

  lemma GoneSlots(cfg: Config, s: State, slot: Slot, o: nat)
    requires Linked(cfg, s) && SlotsOk(s) && IndexOk(s) && GoneIsDue(cfg, s, slot, o)
    ensures Linked(cfg, HandleGone(s, slot)) && SlotsOk(HandleGone(s, slot)) && IndexOk(HandleGone(s, slot))
  {
    var r := HandleGone(s, slot);
    forall x, w | InSlot(r, x, w) ensures SlotOk(r, x, w) {
      SlotAfterGone(cfg, s, slot, o, x, w);
    }
    forall v, p | v in r.byService && p in r.byService[v] ensures ListedOk(r, v, p) {
      assert p in s.byService[v] && ListedOk(s, v, p);
      SlotAfterGone(cfg, s, slot, o, s.objects[p].server, v);
      assert InSlot(r, s.objects[p].server, v);
    }
    forall x, w | InSlot(r, x, w) ensures w in r.byService && At(r, x, w) in r.byService[w] {
      SlotAfterGone(cfg, s, slot, o, x, w);
      assert InSlot(s, x, w);
    }
    forall v | v in r.byService ensures ListLinked(r.byService[v], |r.objects|) && Distinct(r.byService[v]) {
      assert ListLinked(s.byService[v], |s.objects|) && Distinct(s.byService[v]);
      forall i | 0 <= i < |r.byService[v]| ensures r.byService[v][i] < |r.objects| {
        assert r.byService[v][i] in s.byService[v];
      }
    }
    forall x | x in r.servers ensures HostLinked(cfg, r.servers[x].hosted, |r.objects|) {
      assert HostLinked(cfg, s.servers[x].hosted, |s.objects|);
    }
    forall p | 0 <= p < |r.objects| ensures ObjectLinked(cfg, r.objects[p]) {
      assert ObjectLinked(cfg, s.objects[p]);
    }
  }

  lemma GoneCapacity(cfg: Config, s: State, slot: Slot, o: nat)
    requires GoodConfig(cfg) && Linked(cfg, s) && CapacityOk(cfg, s) && GoneIsDue(cfg, s, slot, o)
    ensures CapacityOk(cfg, HandleGone(s, slot))
  {
    var r := HandleGone(s, slot);
    forall x | x in r.servers && x in cfg.servers ensures UsedCpu(cfg, r, x) <= cfg.servers[x].capacity {
      assert UsedCpu(cfg, s, x) <= cfg.servers[x].capacity;
      CpuSumMonotone(cfg, x, r.servers[x].hosted.Keys, s.servers[x].hosted.Keys);
    }
  }

  lemma GonePhases(cfg: Config, s: State, slot: Slot, o: nat)
    requires Linked(cfg, s) && SlotsOk(s) && PhasesOk(s) && GoneIsDue(cfg, s, slot, o)
    requires SlotsOk(HandleGone(s, slot))
    ensures PhasesOk(HandleGone(s, slot))
    ensures CoverOk(s) ==> CoverOk(HandleGone(s, slot))
  {
    var r := HandleGone(s, slot);
    forall x, w | InSlot(r, x, w) ensures SlotOk(r, x, w) && PhaseOk(r, x, w) {
      SlotAfterGone(cfg, s, slot, o, x, w);
      assert InSlot(s, x, w) && SlotOk(s, x, w) && PhaseOk(s, x, w);
    }
    if CoverOk(s) {
      forall x, w | InSlot(r, x, w) ensures SlotOk(r, x, w) && SlotCovered(r, x, w) {
        SlotAfterGone(cfg, s, slot, o, x, w);
        assert InSlot(s, x, w) && SlotOk(s, x, w) && SlotCovered(s, x, w);
        if r.servers[x].phase == Draining && r.objects[At(r, x, w)].phase == Ready {
          var t :| MigratesTo(s, x, w, t);
          assert MigratesTo(r, x, w, t);
        }
      }
    }
  }

  lemma GoneEvents(cfg: Config, s: State, tau: real, slot: Slot, o: nat)
    requires Linked(cfg, s) && SlotsOk(s) && EventsOk(cfg, s, tau) && GoneIsDue(cfg, s, slot, o)
    ensures EventsOk(cfg, HandleGone(s, slot), tau)
  {
    var r := HandleGone(s, slot);
    forall k | k in r.heap ensures k <= r.lastSeq && EventOk(cfg, r, tau, r.heap[k]) {
      assert EventOk(cfg, s, tau, s.heap[k]);
      match s.heap[k].kind
      case ReplicaGone(other, owner) =>
        SlotAfterGone(cfg, s, slot, o, other.server, other.service);
        assert SlotOf(r, owner) == SlotOf(s, owner);
        if other == slot {
          assert s.heap[k].kind == ReplicaGone(slot, o);
        }
      case ReplicaReady(other, owner) =>
        SlotAfterGone(cfg, s, slot, o, other.server, other.service);
      case _ =>
    }
  }

  lemma GonePairs(cfg: Config, s: State, slot: Slot, o: nat)
    requires Linked(cfg, s) && SlotsOk(s) && GonePairsOk(cfg, s) && GoneIsDue(cfg, s, slot, o)
    ensures GonePairsOk(cfg, HandleGone(s, slot))
  {
    var r := HandleGone(s, slot);
    forall i, j | i in r.heap && j in r.heap ensures GonePairOk(cfg, r, i, j) {
      assert GonePairOk(cfg, s, i, j);
      if i != j && s.heap[i].kind == s.heap[j].kind && s.heap[i].kind.ReplicaGone? {
        var other := s.heap[i].kind.slot;
        SlotAfterGone(cfg, s, slot, o, other.server, other.service);
      }
    }
  }

  lemma GoneArmed(cfg: Config, s: State, slot: Slot, o: nat)
    requires Linked(cfg, s) && SlotsOk(s) && GoneIsDue(cfg, s, slot, o)
    requires SlotsOk(HandleGone(s, slot))
    requires ServersArmed(s, {ReplicaGone(slot, o)}) && SlotsArmed(s, {ReplicaGone(slot, o)})
    ensures ServersArmed(HandleGone(s, slot), {}) && SlotsArmed(HandleGone(s, slot), {})
  {
    var r := HandleGone(s, slot);
    forall x | x in r.servers ensures ServerArmed(r, x, {}) {
      assert ServerArmed(s, x, {ReplicaGone(slot, o)});
    }
    forall x, w | InSlot(r, x, w) ensures SlotOk(r, x, w) && SlotArmed(r, x, w, {}) {
      SlotAfterGone(cfg, s, slot, o, x, w);
      assert InSlot(s, x, w) && SlotOk(s, x, w) && SlotArmed(s, x, w, {ReplicaGone(slot, o)});
    }
  }

  lemma GonePending(cfg: Config, s: State, slot: Slot, o: nat)
    requires Linked(cfg, s) && SlotsOk(s) && PendingOk(cfg, s) && GoneIsDue(cfg, s, slot, o)
    ensures PendingOk(cfg, HandleGone(s, slot))
  {
    var r := HandleGone(s, slot);
    forall other | other in r.pending ensures PendingEntryOk(cfg, r, other) {
      assert PendingEntryOk(cfg, s, other);
      SlotAfterGone(cfg, s, slot, o, other.server, other.service);
    }
  }

  lemma GoneQueues(cfg: Config, s: State, slot: Slot, o: nat)
    requires Linked(cfg, s) && QueuesOk(s) && GoneIsDue(cfg, s, slot, o)
    ensures QueuesOk(HandleGone(s, slot))
  {
    var r := HandleGone(s, slot);
    forall p | 0 <= p < |r.objects| ensures QueueOk(r, p) {
      assert QueueOk(s, p);
    }
  }

  lemma GoneBounds(cfg: Config, s: State, slot: Slot, o: nat)
    requires Linked(cfg, s) && DrainBoundOk(cfg, s) && GoneIsDue(cfg, s, slot, o)
    ensures DrainBoundOk(cfg, HandleGone(s, slot))
  {
    var r := HandleGone(s, slot);
    forall j | j in r.heap && r.heap[j].kind.DrainDone? && r.heap[j].kind.server in r.servers
      ensures DueInTime(cfg, r, r.heap[j].kind.server, r.heap[j].time - cfg.delays.grace)
    {
      var x, t := s.heap[j].kind.server, s.heap[j].time - cfg.delays.grace;
      assert DueInTime(cfg, s, x, t);
      if t > s.servers[x].lastTransition + cfg.delays.startup + cfg.delays.graceful {
        var p :| 0 <= p < |s.objects| && s.objects[p].server == x && t <= s.objects[p].queue.availableAt;
        assert r.objects[p].server == x && r.objects[p].queue == s.objects[p].queue;
      }
    }
  }

  lemma GoneMeters(cfg: Config, s: State, slot: Slot, o: nat)
    requires Linked(cfg, s) && MetersOk(cfg, s) && GoneIsDue(cfg, s, slot, o)
    ensures MetersOk(cfg, HandleGone(s, slot))
  {
    var r := HandleGone(s, slot);
    forall x | x in r.servers && x in cfg.servers ensures MeterOk(cfg, r, x) {
      assert MeterOk(cfg, s, x);
    }
  }

  /** The event met its own replica. */
  lemma HandleGoneKeeps(cfg: Config, s: State, tau: real, slot: Slot, o: nat)
    requires Core(cfg, s, tau, {ReplicaGone(slot, o)}) && GoneIsDue(cfg, s, slot, o)
    ensures Core(cfg, HandleGone(s, slot), tau, {})
    ensures CoverOk(s) ==> CoverOk(HandleGone(s, slot))
  {
    hide SlotsOk, IndexOk, CapacityOk, PhasesOk, EventsOk, UniqueOk, GonePairsOk, ServersArmed, SlotsArmed,
      PendingOk, RescueOk, QueuesOk, MetersOk, DrainBoundOk, CoverOk;
    GoneSlots(cfg, s, slot, o);
    GoneCapacity(cfg, s, slot, o);
    GonePhases(cfg, s, slot, o);
    GoneEvents(cfg, s, tau, slot, o);
    GonePairs(cfg, s, slot, o);
    GoneArmed(cfg, s, slot, o);
    GonePending(cfg, s, slot, o);
    GoneQueues(cfg, s, slot, o);
    GoneBounds(cfg, s, slot, o);
    GoneMeters(cfg, s, slot, o);
    RescueFrame(s, HandleGone(s, slot));
  }

  /** The event found the slot empty: nothing was owed for it. */
  lemma StaleGoneKeeps(cfg: Config, s: State, tau: real, slot: Slot, o: nat)
    requires Core(cfg, s, tau, {ReplicaGone(slot, o)}) && !InSlot(s, slot.server, slot.service)
    ensures Core(cfg, s, tau, {})
  {
    forall x | x in s.servers ensures ServerArmed(s, x, {}) {
      assert ServerArmed(s, x, {ReplicaGone(slot, o)});
    }
    forall x, w | InSlot(s, x, w) ensures SlotOk(s, x, w) && SlotArmed(s, x, w, {}) {
      assert SlotOk(s, x, w) && SlotArmed(s, x, w, {ReplicaGone(slot, o)});
    }
  }
}
