/** A replica becoming READY, completing its migration, keeps the invariant. */
module EngineReady {
  import opened Settings
  import opened ReplicaQueues
  import opened EngineModel
  import opened EngineInvariants
  import opened EngineClock
  import opened EngineOps
  import opened EngineRetire

  /** The replica is READY and its pending migration, if any, is taken off the list. */
  function MarkReady(s: State, slot: Slot, o: nat): State
    requires o < |s.objects|
  {
    WithObject(s, o, s.objects[o].(phase := Ready, readySince := Some(s.now))).(pending := s.pending - {slot})
  }

  ghost predicate MayBecomeReady(s: State, slot: Slot, o: nat) {
    && InSlot(s, slot.server, slot.service) && At(s, slot.server, slot.service) == o && o < |s.objects|
    && s.objects[o].phase == Starting && s.servers[slot.server].phase == Active
  }

  lemma OnlySlotOf(s: State, slot: Slot, o: nat)
    requires SlotsOk(s) && MayBecomeReady(s, slot, o)
    ensures forall x, w :: InSlot(s, x, w) && At(s, x, w) == o ==> Slot(x, w) == slot
  {
    forall x, w | InSlot(s, x, w) && At(s, x, w) == o ensures Slot(x, w) == slot {
      assert SlotOk(s, x, w) && SlotOk(s, slot.server, slot.service);
    }
  }

  lemma ReadyPhases(s: State, slot: Slot, o: nat)
    requires SlotsOk(s) && PhasesOk(s) && MayBecomeReady(s, slot, o) && SlotsOk(MarkReady(s, slot, o))
    ensures PhasesOk(MarkReady(s, slot, o))
  {
    var r := MarkReady(s, slot, o);
    OnlySlotOf(s, slot, o);
    forall x, w | InSlot(r, x, w) ensures SlotOk(r, x, w) && PhaseOk(r, x, w) {
      assert InSlot(s, x, w) && SlotOk(s, x, w) && PhaseOk(s, x, w);
    }
  }

  /** Only the source of the completed migration may lose its cover. */
  lemma ReadyCover(s: State, slot: Slot, o: nat)
    requires SlotsOk(s) && CoverOk(s) && MayBecomeReady(s, slot, o) && SlotsOk(MarkReady(s, slot, o))
    ensures var r := MarkReady(s, slot, o);
            forall x, w :: InSlot(r, x, w) && !(slot in s.pending && w == slot.service && x == s.pending[slot]) ==>
                             SlotOk(r, x, w) && SlotCovered(r, x, w)
  {
    var r := MarkReady(s, slot, o);
    OnlySlotOf(s, slot, o);
    forall x, w | InSlot(r, x, w) && !(slot in s.pending && w == slot.service && x == s.pending[slot])
      ensures SlotOk(r, x, w) && SlotCovered(r, x, w)
    {
      assert InSlot(s, x, w) && SlotOk(s, x, w) && SlotCovered(s, x, w);
      if r.servers[x].phase == Draining && r.objects[At(r, x, w)].phase == Ready {
        var t :| MigratesTo(s, x, w, t);
        assert MigratesTo(r, x, w, t);
      }
    }
  }

  lemma ReadyEvents(cfg: Config, s: State, tau: real, slot: Slot, o: nat)
    requires SlotsOk(s) && EventsOk(cfg, s, tau) && MayBecomeReady(s, slot, o)
    requires !HasEvent(s.heap, ReplicaReady(slot, o))
    ensures EventsOk(cfg, MarkReady(s, slot, o), tau)
  {
    var r := MarkReady(s, slot, o);
    OnlySlotOf(s, slot, o);
    forall k | k in r.heap ensures k <= r.lastSeq && EventOk(cfg, r, tau, r.heap[k]) {
      assert EventOk(cfg, s, tau, s.heap[k]);
      assert s.heap[k].kind != ReplicaReady(slot, o);
      match s.heap[k].kind
      case ReplicaGone(other, owner) =>
        assert InSlot(r, other.server, other.service) <==> InSlot(s, other.server, other.service);
      case ReplicaReady(other, owner) =>
        assert InSlot(s, other.server, other.service) && InSlot(r, other.server, other.service);
      case _ =>
    }
  }

  lemma ReadyPairs(cfg: Config, s: State, slot: Slot, o: nat)
    requires GonePairsOk(cfg, s) && o < |s.objects|
    ensures GonePairsOk(cfg, MarkReady(s, slot, o))
  {
    var r := MarkReady(s, slot, o);
    forall i, j | i in r.heap && j in r.heap ensures GonePairOk(cfg, r, i, j) {
      assert GonePairOk(cfg, s, i, j);
      if i != j && s.heap[i].kind == s.heap[j].kind && s.heap[i].kind.ReplicaGone? {
        var other := s.heap[i].kind.slot;
        assert InSlot(r, other.server, other.service) <==> InSlot(s, other.server, other.service);
      }
    }
  }

  lemma ReadyArmed(s: State, slot: Slot, o: nat, handled: set<Kind>)
    requires SlotsOk(s) && MayBecomeReady(s, slot, o) && SlotsOk(MarkReady(s, slot, o))
    requires ServersArmed(s, handled + {ReplicaReady(slot, o)}) && SlotsArmed(s, handled + {ReplicaReady(slot, o)})
    ensures ServersArmed(MarkReady(s, slot, o), handled) && SlotsArmed(MarkReady(s, slot, o), handled)
  {
    var r := MarkReady(s, slot, o);
    OnlySlotOf(s, slot, o);
    forall x | x in r.servers ensures ServerArmed(r, x, handled) {
      assert ServerArmed(s, x, handled + {ReplicaReady(slot, o)});
    }
    forall x, w | InSlot(r, x, w) ensures SlotOk(r, x, w) && SlotArmed(r, x, w, handled) {
      assert InSlot(s, x, w) && SlotOk(s, x, w) && SlotArmed(s, x, w, handled + {ReplicaReady(slot, o)});
    }
  }

  lemma ReadyPending(cfg: Config, s: State, slot: Slot, o: nat)
    requires SlotsOk(s) && PendingOk(cfg, s) && MayBecomeReady(s, slot, o)
    ensures PendingOk(cfg, MarkReady(s, slot, o))
  {
    var r := MarkReady(s, slot, o);
    OnlySlotOf(s, slot, o);
    forall other | other in r.pending ensures PendingEntryOk(cfg, r, other) {
      assert PendingEntryOk(cfg, s, other) && InSlot(s, other.server, other.service);
      assert InSlot(r, other.server, other.service);
    }
  }

  lemma ReadyQueues(s: State, slot: Slot, o: nat)
    requires QueuesOk(s) && o < |s.objects|
    ensures QueuesOk(MarkReady(s, slot, o))
  {
    var r := MarkReady(s, slot, o);
    forall p | 0 <= p < |r.objects| ensures QueueOk(r, p) {
      assert QueueOk(s, p);
    }
  }

  lemma ReadyBounds(cfg: Config, s: State, slot: Slot, o: nat)
    requires DrainBoundOk(cfg, s) && o < |s.objects|
    ensures DrainBoundOk(cfg, MarkReady(s, slot, o))
  {
    var r := MarkReady(s, slot, o);
    forall j | j in r.heap && r.heap[j].kind.DrainDone? && r.heap[j].kind.server in r.servers
      ensures DueInTime(cfg, r, r.heap[j].kind.server, r.heap[j].time - cfg.delays.grace)
    {
      var x, t := s.heap[j].kind.server, s.heap[j].time - cfg.delays.grace;
      assert DueInTime(cfg, s, x, t);
      if t > s.servers[x].lastTransition + cfg.delays.startup + cfg.delays.graceful {
        var p :| 0 <= p < |s.objects| && s.objects[p].server == x && t <= s.objects[p].queue.availableAt;
        assert r.objects[p].server == x && r.objects[p].queue == s.objects[p].queue;
      }
    }
  }

  lemma MarkReadyKeeps(cfg: Config, s: State, tau: real, handled: set<Kind>, slot: Slot, o: nat)
    requires Core(cfg, s, tau, handled + {ReplicaReady(slot, o)}) && MayBecomeReady(s, slot, o)
    ensures Core(cfg, MarkReady(s, slot, o), tau, handled)
  {
    hide SlotsOk, IndexOk, CapacityOk, PhasesOk, EventsOk, UniqueOk, GonePairsOk, ServersArmed, SlotsArmed,
      PendingOk, RescueOk, QueuesOk, MetersOk, DrainBoundOk, CoverOk;
    var r := MarkReady(s, slot, o);
    HostingKept(cfg, s, r);
    ReadyPhases(s, slot, o);
    ReadyEvents(cfg, s, tau, slot, o);
    ReadyPairs(cfg, s, slot, o);
    ReadyArmed(s, slot, o, handled);
    ReadyPending(cfg, s, slot, o);
    ReadyQueues(s, slot, o);
    ReadyBounds(cfg, s, slot, o);
    RescueFrame(s, r);
    MetersFrame(cfg, s, r);
  }

  /** Facts about the popped ready event that the handler relies on. */
  ghost predicate ReadyIsDue(cfg: Config, s: State, slot: Slot, o: nat) {
    && MayBecomeReady(s, slot, o)
    && (slot in s.pending ==>
          && s.pending[slot] in s.servers && s.servers[s.pending[slot]].phase == Draining
          && s.now == s.servers[s.pending[slot]].lastTransition + cfg.delays.startup)
  }

  /** Whether this event completes a migration whose source is still serving. */
  ghost predicate SourceStillReady(s: State, slot: Slot) {
    && slot in s.pending && InSlot(s, s.pending[slot], slot.service)
    && At(s, s.pending[slot], slot.service) < |s.objects|
    && s.objects[At(s, s.pending[slot], slot.service)].phase == Ready
  }

  /** `HandleReady` is: mark ready, then retire the source if it still serves. */
  lemma HandleReadyShape(cfg: Config, s: State, slot: Slot, o: nat)
    requires Linked(cfg, s) && SlotsOk(s) && PhasesOk(s) && ReadyIsDue(cfg, s, slot, o)
    requires forall sid :: sid in s.servers ==> InStore(s, sid)
    ensures var r := MarkReady(s, slot, o);
            HandleReady(cfg, s, slot)
            == if SourceStillReady(s, slot) then Retire(cfg, r, At(s, s.pending[slot], slot.service)) else r
    ensures SourceStillReady(s, slot) ==> At(s, s.pending[slot], slot.service) != o
  {
    if slot in s.pending && InSlot(s, s.pending[slot], slot.service) {
      var source := s.pending[slot];
      assert SlotOk(s, source, slot.service) && PhaseOk(s, source, slot.service);
      assert SlotOk(s, slot.server, slot.service);
    }
    if slot !in s.pending {
      assert s.pending - {slot} == s.pending;
    }
  }

  lemma HandleReadyKeeps(cfg: Config, s: State, tau: real, slot: Slot, o: nat)
    requires Core(cfg, s, tau, {ReplicaReady(slot, o)}) && CoverOk(s) && ReadyIsDue(cfg, s, slot, o)
    requires forall sid :: sid in s.servers ==> InStore(s, sid)
    ensures Core(cfg, HandleReady(cfg, s, slot), tau, {})
    ensures CoverOk(HandleReady(cfg, s, slot))
  {
    hide SlotsOk, IndexOk, CapacityOk, PhasesOk, EventsOk, UniqueOk, GonePairsOk, ServersArmed, SlotsArmed,
      PendingOk, RescueOk, QueuesOk, MetersOk, DrainBoundOk, CoverOk;
    var r := MarkReady(s, slot, o);
    assert {} + {ReplicaReady(slot, o)} == {ReplicaReady(slot, o)};
    MarkReadyKeeps(cfg, s, tau, {}, slot, o);
    HandleReadyShape(cfg, s, slot, o);
    ReadyCover(s, slot, o);
    if SourceStillReady(s, slot) {
      var source := s.pending[slot];
      RetireSourceKeeps(cfg, r, tau, source, slot.service, At(s, source, slot.service));
    } else {
      NoSourceCovers(s, slot, o);
    }
  }

  /** The source leaves: the one slot without cover is no longer READY. */
  lemma RetireSourceKeeps(cfg: Config, r: State, tau: real, source: int, v: int, p: nat)
    requires Core(cfg, r, tau, {}) && MayLeave(r, source, v, p) && r.objects[p].phase == Ready
    requires r.servers[source].phase == Draining && r.now == r.servers[source].lastTransition + cfg.delays.startup
    requires forall x, w :: InSlot(r, x, w) && !(w == v && x == source) ==> SlotOk(r, x, w) && SlotCovered(r, x, w)
    ensures Core(cfg, Retire(cfg, r, p), tau, {}) && CoverOk(Retire(cfg, r, p))
  {
    RetireKeeps(cfg, r, tau, {}, source, v, p);
    RetireCovers(cfg, r, source, v, p);
  }

  lemma RetireCovers(cfg: Config, r: State, source: int, v: int, p: nat)
    requires SlotsOk(r) && MayLeave(r, source, v, p)
    requires SlotsOk(Retire(cfg, r, p))
    requires forall x, w :: InSlot(r, x, w) && !(w == v && x == source) ==> SlotOk(r, x, w) && SlotCovered(r, x, w)
    ensures CoverOk(Retire(cfg, r, p))
  {
    var q := Retire(cfg, r, p);
    forall x, w | InSlot(q, x, w) ensures SlotOk(q, x, w) && SlotCovered(q, x, w) {
      assert InSlot(r, x, w) && SlotOk(r, x, w);
      if !(w == v && x == source) && q.servers[x].phase == Draining && q.objects[At(q, x, w)].phase == Ready {
        assert SlotCovered(r, x, w);
        var t :| MigratesTo(r, x, w, t);
        assert MigratesTo(q, x, w, t);
      }
    }
  }

  lemma NoSourceCovers(s: State, slot: Slot, o: nat)
    requires SlotsOk(s) && MayBecomeReady(s, slot, o) && !SourceStillReady(s, slot)
    requires SlotsOk(MarkReady(s, slot, o))
    requires slot in s.pending ==> s.pending[slot] in s.servers && s.servers[s.pending[slot]].phase == Draining
    requires var r := MarkReady(s, slot, o);
             forall x, w :: InSlot(r, x, w) && !(slot in s.pending && w == slot.service && x == s.pending[slot]) ==>
                              SlotOk(r, x, w) && SlotCovered(r, x, w)
    ensures CoverOk(MarkReady(s, slot, o))
  {
    var r := MarkReady(s, slot, o);
    OnlySlotOf(s, slot, o);
    forall x, w | InSlot(r, x, w) ensures SlotOk(r, x, w) && SlotCovered(r, x, w) {
      assert InSlot(s, x, w) && SlotOk(s, x, w);
    }
  }
}
