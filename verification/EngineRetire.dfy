/** Starting to drain a replica keeps the invariant. */
module EngineRetire {
  import opened Settings
  import opened ReplicaQueues
  import opened EngineModel
  import opened EngineInvariants
  import opened EngineClock
  import opened EngineOps

  /** `Retire` before its event is pushed. */
  function Leave(s: State, o: nat): State
    requires o < |s.objects|
  {
    WithObject(s, o, s.objects[o].(phase := Leaving))
  }

  /** A hosted replica that may be told to leave now. */
  ghost predicate MayLeave(s: State, sid: int, v: int, o: nat) {
    && InSlot(s, sid, v) && At(s, sid, v) == o && o < |s.objects|
    && s.objects[o].phase in {Ready, Leaving}
    && s.servers[sid].phase in {Active, Draining}
  }

  /** One object changed its phase; everything else is as before. */
  lemma LeaveSlots(s: State, sid: int, v: int, o: nat)
    requires SlotsOk(s) && MayLeave(s, sid, v, o)
    ensures SameHosting(s, Leave(s, o)) && SlotsOk(Leave(s, o))
    ensures forall x, w :: InSlot(s, x, w) && At(s, x, w) == o ==> x == sid && w == v
  {
    forall x, w | InSlot(s, x, w) && At(s, x, w) == o ensures x == sid && w == v {
      assert SlotOk(s, x, w) && SlotOk(s, sid, v);
    }
    HostingSlots(s, Leave(s, o));
  }

  lemma LeavePhases(s: State, sid: int, v: int, o: nat)
    requires SlotsOk(s) && PhasesOk(s) && MayLeave(s, sid, v, o) && SlotsOk(Leave(s, o))
    ensures PhasesOk(Leave(s, o))
    ensures CoverOk(s) ==> CoverOk(Leave(s, o))
  {
    var r := Leave(s, o);
    forall x, w | InSlot(r, x, w) ensures SlotOk(r, x, w) && PhaseOk(r, x, w) {
      assert InSlot(s, x, w) && SlotOk(s, x, w) && PhaseOk(s, x, w);
      LeaveSlots(s, sid, v, o);
    }
    if CoverOk(s) {
      forall x, w | InSlot(r, x, w) ensures SlotOk(r, x, w) && SlotCovered(r, x, w) {
        assert InSlot(s, x, w) && SlotOk(s, x, w) && SlotCovered(s, x, w);
        if r.servers[x].phase == Draining && r.objects[At(r, x, w)].phase == Ready {
          var t :| MigratesTo(s, x, w, t);
          assert MigratesTo(r, x, w, t);
        }
      }
    }
  }

  lemma LeaveEvents(cfg: Config, s: State, tau: real, sid: int, v: int, o: nat)
    requires SlotsOk(s) && EventsOk(cfg, s, tau) && MayLeave(s, sid, v, o)
    ensures EventsOk(cfg, Leave(s, o), tau)
  {
    var r := Leave(s, o);
    LeaveSlots(s, sid, v, o);
    forall k | k in r.heap ensures k <= r.lastSeq && EventOk(cfg, r, tau, r.heap[k]) {
      assert EventOk(cfg, s, tau, s.heap[k]);
      match s.heap[k].kind
      case ReplicaGone(slot, owner) =>
        assert InSlot(r, slot.server, slot.service) <==> InSlot(s, slot.server, slot.service);
        assert SlotOf(r, owner) == SlotOf(s, owner);
      case ReplicaReady(slot, owner) =>
        assert InSlot(s, slot.server, slot.service) && InSlot(r, slot.server, slot.service);
      case _ =>
    }
  }

  lemma LeavePairs(cfg: Config, s: State, o: nat)
    requires GonePairsOk(cfg, s) && o < |s.objects|
    ensures GonePairsOk(cfg, Leave(s, o))
  {
    var r := Leave(s, o);
    forall i, j | i in r.heap && j in r.heap ensures GonePairOk(cfg, r, i, j) {
      assert GonePairOk(cfg, s, i, j);
      if i != j && s.heap[i].kind == s.heap[j].kind && s.heap[i].kind.ReplicaGone? {
        var slot := s.heap[i].kind.slot;
        assert InSlot(r, slot.server, slot.service) <==> InSlot(s, slot.server, slot.service);
      }
    }
  }

  lemma LeaveArmed(s: State, sid: int, v: int, o: nat, handled: set<Kind>)
    requires SlotsOk(s) && MayLeave(s, sid, v, o) && SlotsOk(Leave(s, o))
    requires ServersArmed(s, handled) && SlotsArmed(s, handled)
    ensures ServersArmed(Leave(s, o), handled + {ReplicaGone(Slot(sid, v), o)})
    ensures SlotsArmed(Leave(s, o), handled + {ReplicaGone(Slot(sid, v), o)})
  {
    var r := Leave(s, o);
    var more := handled + {ReplicaGone(Slot(sid, v), o)};
    forall x | x in r.servers ensures ServerArmed(r, x, more) {
      assert ServerArmed(s, x, handled);
    }
    forall x, w | InSlot(r, x, w) ensures SlotOk(r, x, w) && SlotArmed(r, x, w, more) {
      assert InSlot(s, x, w) && SlotOk(s, x, w) && SlotArmed(s, x, w, handled);
      LeaveSlots(s, sid, v, o);
    }
  }

  lemma LeavePending(cfg: Config, s: State, sid: int, v: int, o: nat)
    requires SlotsOk(s) && PendingOk(cfg, s) && MayLeave(s, sid, v, o)
    ensures PendingOk(cfg, Leave(s, o))
  {
    var r := Leave(s, o);
    forall slot | slot in r.pending ensures PendingEntryOk(cfg, r, slot) {
      assert PendingEntryOk(cfg, s, slot) && InSlot(s, slot.server, slot.service);
      assert InSlot(r, slot.server, slot.service);
    }
  }

  lemma LeaveQueues(s: State, o: nat)
    requires QueuesOk(s) && o < |s.objects|
    ensures QueuesOk(Leave(s, o))
  {
    var r := Leave(s, o);
    forall p | 0 <= p < |r.objects| ensures QueueOk(r, p) {
      assert QueueOk(s, p);
    }
  }

  lemma LeaveBounds(cfg: Config, s: State, o: nat)
    requires DrainBoundOk(cfg, s) && o < |s.objects|
    ensures DrainBoundOk(cfg, Leave(s, o))
  {
    var r := Leave(s, o);
    forall j | j in r.heap && r.heap[j].kind.DrainDone? && r.heap[j].kind.server in r.servers
      ensures DueInTime(cfg, r, r.heap[j].kind.server, r.heap[j].time - cfg.delays.grace)
    {
      var x, t := s.heap[j].kind.server, s.heap[j].time - cfg.delays.grace;
      assert DueInTime(cfg, s, x, t);
      if t > s.servers[x].lastTransition + cfg.delays.startup + cfg.delays.graceful {
        var p :| 0 <= p < |s.objects| && s.objects[p].server == x && t <= s.objects[p].queue.availableAt;
        assert r.objects[p].server == x && r.objects[p].queue == s.objects[p].queue;
      }
    }
  }

  lemma LeaveKeeps(cfg: Config, s: State, tau: real, handled: set<Kind>, sid: int, v: int, o: nat)
    requires Core(cfg, s, tau, handled) && MayLeave(s, sid, v, o)
    ensures Core(cfg, Leave(s, o), tau, handled + {ReplicaGone(Slot(sid, v), o)})
    ensures CoverOk(s) ==> CoverOk(Leave(s, o))
  {
    hide SlotsOk, IndexOk, CapacityOk, PhasesOk, EventsOk, UniqueOk, GonePairsOk, ServersArmed, SlotsArmed,
      PendingOk, RescueOk, QueuesOk, MetersOk, DrainBoundOk, CoverOk;
    var r := Leave(s, o);
    LeaveSlots(s, sid, v, o);
    HostingKept(cfg, s, r);
    LeavePhases(s, sid, v, o);
    LeaveEvents(cfg, s, tau, sid, v, o);
    LeavePairs(cfg, s, o);
    LeaveArmed(s, sid, v, o, handled);
    LeavePending(cfg, s, sid, v, o);
    LeaveQueues(s, o);
    LeaveBounds(cfg, s, o);
    RescueFrame(s, r);
    MetersFrame(cfg, s, r);
  }

  /** Termination events already due for this replica are within this bound. */
  ghost predicate GoneBy(s: State, slot: Slot, o: nat, bound: real) {
    forall k :: k in s.heap && s.heap[k].kind == ReplicaGone(slot, o) ==> s.heap[k].time <= bound
  }

  /** A READY replica has no termination event yet. */
  lemma ReadyHasNoGone(cfg: Config, s: State, tau: real, sid: int, v: int, o: nat)
    requires EventsOk(cfg, s, tau) && InSlot(s, sid, v) && At(s, sid, v) == o && o < |s.objects|
    requires s.objects[o].phase == Ready
    ensures !HasEvent(s.heap, ReplicaGone(Slot(sid, v), o))
  {
    forall k | k in s.heap ensures s.heap[k].kind != ReplicaGone(Slot(sid, v), o) {
      assert EventOk(cfg, s, tau, s.heap[k]);
    }
  }

  /** `_start_replica_drain` of a READY replica, or of any replica of a server
      that has begun to drain at this very instant. */
  lemma RetireKeeps(cfg: Config, s: State, tau: real, handled: set<Kind>, sid: int, v: int, o: nat)
    requires Core(cfg, s, tau, handled) && MayLeave(s, sid, v, o)
    requires ReplicaGone(Slot(sid, v), o) !in handled
    requires s.servers[sid].phase == Draining ==> s.now <= s.servers[sid].lastTransition + cfg.delays.startup
    requires s.objects[o].phase == Ready || StaleGoneBounded(cfg, s, sid, v, o)
    ensures Core(cfg, Retire(cfg, s, o), tau, handled)
    ensures CoverOk(s) ==> CoverOk(Retire(cfg, s, o))
  {
    GoneStillBounded(cfg, s, tau, sid, v, o);
    LeaveKeeps(cfg, s, tau, handled, sid, v, o);
    RetireTail(cfg, s, tau, handled, sid, v, o);
  }

  lemma RetireTail(cfg: Config, s: State, tau: real, handled: set<Kind>, sid: int, v: int, o: nat)
    requires SlotsOk(s) && MayLeave(s, sid, v, o) && ReplicaGone(Slot(sid, v), o) !in handled
    requires Core(cfg, Leave(s, o), tau, handled + {ReplicaGone(Slot(sid, v), o)})
    requires StaleGoneBounded(cfg, Leave(s, o), sid, v, o)
    requires s.servers[sid].phase == Draining ==> s.now <= s.servers[sid].lastTransition + cfg.delays.startup
    ensures Core(cfg, Retire(cfg, s, o), tau, handled)
    ensures CoverOk(Leave(s, o)) ==> CoverOk(Retire(cfg, s, o))
  {
    hide Core, CoverOk;
    RetireIsPush(cfg, s, sid, v, o);
    var l := Leave(s, o);
    var kind := ReplicaGone(Slot(sid, v), o);
    var r := Retire(cfg, s, o);
    assert A: MayLeave(l, sid, v, o);
    assert B: l.servers == s.servers && l.now == s.now;
    PushGone(cfg, l, tau, handled, sid, v, o);
    assert Core(cfg, r, tau, handled);
  }

  lemma RetireIsPush(cfg: Config, s: State, sid: int, v: int, o: nat)
    requires SlotsOk(s) && MayLeave(s, sid, v, o)
    ensures var l := Leave(s, o);
            && MayLeave(l, sid, v, o) && SlotOf(l, o) == Slot(sid, v) && l.objects[o].phase == Leaving
            && Retire(cfg, s, o) == Push(l, l.now + Later(cfg.delays.graceful, l.objects[o].queue.availableAt - l.now),
                                         ReplicaGone(Slot(sid, v), o))
  {
    assert SlotOk(s, sid, v);
  }

  /** A termination event due before this drain began is within the drain's bound. */
  ghost predicate StaleGoneBounded(cfg: Config, l: State, sid: int, v: int, o: nat)
    requires sid in l.servers && o < |l.objects|
  {
    HasEvent(l.heap, ReplicaGone(Slot(sid, v), o)) ==>
      && l.servers[sid].phase == Draining && l.now == l.servers[sid].lastTransition
      && GoneBy(l, Slot(sid, v), o, Later(l.now + cfg.delays.graceful, l.objects[o].queue.availableAt))
  }

  lemma GoneStillBounded(cfg: Config, s: State, tau: real, sid: int, v: int, o: nat)
    requires EventsOk(cfg, s, tau) && MayLeave(s, sid, v, o)
    requires s.objects[o].phase == Ready || StaleGoneBounded(cfg, s, sid, v, o)
    ensures StaleGoneBounded(cfg, Leave(s, o), sid, v, o)
  {
    if s.objects[o].phase == Ready {
      ReadyHasNoGone(cfg, s, tau, sid, v, o);
    }
  }

  lemma PushGone(cfg: Config, l: State, tau: real, handled: set<Kind>, sid: int, v: int, o: nat)
    requires InSlot(l, sid, v) && At(l, sid, v) == o && o < |l.objects| && SlotOf(l, o) == Slot(sid, v)
    requires l.objects[o].phase == Leaving && l.servers[sid].phase in {Active, Draining}
    requires var kind := ReplicaGone(Slot(sid, v), o);
             Core(cfg, l, tau, handled + {kind}) && kind !in handled
    requires l.servers[sid].phase == Draining ==> l.now <= l.servers[sid].lastTransition + cfg.delays.startup
    requires StaleGoneBounded(cfg, l, sid, v, o)
    ensures var r := Push(l, l.now + Later(cfg.delays.graceful, l.objects[o].queue.availableAt - l.now),
                          ReplicaGone(Slot(sid, v), o));
            Core(cfg, r, tau, handled) && (CoverOk(l) ==> CoverOk(r))
  {
    hide SlotsOk, IndexOk, CapacityOk, PhasesOk, EventsOk, UniqueOk, GonePairsOk, ServersArmed, SlotsArmed,
      PendingOk, RescueOk, QueuesOk, MetersOk, DrainBoundOk, CoverOk, HandledOk;
    var kind := ReplicaGone(Slot(sid, v), o);
    var time := l.now + Later(cfg.delays.graceful, l.objects[o].queue.availableAt - l.now);
    assert ObjectLinked(cfg, l.objects[o]);
    assert time == Later(l.now + cfg.delays.graceful, l.objects[o].queue.availableAt);
    PushKeeps(cfg, l, tau, handled + {kind}, time, kind);
    assert handled + {kind} - {kind} == handled;
  }
}
