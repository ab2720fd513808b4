/** Placing a replica keeps the invariant. */
module EnginePlace {
  import opened Collections
  import opened Settings
  import opened ReplicaQueues
  import opened EngineModel
  import opened EngineInvariants
  import opened EngineClock
  import opened EngineOps

  /** The slot is free: no copy is hosted and no termination is due for it. */
  ghost predicate Vacant(s: State, sid: int, svc: int) {
    && sid in s.servers && svc !in s.servers[sid].hosted
    && forall k :: k in s.heap && s.heap[k].kind.ReplicaGone? ==> s.heap[k].kind.slot != Slot(sid, svc)
  }

  /** On an ACTIVE server an empty slot has no leftover termination event. */
  lemma ActiveIsVacant(cfg: Config, s: State, tau: real, sid: int, svc: int)
    requires EventsOk(cfg, s, tau) && sid in s.servers && s.servers[sid].phase == Active
    requires svc !in s.servers[sid].hosted
    ensures Vacant(s, sid, svc)
  {
    forall k | k in s.heap && s.heap[k].kind.ReplicaGone? ensures s.heap[k].kind.slot != Slot(sid, svc) {
      assert EventOk(cfg, s, tau, s.heap[k]);
    }
  }

  lemma CreateSlots(cfg: Config, s: State, sid: int, svc: int)
    requires GoodConfig(cfg) && Linked(cfg, s) && SlotsOk(s) && IndexOk(s)
    requires sid in s.servers && svc in cfg.services && svc !in s.servers[sid].hosted
    ensures SlotsOk(Create(cfg, s, sid, svc)) && IndexOk(Create(cfg, s, sid, svc))
  {
    var r := Create(cfg, s, sid, svc);
    var n := |s.objects|;
    forall x, v | InSlot(r, x, v) ensures SlotOk(r, x, v) {
      if x != sid || v != svc {
        assert InSlot(s, x, v) && SlotOk(s, x, v);
      }
    }
    assert ListLinked(s.byService[svc], n);
    assert n !in s.byService[svc];
    forall v | v in r.byService ensures Distinct(r.byService[v]) {
      assert Distinct(s.byService[v]);
    }
    forall v, o | v in r.byService && o in r.byService[v] ensures ListedOk(r, v, o) {
      if o != n {
        assert o in s.byService[v] && ListedOk(s, v, o);
        assert InSlot(r, s.objects[o].server, v);
      } else {
        assert ListLinked(s.byService[v], n);
        assert v == svc;
        assert InSlot(r, sid, svc);
      }
    }
    forall x, v | InSlot(r, x, v) ensures v in r.byService && At(r, x, v) in r.byService[v] {
      if x != sid || v != svc {
        assert InSlot(s, x, v);
      } else {
        assert r.byService[svc][|s.byService[svc]|] == n;
      }
    }
  }

  lemma CreateCapacity(cfg: Config, s: State, sid: int, svc: int)
    requires GoodConfig(cfg) && Linked(cfg, s) && CapacityOk(cfg, s)
    requires sid in s.servers && svc in cfg.services && CanHost(cfg, s, sid, svc)
    ensures CapacityOk(cfg, Create(cfg, s, sid, svc))
    ensures UsedCpu(cfg, Create(cfg, s, sid, svc), sid) == UsedCpu(cfg, s, sid) + CpuOf(cfg, sid, svc)
  {
    var r := Create(cfg, s, sid, svc);
    CpuSumAdd(cfg, sid, s.servers[sid].hosted.Keys, svc);
    assert r.servers[sid].hosted.Keys == s.servers[sid].hosted.Keys + {svc};
    forall x | x in r.servers && x in cfg.servers ensures UsedCpu(cfg, r, x) <= cfg.servers[x].capacity {
      if x != sid {
        assert UsedCpu(cfg, r, x) == UsedCpu(cfg, s, x);
      }
    }
  }

  lemma CreatePhases(cfg: Config, s: State, sid: int, svc: int)
    requires GoodConfig(cfg) && Linked(cfg, s) && SlotsOk(s) && PhasesOk(s)
    requires sid in s.servers && svc in cfg.services && svc !in s.servers[sid].hosted
    requires s.servers[sid].phase in {Active, Booting} && SlotsOk(Create(cfg, s, sid, svc))
    ensures PhasesOk(Create(cfg, s, sid, svc))
    ensures CoverOk(s) ==> CoverOk(Create(cfg, s, sid, svc))
  {
    var r := Create(cfg, s, sid, svc);
    forall x, v | InSlot(r, x, v) ensures SlotOk(r, x, v) && PhaseOk(r, x, v) {
      if x != sid || v != svc {
        assert InSlot(s, x, v) && SlotOk(s, x, v) && PhaseOk(s, x, v);
      }
    }
    if CoverOk(s) {
      forall x, v | InSlot(r, x, v) ensures SlotOk(r, x, v) && SlotCovered(r, x, v) {
        if x != sid || v != svc {
          assert InSlot(s, x, v) && SlotOk(s, x, v) && SlotCovered(s, x, v);
          if r.servers[x].phase == Draining && r.objects[At(r, x, v)].phase == Ready {
            var t :| MigratesTo(s, x, v, t);
            assert MigratesTo(r, x, v, t);
          }
        }
      }
    }
  }

  lemma CreateEvents(cfg: Config, s: State, tau: real, sid: int, svc: int)
    requires GoodConfig(cfg) && Linked(cfg, s) && EventsOk(cfg, s, tau)
    requires svc in cfg.services && Vacant(s, sid, svc)
    ensures EventsOk(cfg, Create(cfg, s, sid, svc), tau)
  {
    hide HostLinked, ListLinked, ObjectLinked;
    var r := Create(cfg, s, sid, svc);
    forall k | k in r.heap ensures k <= r.lastSeq && EventOk(cfg, r, tau, r.heap[k]) {
      assert EventOk(cfg, s, tau, s.heap[k]);
      match s.heap[k].kind
      case ReplicaGone(slot, owner) =>
        assert slot != Slot(sid, svc);
        assert InSlot(r, slot.server, slot.service) <==> InSlot(s, slot.server, slot.service);
      case ReplicaReady(slot, owner) =>
        assert InSlot(s, slot.server, slot.service);
        assert slot != Slot(sid, svc);
      case _ =>
    }
  }

  lemma CreatePairs(cfg: Config, s: State, sid: int, svc: int)
    requires GoodConfig(cfg) && Linked(cfg, s) && GonePairsOk(cfg, s)
    requires forall k :: k in s.heap && s.heap[k].kind.ReplicaGone? ==> s.heap[k].kind.owner < |s.objects|
    requires svc in cfg.services && Vacant(s, sid, svc)
    ensures GonePairsOk(cfg, Create(cfg, s, sid, svc))
  {
    var r := Create(cfg, s, sid, svc);
    forall i, j | i in r.heap && j in r.heap ensures GonePairOk(cfg, r, i, j) {
      assert GonePairOk(cfg, s, i, j);
      if i != j && s.heap[i].kind == s.heap[j].kind && s.heap[i].kind.ReplicaGone? {
        var slot := s.heap[i].kind.slot;
        assert slot != Slot(sid, svc);
        assert InSlot(r, slot.server, slot.service) <==> InSlot(s, slot.server, slot.service);
      }
    }
  }

  lemma CreateArmed(cfg: Config, s: State, sid: int, svc: int, handled: set<Kind>)
    requires GoodConfig(cfg) && Linked(cfg, s) && SlotsOk(s)
    requires ServersArmed(s, handled) && SlotsArmed(s, handled)
    requires sid in s.servers && svc in cfg.services && svc !in s.servers[sid].hosted
    requires SlotsOk(Create(cfg, s, sid, svc))
    ensures ServersArmed(Create(cfg, s, sid, svc), handled)
    ensures var due := if s.servers[sid].phase == Active then {ReplicaReady(Slot(sid, svc), |s.objects|)} else {};
            SlotsArmed(Create(cfg, s, sid, svc), handled + due)
  {
    var r := Create(cfg, s, sid, svc);
    var due := if s.servers[sid].phase == Active then {ReplicaReady(Slot(sid, svc), |s.objects|)} else {};
    forall x | x in r.servers ensures ServerArmed(r, x, handled) {
      assert ServerArmed(s, x, handled);
    }
    forall x, v | InSlot(r, x, v) ensures SlotOk(r, x, v) && SlotArmed(r, x, v, handled + due) {
      if x != sid || v != svc {
        assert InSlot(s, x, v) && SlotOk(s, x, v) && SlotArmed(s, x, v, handled);
      }
    }
  }

  lemma CreatePending(cfg: Config, s: State, sid: int, svc: int)
    requires GoodConfig(cfg) && Linked(cfg, s) && PendingOk(cfg, s)
    requires sid in s.servers && svc in cfg.services && svc !in s.servers[sid].hosted
    ensures PendingOk(cfg, Create(cfg, s, sid, svc))
    ensures Slot(sid, svc) !in s.pending
  {
    hide Linked;
    var r := Create(cfg, s, sid, svc);
    assert Slot(sid, svc) in s.pending ==> PendingEntryOk(cfg, s, Slot(sid, svc));
    forall slot | slot in r.pending ensures PendingEntryOk(cfg, r, slot) {
      assert PendingEntryOk(cfg, s, slot) && InSlot(s, slot.server, slot.service);
      assert InSlot(r, slot.server, slot.service);
    }
  }

  lemma CreateQueues(cfg: Config, s: State, sid: int, svc: int)
    requires GoodConfig(cfg) && Linked(cfg, s) && QueuesOk(s) && sid in s.servers && svc in cfg.services
    ensures QueuesOk(Create(cfg, s, sid, svc))
  {
    var r := Create(cfg, s, sid, svc);
    forall o | 0 <= o < |r.objects| ensures QueueOk(r, o) {
      if o < |s.objects| {
        assert QueueOk(s, o);
      }
    }
  }

  lemma CreateBounds(cfg: Config, s: State, sid: int, svc: int)
    requires GoodConfig(cfg) && Linked(cfg, s) && DrainBoundOk(cfg, s) && sid in s.servers && svc in cfg.services
    ensures DrainBoundOk(cfg, Create(cfg, s, sid, svc))
  {
    var r := Create(cfg, s, sid, svc);
    forall j | j in r.heap && r.heap[j].kind.DrainDone? && r.heap[j].kind.server in r.servers
      ensures DueInTime(cfg, r, r.heap[j].kind.server, r.heap[j].time - cfg.delays.grace)
    {
      var x, t := s.heap[j].kind.server, s.heap[j].time - cfg.delays.grace;
      assert DueInTime(cfg, s, x, t);
      if t > s.servers[x].lastTransition + cfg.delays.startup + cfg.delays.graceful {
        var o :| 0 <= o < |s.objects| && s.objects[o].server == x && t <= s.objects[o].queue.availableAt;
        assert r.objects[o] == s.objects[o];
      }
    }
  }

  lemma CreateMeters(cfg: Config, s: State, sid: int, svc: int)
    requires GoodConfig(cfg) && Linked(cfg, s) && sid in s.servers && svc in cfg.services
    requires MetersOk(cfg, s)
    ensures MetersOk(cfg, Create(cfg, s, sid, svc))
  {
    var r := Create(cfg, s, sid, svc);
    forall x | x in r.servers && x in cfg.servers ensures MeterOk(cfg, r, x) {
      assert MeterOk(cfg, s, x);
    }
  }

  lemma CreateKeeps(cfg: Config, s: State, tau: real, handled: set<Kind>, sid: int, svc: int)
    requires Core(cfg, s, tau, handled) && svc in cfg.services && Vacant(s, sid, svc)
    requires CanHost(cfg, s, sid, svc) && s.servers[sid].phase in {Active, Booting}
    ensures var due := if s.servers[sid].phase == Active then {ReplicaReady(Slot(sid, svc), |s.objects|)} else {};
            Core(cfg, Create(cfg, s, sid, svc), tau, handled + due)
    ensures CoverOk(s) ==> CoverOk(Create(cfg, s, sid, svc))
    ensures Slot(sid, svc) !in s.pending
  {
    hide SlotsOk, IndexOk, CapacityOk, PhasesOk, EventsOk, UniqueOk, GonePairsOk, SlotsArmed, PendingOk,
      RescueOk, QueuesOk, MetersOk, DrainBoundOk, CoverOk;
    var r := Create(cfg, s, sid, svc);
    CreateSlots(cfg, s, sid, svc);
    CreateCapacity(cfg, s, sid, svc);
    CreatePhases(cfg, s, sid, svc);
    CreateEvents(cfg, s, tau, sid, svc);
    OwnersAllocated(cfg, s, tau);
    CreatePairs(cfg, s, sid, svc);
    CreateArmed(cfg, s, sid, svc, handled);
    CreatePending(cfg, s, sid, svc);
    CreateQueues(cfg, s, sid, svc);
    CreateBounds(cfg, s, sid, svc);
    CreateMeters(cfg, s, sid, svc);
    RescueFrame(s, r);
  }

  /** Every replica event refers to an object already allocated. */
  lemma OwnersAllocated(cfg: Config, s: State, tau: real)
    requires EventsOk(cfg, s, tau)
    ensures forall k :: k in s.heap && s.heap[k].kind.ReplicaGone? ==> s.heap[k].kind.owner < |s.objects|
    ensures forall slot, o :: o >= |s.objects| ==> !HasEvent(s.heap, ReplicaReady(slot, o))
  {
    forall k | k in s.heap
      ensures s.heap[k].kind.ReplicaGone? ==> s.heap[k].kind.owner < |s.objects|
      ensures s.heap[k].kind.ReplicaReady? ==> s.heap[k].kind.owner < |s.objects|
    {
      assert EventOk(cfg, s, tau, s.heap[k]);
    }
  }

  /** `_place_replica`: on a server that can host it, the invariant is kept and
      a ready event is due one startup delay from now. */
  lemma PlaceKeeps(cfg: Config, s: State, tau: real, handled: set<Kind>, sid: int, svc: int)
    requires Core(cfg, s, tau, handled) && svc in cfg.services && Vacant(s, sid, svc)
    requires CanHost(cfg, s, sid, svc) && s.servers[sid].phase in {Active, Booting}
    requires s.servers[sid].phase == Active ==> s.now + cfg.delays.startup < tau
    requires forall kind :: kind in handled && kind.ReplicaReady? ==> kind.owner < |s.objects|
    ensures Core(cfg, Place(cfg, s, sid, svc).0, tau, handled)
    ensures CoverOk(s) ==> CoverOk(Place(cfg, s, sid, svc).0)
    ensures Slot(sid, svc) !in s.pending
  {
    hide SlotsOk, IndexOk, CapacityOk, PhasesOk, EventsOk, UniqueOk, GonePairsOk, ServersArmed, SlotsArmed,
      PendingOk, RescueOk, QueuesOk, MetersOk, DrainBoundOk, CoverOk, HandledOk;
    CreateKeeps(cfg, s, tau, handled, sid, svc);
    var r := Create(cfg, s, sid, svc);
    var o := |s.objects|;
    if s.servers[sid].phase == Active {
      assert InSlot(r, sid, svc) && At(r, sid, svc) == o && r.objects[o].phase == Starting;
      ScheduleKeeps(cfg, r, tau, handled, sid, svc);
      assert Place(cfg, s, sid, svc).0 == ScheduleReady(cfg, r, o);
    } else {
      assert handled + {} == handled;
    }
  }

  /** `_schedule_replica_ready` discharges an owed ready event. */
  lemma ScheduleKeeps(cfg: Config, s: State, tau: real, handled: set<Kind>, sid: int, svc: int)
    requires InSlot(s, sid, svc) && At(s, sid, svc) < |s.objects|
    requires var kind := ReplicaReady(Slot(sid, svc), At(s, sid, svc));
             Core(cfg, s, tau, handled + {kind}) && kind !in handled
    requires s.objects[At(s, sid, svc)].phase == Starting && s.servers[sid].phase == Active
    requires Slot(sid, svc) !in s.pending && s.now + cfg.delays.startup < tau
    ensures Core(cfg, ScheduleReady(cfg, s, At(s, sid, svc)), tau, handled)
    ensures CoverOk(s) ==> CoverOk(ScheduleReady(cfg, s, At(s, sid, svc)))
  {
    hide IndexOk, CapacityOk, PhasesOk, EventsOk, UniqueOk, GonePairsOk, ServersArmed, SlotsArmed, PendingOk,
      RescueOk, QueuesOk, MetersOk, DrainBoundOk, CoverOk, HandledOk;
    var o := At(s, sid, svc);
    var kind := ReplicaReady(Slot(sid, svc), o);
    assert SlotOk(s, sid, svc);
    assert HostLinked(cfg, s.servers[sid].hosted, |s.objects|);
    PushKeeps(cfg, s, tau, handled + {kind}, s.now + cfg.delays.startup, kind);
    assert handled + {kind} - {kind} == handled;
  }
}
