/** Booting servers, in normal and in emergency mode, keeps the invariant. */
module EngineBoot {
  import opened Settings
  import opened ReplicaQueues
  import opened EngineModel
  import opened EngineInvariants
  import opened EngineClock
  import opened EngineOps

  /** `StartBoot` before its event is pushed. */
  function Wake(cfg: Config, s: State, sid: int, emergency: bool): State
    requires sid in s.servers
  {
    var sv := s.servers[sid];
    WithServer(s, sid, sv.(phase := Booting, emergency := emergency, lastTransition := s.now,
                           boots := sv.boots + 1, energy := sv.energy + cfg.bootJoule))
      .(metrics := s.metrics.(boots := s.metrics.boots + 1))
  }

  /** A server that is off hosts nothing. */
  lemma OffIsEmpty(s: State, sid: int, v: int)
    requires SlotsOk(s) && PhasesOk(s) && sid in s.servers && s.servers[sid].phase == Off
    ensures !InSlot(s, sid, v)
  {
  }

  lemma WakePhases(cfg: Config, s: State, sid: int, emergency: bool)
    requires SlotsOk(s) && PhasesOk(s) && sid in s.servers && s.servers[sid].phase == Off
    requires SlotsOk(Wake(cfg, s, sid, emergency))
    ensures PhasesOk(Wake(cfg, s, sid, emergency))
    ensures CoverOk(s) ==> CoverOk(Wake(cfg, s, sid, emergency))
  {
    var r := Wake(cfg, s, sid, emergency);
    forall x, v | InSlot(r, x, v) ensures SlotOk(r, x, v) && PhaseOk(r, x, v) {
      assert InSlot(s, x, v) && SlotOk(s, x, v) && PhaseOk(s, x, v);
      OffIsEmpty(s, sid, v);
    }
    if CoverOk(s) {
      forall x, v | InSlot(r, x, v) ensures SlotOk(r, x, v) && SlotCovered(r, x, v) {
        assert InSlot(s, x, v) && SlotOk(s, x, v) && SlotCovered(s, x, v);
        OffIsEmpty(s, sid, v);
        if r.servers[x].phase == Draining && r.objects[At(r, x, v)].phase == Ready {
          var t :| MigratesTo(s, x, v, t);
          assert MigratesTo(r, x, v, t);
        }
      }
    }
  }

  lemma WakeEvents(cfg: Config, s: State, tau: real, sid: int, emergency: bool)
    requires SlotsOk(s) && PhasesOk(s) && EventsOk(cfg, s, tau) && GonePairsOk(cfg, s) && TimesOk(s, tau)
    requires sid in s.servers && s.servers[sid].phase == Off
    ensures EventsOk(cfg, Wake(cfg, s, sid, emergency), tau)
    ensures GonePairsOk(cfg, Wake(cfg, s, sid, emergency))
    ensures !HasEvent(s.heap, BootDone(sid))
  {
    var r := Wake(cfg, s, sid, emergency);
    forall k | k in r.heap ensures k <= r.lastSeq && EventOk(cfg, r, tau, r.heap[k]) {
      assert EventOk(cfg, s, tau, s.heap[k]);
      match s.heap[k].kind
      case ReplicaGone(slot, owner) =>
        assert InSlot(r, slot.server, slot.service) <==> InSlot(s, slot.server, slot.service);
        if slot.server == sid {
          OffIsEmpty(s, sid, slot.service);
        }
      case ReplicaReady(slot, owner) =>
        assert InSlot(s, slot.server, slot.service);
      case _ =>
    }
    forall i, j | i in r.heap && j in r.heap ensures GonePairOk(cfg, r, i, j) {
      assert GonePairOk(cfg, s, i, j);
      if i != j && s.heap[i].kind == s.heap[j].kind && s.heap[i].kind.ReplicaGone? {
        var slot := s.heap[i].kind.slot;
        assert InSlot(r, slot.server, slot.service) ==> InSlot(s, slot.server, slot.service);
      }
    }
  }

  lemma WakeArmed(cfg: Config, s: State, sid: int, emergency: bool, handled: set<Kind>)
    requires SlotsOk(s) && PhasesOk(s) && sid in s.servers && s.servers[sid].phase == Off
    requires SlotsOk(Wake(cfg, s, sid, emergency))
    requires ServersArmed(s, handled) && SlotsArmed(s, handled)
    ensures var r := Wake(cfg, s, sid, emergency);
            ServersArmed(r, handled + {BootDone(sid)}) && SlotsArmed(r, handled + {BootDone(sid)})
  {
    var r := Wake(cfg, s, sid, emergency);
    forall x | x in r.servers ensures ServerArmed(r, x, handled + {BootDone(sid)}) {
      assert ServerArmed(s, x, handled);
    }
    forall x, v | InSlot(r, x, v) ensures SlotOk(r, x, v) && SlotArmed(r, x, v, handled + {BootDone(sid)}) {
      assert InSlot(s, x, v) && SlotOk(s, x, v) && SlotArmed(s, x, v, handled);
      OffIsEmpty(s, sid, v);
    }
  }

  lemma WakePending(cfg: Config, s: State, sid: int, emergency: bool)
    requires PendingOk(cfg, s) && sid in s.servers && s.servers[sid].phase == Off
    ensures PendingOk(cfg, Wake(cfg, s, sid, emergency))
  {
    var r := Wake(cfg, s, sid, emergency);
    forall slot | slot in r.pending ensures PendingEntryOk(cfg, r, slot) {
      assert PendingEntryOk(cfg, s, slot) && InSlot(s, slot.server, slot.service);
      assert InSlot(r, slot.server, slot.service);
    }
  }

  lemma WakeQueues(cfg: Config, s: State, sid: int, emergency: bool)
    requires QueuesOk(s) && sid in s.servers
    ensures QueuesOk(Wake(cfg, s, sid, emergency))
  {
    forall o | 0 <= o < |s.objects| ensures QueueOk(Wake(cfg, s, sid, emergency), o) {
      assert QueueOk(s, o);
    }
  }

  lemma WakeBounds(cfg: Config, s: State, tau: real, sid: int, emergency: bool)
    requires DrainBoundOk(cfg, s) && EventsOk(cfg, s, tau) && sid in s.servers && s.servers[sid].phase == Off
    ensures DrainBoundOk(cfg, Wake(cfg, s, sid, emergency))
  {
    var r := Wake(cfg, s, sid, emergency);
    forall j | j in r.heap && r.heap[j].kind.DrainDone? && r.heap[j].kind.server in r.servers
      ensures DueInTime(cfg, r, r.heap[j].kind.server, r.heap[j].time - cfg.delays.grace)
    {
      assert EventOk(cfg, s, tau, s.heap[j]);
      assert DueInTime(cfg, s, s.heap[j].kind.server, s.heap[j].time - cfg.delays.grace);
    }
  }

  lemma WakeMeters(cfg: Config, s: State, sid: int, emergency: bool)
    requires MetersOk(cfg, s) && sid in s.servers
    ensures MetersOk(cfg, Wake(cfg, s, sid, emergency))
  {
    var r := Wake(cfg, s, sid, emergency);
    forall x | x in r.servers && x in cfg.servers ensures MeterOk(cfg, r, x) {
      assert MeterOk(cfg, s, x);
    }
  }

  /** Emergency entries after a boot: the flag of an emergency boot is backed by
      the entry just made, and nothing else changes. */
  lemma WakeRescue(cfg: Config, s0: State, s: State, sid: int, emergency: bool, v: int)
    requires RescueOk(s0) && sid in s.servers && s.servers[sid].phase == Off
    requires s == s0.(rescue := s.rescue)
    requires if emergency then v !in s0.rescue && s.rescue == s0.rescue[v := sid] else s == s0
    ensures RescueOk(Wake(cfg, s, sid, emergency))
  {
    var r := Wake(cfg, s, sid, emergency);
    forall x | x in r.servers && r.servers[x].emergency
      ensures r.servers[x].phase == Booting && exists w :: Rescues(r, w, x)
    {
      if x == sid {
        assert Rescues(r, v, sid);
      } else {
        assert s0.servers[x].emergency;
        var w :| Rescues(s0, w, x);
        assert Rescues(r, w, x);
      }
    }
    forall w | w in r.rescue ensures r.rescue[w] in r.servers && r.servers[r.rescue[w]].phase == Booting {
      if !(emergency && w == v) {
        assert s0.rescue[w] in s0.servers;
      }
    }
  }

  /** All groups but the emergency entries, for one and the same state. */
  lemma WakeKeeps(cfg: Config, s: State, tau: real, handled: set<Kind>, sid: int, emergency: bool)
    requires GoodConfig(cfg) && Linked(cfg, s) && SlotsOk(s) && IndexOk(s) && CapacityOk(cfg, s) && PhasesOk(s)
    requires EventsOk(cfg, s, tau) && GonePairsOk(cfg, s) && ServersArmed(s, handled) && SlotsArmed(s, handled)
    requires PendingOk(cfg, s) && TimesOk(s, tau) && QueuesOk(s) && MetersOk(cfg, s) && DrainBoundOk(cfg, s)
    requires HandledOk(s.heap, handled) && sid in s.servers && s.servers[sid].phase == Off
    ensures var r := Wake(cfg, s, sid, emergency);
            && Linked(cfg, r) && SlotsOk(r) && IndexOk(r) && CapacityOk(cfg, r) && PhasesOk(r)
            && EventsOk(cfg, r, tau) && GonePairsOk(cfg, r)
            && ServersArmed(r, handled + {BootDone(sid)}) && SlotsArmed(r, handled + {BootDone(sid)})
            && PendingOk(cfg, r) && TimesOk(r, tau) && QueuesOk(r) && MetersOk(cfg, r) && DrainBoundOk(cfg, r)
            && HandledOk(r.heap, handled + {BootDone(sid)})
            && (CoverOk(s) ==> CoverOk(r))
  {
    hide SlotsOk, IndexOk, CapacityOk, PhasesOk, EventsOk, UniqueOk, GonePairsOk, ServersArmed, SlotsArmed,
      PendingOk, RescueOk, QueuesOk, MetersOk, DrainBoundOk, CoverOk;
    var w := Wake(cfg, s, sid, emergency);
    HostingKept(cfg, s, w);
    WakePhases(cfg, s, sid, emergency);
    WakeEvents(cfg, s, tau, sid, emergency);
    WakeArmed(cfg, s, sid, emergency, handled);
    WakePending(cfg, s, sid, emergency);
    WakeQueues(cfg, s, sid, emergency);
    WakeBounds(cfg, s, tau, sid, emergency);
    WakeMeters(cfg, s, sid, emergency);
  }

  /** `_start_server_boot` of a server that is off. */
  lemma StartBootKeeps(cfg: Config, s0: State, s: State, tau: real, handled: set<Kind>,
                       sid: int, emergency: bool, v: int)
    requires Core(cfg, s0, tau, handled) && sid in s.servers && s.servers[sid].phase == Off
    requires s == s0.(rescue := s.rescue)
    requires if emergency then v !in s0.rescue && s.rescue == s0.rescue[v := sid] else s == s0
    requires s.ticks > 0 ==> s.now + cfg.delays.boot + cfg.delays.startup < tau
    requires BootDone(sid) !in handled
    ensures Core(cfg, StartBoot(cfg, s, sid, emergency), tau, handled)
    ensures CoverOk(s0) ==> CoverOk(StartBoot(cfg, s, sid, emergency))
  {
    hide SlotsOk, IndexOk, CapacityOk, PhasesOk, EventsOk, UniqueOk, GonePairsOk, ServersArmed, SlotsArmed,
      PendingOk, RescueOk, QueuesOk, MetersOk, DrainBoundOk, CoverOk, HandledOk;
    HostingKept(cfg, s0, s);
    PhasesFrame(s0, s);
    MetersFrame(cfg, s0, s);
    BooksEvents(cfg, s0, s, tau);
    BooksArmed(s0, s, handled);
    BooksRest(cfg, s0, s);
    if CoverOk(s0) {
      CoverFrame(s0, s);
    }
    WakeKeeps(cfg, s, tau, handled, sid, emergency);
    WakeRescue(cfg, s0, s, sid, emergency, v);
    PushBoot(cfg, s, tau, handled, sid, emergency);
  }

  lemma PushBoot(cfg: Config, s: State, tau: real, handled: set<Kind>, sid: int, emergency: bool)
    requires sid in s.servers && s.servers[sid].phase == Off
    requires Core(cfg, Wake(cfg, s, sid, emergency), tau, handled + {BootDone(sid)})
    requires s.ticks > 0 ==> s.now + cfg.delays.boot + cfg.delays.startup < tau
    requires BootDone(sid) !in handled
    ensures Core(cfg, StartBoot(cfg, s, sid, emergency), tau, handled)
    ensures CoverOk(Wake(cfg, s, sid, emergency)) ==> CoverOk(StartBoot(cfg, s, sid, emergency))
  {
    hide SlotsOk, IndexOk, CapacityOk, PhasesOk, EventsOk, UniqueOk, GonePairsOk, ServersArmed, SlotsArmed,
      PendingOk, RescueOk, QueuesOk, MetersOk, DrainBoundOk, CoverOk, HandledOk;
    var w := Wake(cfg, s, sid, emergency);
    PushKeeps(cfg, w, tau, handled + {BootDone(sid)}, s.now + cfg.delays.boot, BootDone(sid));
    assert handled + {BootDone(sid)} - {BootDone(sid)} == handled;
    assert StartBoot(cfg, s, sid, emergency) == Push(w, s.now + cfg.delays.boot, BootDone(sid));
  }
}
