/** Server phase changes keep the invariant: boot done, drain begun, drain done. */
module EngineServers {
  import opened Collections
  import opened Settings
  import opened ReplicaQueues
  import opened EngineModel
  import opened EngineInvariants
  import opened EngineClock
  import opened EngineOps
  import opened EnginePlace

  /** Only the phase-related fields of one server (and emergency entries) change. */
  ghost predicate ServerChange(s: State, r: State, sid: int) {
    && sid in s.servers && sid in r.servers
    && r == s.(servers := r.servers, metrics := r.metrics, rescue := r.rescue)
    && r.servers == s.servers[sid := r.servers[sid]]
    && r.servers[sid].hosted == s.servers[sid].hosted
    && r.servers[sid].busy == s.servers[sid].busy && r.servers[sid].synced == s.servers[sid].synced
    && r.servers[sid].busyAtWindow == s.servers[sid].busyAtWindow
    && r.servers[sid].lastTransition == s.now
  }

  lemma ChangeQueues(s: State, r: State, sid: int)
    requires ServerChange(s, r, sid) && QueuesOk(s)
    ensures QueuesOk(r)
  {
    forall o | 0 <= o < |r.objects| ensures QueueOk(r, o) {
      assert QueueOk(s, o);
    }
  }

  lemma ChangeMeters(cfg: Config, s: State, r: State, sid: int)
    requires ServerChange(s, r, sid) && MetersOk(cfg, s)
    ensures MetersOk(cfg, r)
  {
    forall x | x in r.servers && x in cfg.servers ensures MeterOk(cfg, r, x) {
      assert MeterOk(cfg, s, x);
    }
  }

  lemma ChangeBounds(cfg: Config, s: State, r: State, sid: int)
    requires ServerChange(s, r, sid) && DrainBoundOk(cfg, s)
    requires !HasEvent(s.heap, DrainDone(sid))
    ensures DrainBoundOk(cfg, r)
  {
    forall j | j in r.heap && r.heap[j].kind.DrainDone? && r.heap[j].kind.server in r.servers
      ensures DueInTime(cfg, r, r.heap[j].kind.server, r.heap[j].time - cfg.delays.grace)
    {
      assert s.heap[j].kind == DrainDone(s.heap[j].kind.server);
      assert s.heap[j].kind.server != sid;
      assert DueInTime(cfg, s, s.heap[j].kind.server, s.heap[j].time - cfg.delays.grace);
    }
  }

  // ------------------------------------------------------------------
  // ACTIVE to DRAINING
  // ------------------------------------------------------------------

  /** Every replica on this host is READY or leaving. */
  ghost predicate Settled(s: State, sid: int) {
    forall v :: InSlot(s, sid, v) ==> At(s, sid, v) < |s.objects| && s.objects[At(s, sid, v)].phase in {Ready, Leaving}
  }

  lemma DrainingPhases(cfg: Config, s: State, sid: int)
    requires Linked(cfg, s) && SlotsOk(s) && PhasesOk(s) && sid in s.servers && Settled(s, sid)
    requires SlotsOk(MarkDraining(cfg, s, sid))
    ensures PhasesOk(MarkDraining(cfg, s, sid))
  {
    var r := MarkDraining(cfg, s, sid);
    forall x, v | InSlot(r, x, v) ensures SlotOk(r, x, v) && PhaseOk(r, x, v) {
      assert InSlot(s, x, v) && SlotOk(s, x, v) && PhaseOk(s, x, v);
    }
  }

  lemma DrainingEvents(cfg: Config, s: State, tau: real, sid: int)
    requires GoodConfig(cfg) && Linked(cfg, s) && EventsOk(cfg, s, tau) && sid in s.servers && Settled(s, sid)
    requires s.servers[sid].phase == Active
    ensures EventsOk(cfg, MarkDraining(cfg, s, sid), tau)
    ensures !HasEvent(s.heap, DrainDone(sid))
  {
    var r := MarkDraining(cfg, s, sid);
    forall k | k in r.heap ensures k <= r.lastSeq && EventOk(cfg, r, tau, r.heap[k]) {
      assert EventOk(cfg, s, tau, s.heap[k]);
      match s.heap[k].kind
      case ReplicaGone(slot, owner) =>
        assert InSlot(r, slot.server, slot.service) <==> InSlot(s, slot.server, slot.service);
      case ReplicaReady(slot, owner) =>
        assert InSlot(s, slot.server, slot.service) && InSlot(r, slot.server, slot.service);
      case _ =>
    }
    forall k | k in s.heap ensures s.heap[k].kind != DrainDone(sid) {
      assert EventOk(cfg, s, tau, s.heap[k]);
    }
  }

  lemma DrainingPairs(cfg: Config, s: State, sid: int)
    requires Linked(cfg, s) && GonePairsOk(cfg, s) && sid in s.servers && s.servers[sid].phase == Active
    ensures GonePairsOk(cfg, MarkDraining(cfg, s, sid))
  {
    var r := MarkDraining(cfg, s, sid);
    forall i, j | i in r.heap && j in r.heap ensures GonePairOk(cfg, r, i, j) {
      assert GonePairOk(cfg, s, i, j);
      if i != j && s.heap[i].kind == s.heap[j].kind && s.heap[i].kind.ReplicaGone? {
        var slot := s.heap[i].kind.slot;
        assert InSlot(r, slot.server, slot.service) <==> InSlot(s, slot.server, slot.service);
      }
    }
  }

  lemma DrainingArmed(cfg: Config, s: State, sid: int, handled: set<Kind>)
    requires Linked(cfg, s) && SlotsOk(s) && sid in s.servers && SlotsOk(MarkDraining(cfg, s, sid))
    requires ServersArmed(s, handled) && SlotsArmed(s, handled)
    ensures ServersArmed(MarkDraining(cfg, s, sid), handled + {DrainDone(sid)})
    ensures SlotsArmed(MarkDraining(cfg, s, sid), handled + {DrainDone(sid)})
  {
    var r := MarkDraining(cfg, s, sid);
    forall x | x in r.servers ensures ServerArmed(r, x, handled + {DrainDone(sid)}) {
      assert ServerArmed(s, x, handled);
    }
    forall x, v | InSlot(r, x, v) ensures SlotOk(r, x, v) && SlotArmed(r, x, v, handled + {DrainDone(sid)}) {
      assert InSlot(s, x, v) && SlotOk(s, x, v) && SlotArmed(s, x, v, handled);
    }
  }

  lemma DrainingPending(cfg: Config, s: State, sid: int)
    requires Linked(cfg, s) && PendingOk(cfg, s) && sid in s.servers && Settled(s, sid)
    requires s.servers[sid].phase == Active
    ensures PendingOk(cfg, MarkDraining(cfg, s, sid))
  {
    var r := MarkDraining(cfg, s, sid);
    forall slot | slot in r.pending ensures PendingEntryOk(cfg, r, slot) {
      assert PendingEntryOk(cfg, s, slot) && InSlot(s, slot.server, slot.service);
      assert slot.server != sid && s.pending[slot] != sid;
      assert InSlot(r, slot.server, slot.service);
    }
  }

  lemma DrainingRescue(cfg: Config, s: State, sid: int)
    requires Linked(cfg, s) && RescueOk(s) && sid in s.servers && s.servers[sid].phase == Active
    ensures RescueOk(MarkDraining(cfg, s, sid))
  {
    var r := MarkDraining(cfg, s, sid);
    forall x | x in r.servers && r.servers[x].emergency
      ensures r.servers[x].phase == Booting && exists v :: Rescues(r, v, x)
    {
      assert s.servers[x].emergency && x != sid;
      var v :| Rescues(s, v, x);
      assert Rescues(r, v, x);
    }
    forall v | v in r.rescue ensures r.rescue[v] in r.servers && r.servers[r.rescue[v]].phase == Booting {
      var x := s.rescue[v];
      assert x in s.servers && s.servers[x].phase == Booting;
    }
  }

  lemma MarkDrainingKeeps(cfg: Config, s: State, tau: real, handled: set<Kind>, sid: int)
    requires Core(cfg, s, tau, handled) && sid in s.servers && s.servers[sid].phase == Active && Settled(s, sid)
    ensures Core(cfg, MarkDraining(cfg, s, sid), tau, handled + {DrainDone(sid)})
  {
    hide SlotsOk, IndexOk, CapacityOk, PhasesOk, EventsOk, UniqueOk, GonePairsOk, ServersArmed, SlotsArmed,
      PendingOk, RescueOk, QueuesOk, MetersOk, DrainBoundOk, CoverOk;
    var r := MarkDraining(cfg, s, sid);
    HostingKept(cfg, s, r);
    DrainingPhases(cfg, s, sid);
    DrainingEvents(cfg, s, tau, sid);
    DrainingPairs(cfg, s, sid);
    DrainingArmed(cfg, s, sid, handled);
    DrainingPending(cfg, s, sid);
    DrainingRescue(cfg, s, sid);
    ChangeQueues(s, r, sid);
    ChangeMeters(cfg, s, r, sid);
    ChangeBounds(cfg, s, r, sid);
  }

  // ------------------------------------------------------------------
  // DRAINING to OFF, or another grace period
  // ------------------------------------------------------------------

  /** The popped drain-done event came at least one grace period after the drain began. */
  ghost predicate DrainIsDue(cfg: Config, s: State, sid: int) {
    && sid in s.servers && s.servers[sid].phase == Draining
    && s.servers[sid].lastTransition + cfg.delays.grace <= s.now
  }

  /** A server all of whose replicas are terminated hosts none. */
  lemma AllGoneIsEmpty(s: State, sid: int)
    requires SlotsOk(s) && PhasesOk(s) && InStore(s, sid) && AllTerminated(s, sid)
    ensures s.servers[sid].hosted == map[]
  {
    if s.servers[sid].hosted.Keys != {} {
      var v := Pick(s.servers[sid].hosted.Keys);
      assert InSlot(s, sid, v);
    }
  }

  lemma OffEvents(cfg: Config, s: State, r: State, tau: real, sid: int)
    requires GoodConfig(cfg) && Linked(cfg, s) && EventsOk(cfg, s, tau) && DrainIsDue(cfg, s, sid)
    requires ServerChange(s, r, sid) && r.servers[sid].phase == Off && s.servers[sid].hosted == map[]
    requires !HasEvent(s.heap, DrainDone(sid))
    ensures EventsOk(cfg, r, tau)
  {
    hide Linked;
    forall k | k in r.heap ensures k <= r.lastSeq && EventOk(cfg, r, tau, r.heap[k]) {
      assert EventOk(cfg, s, tau, s.heap[k]);
      assert s.heap[k].kind != DrainDone(sid);
      match s.heap[k].kind
      case ReplicaGone(slot, owner) =>
        assert InSlot(r, slot.server, slot.service) <==> InSlot(s, slot.server, slot.service);
      case ReplicaReady(slot, owner) =>
        assert InSlot(s, slot.server, slot.service) && InSlot(r, slot.server, slot.service);
      case _ =>
    }
  }

  lemma OffPairs(cfg: Config, s: State, r: State, sid: int)
    requires GonePairsOk(cfg, s) && ServerChange(s, r, sid) && s.servers[sid].hosted == map[]
    ensures GonePairsOk(cfg, r)
  {
    forall i, j | i in r.heap && j in r.heap ensures GonePairOk(cfg, r, i, j) {
      assert GonePairOk(cfg, s, i, j);
      if i != j && s.heap[i].kind == s.heap[j].kind && s.heap[i].kind.ReplicaGone? {
        var slot := s.heap[i].kind.slot;
        assert InSlot(r, slot.server, slot.service) <==> InSlot(s, slot.server, slot.service);
      }
    }
  }

  lemma OffPhases(s: State, r: State, sid: int)
    requires SlotsOk(s) && PhasesOk(s) && SlotsOk(r)
    requires ServerChange(s, r, sid) && s.servers[sid].hosted == map[]
    ensures PhasesOk(r)
    ensures CoverOk(s) ==> CoverOk(r)
  {
    forall x, v | InSlot(r, x, v) ensures SlotOk(r, x, v) && PhaseOk(r, x, v) {
      assert InSlot(s, x, v) && SlotOk(s, x, v) && PhaseOk(s, x, v);
    }
    if CoverOk(s) {
      forall x, v | InSlot(r, x, v) ensures SlotOk(r, x, v) && SlotCovered(r, x, v) {
        assert InSlot(s, x, v) && SlotOk(s, x, v) && SlotCovered(s, x, v);
        if r.servers[x].phase == Draining && r.objects[At(r, x, v)].phase == Ready {
          var t :| MigratesTo(s, x, v, t);
          assert MigratesTo(r, x, v, t);
        }
      }
    }
  }

  lemma OffArmed(s: State, r: State, sid: int)
    requires SlotsOk(s) && SlotsOk(r) && ServerChange(s, r, sid) && r.servers[sid].phase == Off
    requires s.servers[sid].hosted == map[]
    requires ServersArmed(s, {DrainDone(sid)}) && SlotsArmed(s, {DrainDone(sid)})
    ensures ServersArmed(r, {}) && SlotsArmed(r, {})
  {
    forall x | x in r.servers ensures ServerArmed(r, x, {}) {
      assert ServerArmed(s, x, {DrainDone(sid)});
    }
    forall x, v | InSlot(r, x, v) ensures SlotOk(r, x, v) && SlotArmed(r, x, v, {}) {
      assert InSlot(s, x, v) && SlotOk(s, x, v) && SlotArmed(s, x, v, {DrainDone(sid)});
    }
  }

  /** A pending migration is at most one startup delay old. */
  lemma PendingIsRecent(cfg: Config, s: State, tau: real, handled: set<Kind>, slot: Slot)
    requires SlotsOk(s) && EventsOk(cfg, s, tau) && PendingOk(cfg, s) && SlotsArmed(s, handled)
    requires slot in s.pending && forall kind :: kind in handled ==> !kind.ReplicaReady?
    ensures s.pending[slot] in s.servers
    ensures s.now <= s.servers[s.pending[slot]].lastTransition + cfg.delays.startup
  {
    assert PendingEntryOk(cfg, s, slot) && SlotOk(s, slot.server, slot.service);
    var o := At(s, slot.server, slot.service);
    assert SlotArmed(s, slot.server, slot.service, handled);
    var k :| k in s.heap && s.heap[k].kind == ReplicaReady(slot, o);
    assert EventOk(cfg, s, tau, s.heap[k]);
  }

  lemma OffPending(cfg: Config, s: State, r: State, tau: real, sid: int)
    requires GoodConfig(cfg) && SlotsOk(s) && EventsOk(cfg, s, tau) && PendingOk(cfg, s)
    requires SlotsArmed(s, {DrainDone(sid)}) && DrainIsDue(cfg, s, sid)
    requires ServerChange(s, r, sid) && s.servers[sid].hosted == map[]
    ensures PendingOk(cfg, r)
  {
    forall slot | slot in r.pending ensures PendingEntryOk(cfg, r, slot) {
      assert PendingEntryOk(cfg, s, slot) && InSlot(s, slot.server, slot.service);
      PendingIsRecent(cfg, s, tau, {DrainDone(sid)}, slot);
      assert InSlot(r, slot.server, slot.service);
    }
  }

  lemma OffRescue(s: State, r: State, sid: int)
    requires RescueOk(s) && ServerChange(s, r, sid) && s.servers[sid].phase == Draining
    requires r.rescue == s.rescue && r.servers[sid].emergency == s.servers[sid].emergency
    ensures RescueOk(r)
  {
    forall x | x in r.servers && r.servers[x].emergency
      ensures r.servers[x].phase == Booting && exists v :: Rescues(r, v, x)
    {
      assert s.servers[x].emergency && x != sid;
      var v :| Rescues(s, v, x);
      assert Rescues(r, v, x);
    }
    forall v | v in r.rescue ensures r.rescue[v] in r.servers && r.servers[r.rescue[v]].phase == Booting {
      var x := s.rescue[v];
      assert x in s.servers && s.servers[x].phase == Booting;
    }
  }

  lemma OffShape(cfg: Config, s: State, sid: int)
    requires InStore(s, sid) && AllTerminated(s, sid) && s.servers[sid].hosted == map[]
    ensures ServerChange(s, HandleDrainDone(cfg, s, sid), sid)
    ensures var r := HandleDrainDone(cfg, s, sid);
            && r.servers[sid].phase == Off && r.rescue == s.rescue
            && r.servers[sid].emergency == s.servers[sid].emergency
  {
    var r := HandleDrainDone(cfg, s, sid);
    assert r.servers[sid].hosted.Keys <= s.servers[sid].hosted.Keys;
    assert r.servers[sid].hosted == map[];
  }

  lemma TurnedOffKeeps(cfg: Config, s: State, tau: real, sid: int)
    requires Core(cfg, s, tau, {DrainDone(sid)}) && CoverOk(s) && DrainIsDue(cfg, s, sid)
    requires InStore(s, sid) && AllTerminated(s, sid)
    ensures Core(cfg, HandleDrainDone(cfg, s, sid), tau, {})
    ensures CoverOk(HandleDrainDone(cfg, s, sid))
  {
    hide SlotsOk, IndexOk, CapacityOk, PhasesOk, EventsOk, UniqueOk, GonePairsOk, ServersArmed, SlotsArmed,
      PendingOk, RescueOk, QueuesOk, MetersOk, DrainBoundOk, CoverOk;
    var r := HandleDrainDone(cfg, s, sid);
    AllGoneIsEmpty(s, sid);
    OffShape(cfg, s, sid);
    HostingKept(cfg, s, r);
    OffPhases(s, r, sid);
    OffEvents(cfg, s, r, tau, sid);
    OffPairs(cfg, s, r, sid);
    OffArmed(s, r, sid);
    OffPending(cfg, s, r, tau, sid);
    OffRescue(s, r, sid);
    ChangeQueues(s, r, sid);
    ChangeMeters(cfg, s, r, sid);
    ChangeBounds(cfg, s, r, sid);
  }

  /** When the grace period ends with a replica left, that replica's termination
      is still to come, within the bound of this drain. */
  lemma StillWaiting(cfg: Config, s: State, tau: real, sid: int)
    requires GoodConfig(cfg) && SlotsOk(s) && PhasesOk(s) && CoverOk(s) && EventsOk(cfg, s, tau) && PendingOk(cfg, s)
    requires SlotsArmed(s, {DrainDone(sid)}) && DrainIsDue(cfg, s, sid)
    requires InStore(s, sid) && !AllTerminated(s, sid)
    ensures DueInTime(cfg, s, sid, s.now)
  {
    var v :| v in s.servers[sid].hosted && s.objects[s.servers[sid].hosted[v]].phase != Terminated;
    var o := At(s, sid, v);
    assert InSlot(s, sid, v);
    assert SlotOk(s, sid, v) && PhaseOk(s, sid, v) && SlotCovered(s, sid, v) && SlotArmed(s, sid, v, {DrainDone(sid)});
    if s.objects[o].phase == Ready {
      var t :| MigratesTo(s, sid, v, t);
      PendingIsRecent(cfg, s, tau, {DrainDone(sid)}, Slot(t, v));
    } else {
      var k :| k in s.heap && s.heap[k].kind == ReplicaGone(Slot(sid, v), o);
      assert EventOk(cfg, s, tau, s.heap[k]);
    }
  }

  lemma RearmKeeps(cfg: Config, s: State, tau: real, sid: int)
    requires Core(cfg, s, tau, {DrainDone(sid)}) && CoverOk(s) && DrainIsDue(cfg, s, sid)
    requires InStore(s, sid) && !AllTerminated(s, sid)
    ensures Core(cfg, HandleDrainDone(cfg, s, sid), tau, {})
    ensures CoverOk(HandleDrainDone(cfg, s, sid))
  {
    hide SlotsOk, IndexOk, CapacityOk, PhasesOk, EventsOk, UniqueOk, GonePairsOk, ServersArmed, SlotsArmed,
      PendingOk, RescueOk, QueuesOk, MetersOk, DrainBoundOk, CoverOk, HandledOk;
    StillWaiting(cfg, s, tau, sid);
    PushKeeps(cfg, s, tau, {DrainDone(sid)}, s.now + cfg.delays.grace, DrainDone(sid));
    assert {DrainDone(sid)} - {DrainDone(sid)} == {};
  }

  // ------------------------------------------------------------------
  // BOOTING to ACTIVE
  // ------------------------------------------------------------------

  /** The popped boot event came one boot delay after the boot began. */
  ghost predicate BootIsDue(cfg: Config, s: State, tau: real, sid: int) {
    && sid in s.servers && s.servers[sid].phase == Booting && s.ticks > 0
    && s.now == s.servers[sid].lastTransition + cfg.delays.boot && s.now + cfg.delays.startup < tau
  }

  /** The ready events owed to the replicas of a freshly active server. */
  ghost function OwedReady(s: State, sid: int): set<Kind>
    requires sid in s.servers
  {
    set v | v in s.servers[sid].hosted :: ReplicaReady(Slot(sid, v), s.servers[sid].hosted[v])
  }

  /** The server is ACTIVE, its emergency entries are cleared. */
  function MarkActive(s: State, sid: int): State
    requires sid in s.servers
  {
    var rescued := RescuedBy(s.rescue, sid);
    var sv := s.servers[sid].(phase := Active, lastTransition := s.now);
    WithServer(s, sid, if rescued != {} then sv.(emergency := false) else sv).(rescue := s.rescue - rescued)
  }

  lemma ActiveEvents(cfg: Config, s: State, tau: real, sid: int)
    requires GoodConfig(cfg) && SlotsOk(s) && PhasesOk(s) && EventsOk(cfg, s, tau) && BootIsDue(cfg, s, tau, sid)
    requires !HasEvent(s.heap, BootDone(sid))
    ensures EventsOk(cfg, MarkActive(s, sid), tau)
    ensures HandledOk(s.heap, OwedReady(s, sid)) && !HasEvent(s.heap, DrainDone(sid))
  {
    var r := MarkActive(s, sid);
    forall k | k in r.heap ensures k <= r.lastSeq && EventOk(cfg, r, tau, r.heap[k]) {
      assert EventOk(cfg, s, tau, s.heap[k]);
      assert s.heap[k].kind != BootDone(sid);
      match s.heap[k].kind
      case ReplicaGone(slot, owner) =>
        assert InSlot(r, slot.server, slot.service) <==> InSlot(s, slot.server, slot.service);
        if InSlot(s, slot.server, slot.service) {
          assert SlotOk(s, slot.server, slot.service) && PhaseOk(s, slot.server, slot.service);
        }
      case ReplicaReady(slot, owner) =>
        assert InSlot(s, slot.server, slot.service) && InSlot(r, slot.server, slot.service);
      case _ =>
    }
    forall k | k in s.heap ensures s.heap[k].kind !in OwedReady(s, sid) && s.heap[k].kind != DrainDone(sid) {
      assert EventOk(cfg, s, tau, s.heap[k]);
    }
  }

  lemma ActivePairs(cfg: Config, s: State, sid: int)
    requires GonePairsOk(cfg, s) && sid in s.servers && s.servers[sid].phase == Booting
    ensures GonePairsOk(cfg, MarkActive(s, sid))
  {
    var r := MarkActive(s, sid);
    forall i, j | i in r.heap && j in r.heap ensures GonePairOk(cfg, r, i, j) {
      assert GonePairOk(cfg, s, i, j);
      if i != j && s.heap[i].kind == s.heap[j].kind && s.heap[i].kind.ReplicaGone? {
        var slot := s.heap[i].kind.slot;
        assert InSlot(r, slot.server, slot.service) <==> InSlot(s, slot.server, slot.service);
      }
    }
  }

  lemma ActivePhases(s: State, sid: int)
    requires SlotsOk(s) && PhasesOk(s) && sid in s.servers && s.servers[sid].phase == Booting
    requires SlotsOk(MarkActive(s, sid))
    ensures PhasesOk(MarkActive(s, sid))
    ensures CoverOk(s) ==> CoverOk(MarkActive(s, sid))
  {
    var r := MarkActive(s, sid);
    forall x, v | InSlot(r, x, v) ensures SlotOk(r, x, v) && PhaseOk(r, x, v) {
      assert InSlot(s, x, v) && SlotOk(s, x, v) && PhaseOk(s, x, v);
    }
    if CoverOk(s) {
      forall x, v | InSlot(r, x, v) ensures SlotOk(r, x, v) && SlotCovered(r, x, v) {
        assert InSlot(s, x, v) && SlotOk(s, x, v) && SlotCovered(s, x, v);
        if r.servers[x].phase == Draining && r.objects[At(r, x, v)].phase == Ready {
          var t :| MigratesTo(s, x, v, t);
          assert MigratesTo(r, x, v, t);
        }
      }
    }
  }

  lemma ActiveArmed(s: State, sid: int)
    requires SlotsOk(s) && PhasesOk(s) && sid in s.servers && s.servers[sid].phase == Booting
    requires SlotsOk(MarkActive(s, sid))
    requires ServersArmed(s, {BootDone(sid)}) && SlotsArmed(s, {BootDone(sid)})
    ensures ServersArmed(MarkActive(s, sid), OwedReady(s, sid)) && SlotsArmed(MarkActive(s, sid), OwedReady(s, sid))
  {
    var r := MarkActive(s, sid);
    forall x | x in r.servers ensures ServerArmed(r, x, OwedReady(s, sid)) {
      assert ServerArmed(s, x, {BootDone(sid)});
    }
    forall x, v | InSlot(r, x, v) ensures SlotOk(r, x, v) && SlotArmed(r, x, v, OwedReady(s, sid)) {
      assert InSlot(s, x, v) && SlotOk(s, x, v) && SlotArmed(s, x, v, {BootDone(sid)}) && PhaseOk(s, x, v);
    }
  }

  lemma ActivePending(cfg: Config, s: State, sid: int)
    requires PendingOk(cfg, s) && sid in s.servers && s.servers[sid].phase == Booting
    ensures PendingOk(cfg, MarkActive(s, sid))
  {
    var r := MarkActive(s, sid);
    forall slot | slot in r.pending ensures PendingEntryOk(cfg, r, slot) {
      assert PendingEntryOk(cfg, s, slot) && InSlot(s, slot.server, slot.service);
      assert InSlot(r, slot.server, slot.service);
    }
  }

  /** An emergency flag is cleared: a flagged booting server always has an entry. */
  lemma ActiveRescue(s: State, sid: int)
    requires RescueOk(s) && sid in s.servers && s.servers[sid].phase == Booting
    ensures RescueOk(MarkActive(s, sid)) && !MarkActive(s, sid).servers[sid].emergency
  {
    var r := MarkActive(s, sid);
    if s.servers[sid].emergency {
      var v :| Rescues(s, v, sid);
      assert v in RescuedBy(s.rescue, sid);
    }
    forall x | x in r.servers && r.servers[x].emergency
      ensures r.servers[x].phase == Booting && exists v :: Rescues(r, v, x)
    {
      assert x != sid && s.servers[x].emergency;
      var v :| Rescues(s, v, x);
      assert Rescues(r, v, x);
    }
    forall v | v in r.rescue ensures r.rescue[v] in r.servers && r.servers[r.rescue[v]].phase == Booting {
      var x := s.rescue[v];
      assert x in s.servers && s.servers[x].phase == Booting && x != sid;
    }
  }

  lemma MarkActiveKeeps(cfg: Config, s: State, tau: real, sid: int)
    requires Core(cfg, s, tau, {BootDone(sid)}) && BootIsDue(cfg, s, tau, sid)
    ensures Core(cfg, MarkActive(s, sid), tau, OwedReady(s, sid))
    ensures CoverOk(s) ==> CoverOk(MarkActive(s, sid))
  {
    hide SlotsOk, IndexOk, CapacityOk, PhasesOk, EventsOk, UniqueOk, GonePairsOk, ServersArmed, SlotsArmed,
      PendingOk, RescueOk, QueuesOk, MetersOk, DrainBoundOk, CoverOk;
    var r := MarkActive(s, sid);
    HostingKept(cfg, s, r);
    ActivePhases(s, sid);
    ActiveEvents(cfg, s, tau, sid);
    ActivePairs(cfg, s, sid);
    ActiveArmed(s, sid);
    ActivePending(cfg, s, sid);
    ActiveRescue(s, sid);
    ChangeQueues(s, r, sid);
    ChangeMeters(cfg, s, r, sid);
    ChangeBounds(cfg, s, r, sid);
  }
}
