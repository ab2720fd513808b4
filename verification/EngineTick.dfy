/** The parts of a decision tick other than a drain keep the invariant. */
module EngineTick {
  import opened Collections
  import opened Settings
  import opened ReplicaQueues
  import opened EngineModel
  import opened EngineInvariants
  import opened EngineClock
  import opened EngineOps
  import opened EngineBoot
  import opened EnginePlace
  import opened EngineRetire
  import opened EngineServers

  // ------------------------------------------------------------------
  // What is known when a tick begins
  // ------------------------------------------------------------------

  /** At a tick no migration is under way, and ACTIVE servers host no replica
      that is still starting. */
  ghost predicate Calm(s: State) {
    && s.pending == map[]
    && forall sid :: sid in s.servers && s.servers[sid].phase == Active ==> Settled(s, sid)
  }

  /** Every ready event fired before the tick: nothing on an ACTIVE server is starting. */
  lemma NothingStarting(cfg: Config, s: State, tau: real, sid: int, v: int)
    requires SlotsOk(s) && PhasesOk(s) && EventsOk(cfg, s, tau) && SlotsArmed(s, {DecisionTick}) && s.now == tau
    requires InSlot(s, sid, v) && s.servers[sid].phase == Active
    ensures At(s, sid, v) < |s.objects| && s.objects[At(s, sid, v)].phase in {Ready, Leaving}
  {
    var o := At(s, sid, v);
    assert SlotOk(s, sid, v) && PhaseOk(s, sid, v) && SlotArmed(s, sid, v, {DecisionTick});
    forall k | k in s.heap ensures s.heap[k].kind != ReplicaReady(Slot(sid, v), o) {
      assert EventOk(cfg, s, tau, s.heap[k]);
    }
  }

  lemma TickIsCalm(cfg: Config, s: State, tau: real)
    requires SlotsOk(s) && PhasesOk(s) && EventsOk(cfg, s, tau) && SlotsArmed(s, {DecisionTick}) && PendingOk(cfg, s)
    requires s.now == tau
    ensures Calm(s)
  {
    forall sid | sid in s.servers && s.servers[sid].phase == Active ensures Settled(s, sid) {
      forall v | InSlot(s, sid, v)
        ensures At(s, sid, v) < |s.objects| && s.objects[At(s, sid, v)].phase in {Ready, Leaving}
      {
        NothingStarting(cfg, s, tau, sid, v);
      }
    }
    if s.pending.Keys != {} {
      var slot := Pick(s.pending.Keys);
      assert PendingEntryOk(cfg, s, slot);
      NothingStarting(cfg, s, tau, slot.server, slot.service);
    }
  }

  /** No boot is under way at a tick other than the first. */
  lemma NothingBooting(cfg: Config, s: State, tau: real, sid: int)
    requires GoodConfig(cfg) && EventsOk(cfg, s, tau) && ServersArmed(s, {DecisionTick})
    requires s.now == tau && s.ticks > 0 && sid in s.servers
    ensures s.servers[sid].phase != Booting
  {
    assert ServerArmed(s, sid, {DecisionTick});
    forall k | k in s.heap && s.servers[sid].phase == Booting ensures s.heap[k].kind != BootDone(sid) {
      assert EventOk(cfg, s, tau, s.heap[k]);
    }
  }

  // ------------------------------------------------------------------
  // The next tick becomes the horizon
  // ------------------------------------------------------------------

  lemma RetimeEvents(cfg: Config, s: State, tau: real)
    requires GoodConfig(cfg) && EventsOk(cfg, s, tau) && TimesOk(s, tau) && s.now == tau
    requires HandledOk(s.heap, {DecisionTick})
    ensures EventsOk(cfg, s.(ticks := s.ticks + 1), tau + cfg.delays.interval)
  {
    var r := s.(ticks := s.ticks + 1);
    assert DecisionTick in {DecisionTick} && Single(DecisionTick);
    forall k | k in r.heap ensures k <= r.lastSeq && EventOk(cfg, r, tau + cfg.delays.interval, r.heap[k]) {
      assert EventOk(cfg, s, tau, s.heap[k]);
      assert s.heap[k].kind != DecisionTick;
      match s.heap[k].kind
      case ReplicaGone(slot, owner) =>
        assert InSlot(r, slot.server, slot.service) <==> InSlot(s, slot.server, slot.service);
      case _ =>
    }
  }

  lemma RetimePairs(cfg: Config, s: State)
    requires GonePairsOk(cfg, s)
    ensures GonePairsOk(cfg, s.(ticks := s.ticks + 1))
  {
    var r := s.(ticks := s.ticks + 1);
    forall i, j | i in r.heap && j in r.heap ensures GonePairOk(cfg, r, i, j) {
      assert GonePairOk(cfg, s, i, j);
      if i != j && s.heap[i].kind == s.heap[j].kind && s.heap[i].kind.ReplicaGone? {
        var slot := s.heap[i].kind.slot;
        assert InSlot(r, slot.server, slot.service) <==> InSlot(s, slot.server, slot.service);
      }
    }
  }

  lemma RetimeArmed(s: State, handled: set<Kind>)
    requires SlotsOk(s) && SlotsOk(s.(ticks := s.ticks + 1)) && ServersArmed(s, handled) && SlotsArmed(s, handled)
    ensures ServersArmed(s.(ticks := s.ticks + 1), handled) && SlotsArmed(s.(ticks := s.ticks + 1), handled)
  {
    var r := s.(ticks := s.ticks + 1);
    forall x, v | InSlot(r, x, v) ensures SlotOk(r, x, v) && SlotArmed(r, x, v, handled) {
      assert InSlot(s, x, v) && SlotOk(s, x, v) && SlotArmed(s, x, v, handled);
    }
    forall x | x in r.servers ensures ServerArmed(r, x, handled) {
      assert ServerArmed(s, x, handled);
    }
  }

  lemma RetimeRest(cfg: Config, s: State)
    requires PendingOk(cfg, s) && QueuesOk(s) && DrainBoundOk(cfg, s)
    ensures var r := s.(ticks := s.ticks + 1); PendingOk(cfg, r) && QueuesOk(r) && DrainBoundOk(cfg, r)
  {
    var r := s.(ticks := s.ticks + 1);
    forall slot | slot in r.pending ensures PendingEntryOk(cfg, r, slot) {
      assert PendingEntryOk(cfg, s, slot);
    }
    forall o | 0 <= o < |r.objects| ensures QueueOk(r, o) {
      assert QueueOk(s, o);
    }
    forall j | j in r.heap && r.heap[j].kind.DrainDone? && r.heap[j].kind.server in r.servers
      ensures DueInTime(cfg, r, r.heap[j].kind.server, r.heap[j].time - cfg.delays.grace)
    {
      assert DueInTime(cfg, s, s.heap[j].kind.server, s.heap[j].time - cfg.delays.grace);
    }
  }

  lemma RetimeKeeps(cfg: Config, s: State, tau: real)
    requires Core(cfg, s, tau, {DecisionTick}) && CoverOk(s) && s.now == tau
    ensures Core(cfg, s.(ticks := s.ticks + 1), tau + cfg.delays.interval, {DecisionTick})
    ensures CoverOk(s.(ticks := s.ticks + 1)) && Calm(s.(ticks := s.ticks + 1))
  {
    hide SlotsOk, IndexOk, CapacityOk, PhasesOk, EventsOk, UniqueOk, GonePairsOk, ServersArmed, SlotsArmed,
      PendingOk, RescueOk, QueuesOk, MetersOk, DrainBoundOk, CoverOk, HandledOk;
    var r := s.(ticks := s.ticks + 1);
    HostingKept(cfg, s, r);
    PhasesFrame(s, r);
    RescueFrame(s, r);
    MetersFrame(cfg, s, r);
    RetimeEvents(cfg, s, tau);
    RetimePairs(cfg, s);
    RetimeArmed(s, {DecisionTick});
    RetimeRest(cfg, s);
    CoverFrame(s, r);
    TickIsCalm(cfg, s, tau);
    CalmFrame(s, r);
  }

  lemma CalmFrame(s: State, r: State)
    requires Calm(s) && r.servers == s.servers && r.objects == s.objects && r.pending == s.pending
    ensures Calm(r)
  {
    forall sid | sid in r.servers && r.servers[sid].phase == Active ensures Settled(r, sid) {
      assert Settled(s, sid);
      forall v | InSlot(r, sid, v)
        ensures At(r, sid, v) < |r.objects| && r.objects[At(r, sid, v)].phase in {Ready, Leaving}
      {
        assert InSlot(s, sid, v);
      }
    }
  }

  // ------------------------------------------------------------------
  // Scaling
  // ------------------------------------------------------------------

  /** A READY replica can be told to leave at any time. */
  lemma RetireReadyKeeps(cfg: Config, s: State, tau: real, svc: int, o: nat)
    requires Core(cfg, s, tau, {DecisionTick}) && CoverOk(s) && Candidate(s, svc, o)
    ensures Core(cfg, Retire(cfg, s, o), tau, {DecisionTick}) && CoverOk(Retire(cfg, s, o))
  {
    var sid := s.objects[o].server;
    ReadyMayLeave(cfg, s, tau, svc, o);
    hide Core, CoverOk;
    RetireKeeps(cfg, s, tau, {DecisionTick}, sid, svc, o);
  }

  lemma ReadyMayLeave(cfg: Config, s: State, tau: real, svc: int, o: nat)
    requires SlotsOk(s) && IndexOk(s) && PhasesOk(s) && CoverOk(s) && EventsOk(cfg, s, tau) && PendingOk(cfg, s)
    requires SlotsArmed(s, {DecisionTick}) && Candidate(s, svc, o)
    ensures MayLeave(s, s.objects[o].server, svc, o)
    ensures s.servers[s.objects[o].server].phase == Draining ==>
              s.now <= s.servers[s.objects[o].server].lastTransition + cfg.delays.startup
  {
    var sid := s.objects[o].server;
    assert ListedOk(s, svc, o);
    assert SlotOk(s, sid, svc) && PhaseOk(s, sid, svc) && SlotCovered(s, sid, svc);
    if s.servers[sid].phase == Draining {
      var t :| MigratesTo(s, sid, svc, t);
      PendingIsRecent(cfg, s, tau, {DecisionTick}, Slot(t, svc));
    }
  }

  lemma ApplyScalingKeeps(cfg: Config, s: State, tau: real, decision: Scaling)
    requires Core(cfg, s, tau, {DecisionTick}) && CoverOk(s) && s.now + cfg.delays.startup < tau
    ensures Core(cfg, ApplyScaling(cfg, s, decision), tau, {DecisionTick})
    ensures CoverOk(ApplyScaling(cfg, s, decision))
  {
    hide SlotsOk, IndexOk, CapacityOk, PhasesOk, EventsOk, UniqueOk, GonePairsOk, ServersArmed, SlotsArmed,
      PendingOk, RescueOk, QueuesOk, MetersOk, DrainBoundOk, CoverOk, HandledOk;
    match decision
    case NoScaling =>
    case ScaleUp(svc, target) =>
      if svc in cfg.services && target.Some? && target.value in s.servers && s.servers[target.value].phase == Active
         && CanHost(cfg, s, target.value, svc) {
        ActiveIsVacant(cfg, s, tau, target.value, svc);
        PlaceKeeps(cfg, s, tau, {DecisionTick}, target.value, svc);
        StampKeeps(cfg, Place(cfg, s, target.value, svc).0, tau, svc, s.now);
      }
    case ScaleDown(svc, victim) =>
      if svc in cfg.services && victim in ReadyOf(s, svc) {
        RetireReadyKeeps(cfg, s, tau, svc, victim);
        StampKeeps(cfg, Retire(cfg, s, victim), tau, svc, s.now);
      }
  }

  /** Noting the time of the last scaling action. */
  lemma StampKeeps(cfg: Config, s: State, tau: real, svc: int, time: real)
    requires Core(cfg, s, tau, {DecisionTick}) && CoverOk(s) && svc in cfg.services
    ensures Core(cfg, s.(lastScale := s.lastScale[svc := time]), tau, {DecisionTick})
    ensures CoverOk(s.(lastScale := s.lastScale[svc := time]))
  {
    hide SlotsOk, IndexOk, CapacityOk, PhasesOk, EventsOk, UniqueOk, GonePairsOk, ServersArmed, SlotsArmed,
      PendingOk, RescueOk, QueuesOk, MetersOk, DrainBoundOk, CoverOk, HandledOk;
    var r := s.(lastScale := s.lastScale[svc := time]);
    RescueFrame(s, r);
    BooksKeep(cfg, s, r, tau, {DecisionTick});
  }

  lemma {:induction false} ScaleAllKeeps(cfg: Config, s: State, tau: real, decisions: seq<Scaling>)
    requires Core(cfg, s, tau, {DecisionTick}) && CoverOk(s) && s.now + cfg.delays.startup < tau
    ensures Core(cfg, ScaleAll(cfg, s, decisions), tau, {DecisionTick})
    ensures CoverOk(ScaleAll(cfg, s, decisions))
    ensures ScaleAll(cfg, s, decisions).now == s.now
    decreases |decisions|
  {
    hide SlotsOk, IndexOk, CapacityOk, PhasesOk, EventsOk, UniqueOk, GonePairsOk, ServersArmed, SlotsArmed,
      PendingOk, RescueOk, QueuesOk, MetersOk, DrainBoundOk, CoverOk, HandledOk;
    if decisions != [] {
      var n := |decisions| - 1;
      ScaleAllKeeps(cfg, s, tau, decisions[..n]);
      ApplyScalingKeeps(cfg, ScaleAll(cfg, s, decisions[..n]), tau, decisions[n]);
    }
  }

  // ------------------------------------------------------------------
  // The utilisation window
  // ------------------------------------------------------------------

  lemma ResetEvents(cfg: Config, s: State, tau: real)
    requires EventsOk(cfg, s, tau) && GonePairsOk(cfg, s)
    ensures EventsOk(cfg, ResetWindow(s), tau) && GonePairsOk(cfg, ResetWindow(s))
  {
    var r := ResetWindow(s);
    forall k | k in r.heap ensures k <= r.lastSeq && EventOk(cfg, r, tau, r.heap[k]) {
      assert EventOk(cfg, s, tau, s.heap[k]);
      match s.heap[k].kind
      case ReplicaGone(slot, owner) =>
        assert InSlot(r, slot.server, slot.service) <==> InSlot(s, slot.server, slot.service);
      case ReplicaReady(slot, owner) =>
        assert InSlot(s, slot.server, slot.service) && InSlot(r, slot.server, slot.service);
      case _ =>
    }
    forall i, j | i in r.heap && j in r.heap ensures GonePairOk(cfg, r, i, j) {
      assert GonePairOk(cfg, s, i, j);
      if i != j && s.heap[i].kind == s.heap[j].kind && s.heap[i].kind.ReplicaGone? {
        var slot := s.heap[i].kind.slot;
        assert InSlot(r, slot.server, slot.service) <==> InSlot(s, slot.server, slot.service);
      }
    }
  }

  lemma ResetArmed(s: State, handled: set<Kind>)
    requires SlotsOk(s) && SlotsOk(ResetWindow(s)) && PhasesOk(s)
    requires ServersArmed(s, handled) && SlotsArmed(s, handled)
    ensures ServersArmed(ResetWindow(s), handled) && SlotsArmed(ResetWindow(s), handled) && PhasesOk(ResetWindow(s))
  {
    var r := ResetWindow(s);
    forall x | x in r.servers ensures ServerArmed(r, x, handled) {
      assert ServerArmed(s, x, handled);
    }
    forall x, v | InSlot(r, x, v)
      ensures SlotOk(r, x, v) && SlotArmed(r, x, v, handled) && PhaseOk(r, x, v)
    {
      assert InSlot(s, x, v) && SlotOk(s, x, v) && SlotArmed(s, x, v, handled) && PhaseOk(s, x, v);
    }
  }

  lemma ResetRest(cfg: Config, s: State)
    requires PendingOk(cfg, s) && QueuesOk(s) && DrainBoundOk(cfg, s) && MetersOk(cfg, s)
    ensures var r := ResetWindow(s); PendingOk(cfg, r) && QueuesOk(r) && DrainBoundOk(cfg, r) && MetersOk(cfg, r)
  {
    var r := ResetWindow(s);
    forall slot | slot in r.pending ensures PendingEntryOk(cfg, r, slot) {
      assert PendingEntryOk(cfg, s, slot) && InSlot(s, slot.server, slot.service);
      assert InSlot(r, slot.server, slot.service);
    }
    forall o | 0 <= o < |r.objects| ensures QueueOk(r, o) {
      assert QueueOk(s, o);
    }
    forall j | j in r.heap && r.heap[j].kind.DrainDone? && r.heap[j].kind.server in r.servers
      ensures DueInTime(cfg, r, r.heap[j].kind.server, r.heap[j].time - cfg.delays.grace)
    {
      assert DueInTime(cfg, s, s.heap[j].kind.server, s.heap[j].time - cfg.delays.grace);
    }
    forall x | x in r.servers && x in cfg.servers ensures MeterOk(cfg, r, x) {
      assert MeterOk(cfg, s, x);
    }
  }

  lemma ResetKeeps(cfg: Config, s: State, tau: real, handled: set<Kind>)
    requires Core(cfg, s, tau, handled) && CoverOk(s)
    ensures Core(cfg, ResetWindow(s), tau, handled) && CoverOk(ResetWindow(s))
  {
    hide SlotsOk, IndexOk, CapacityOk, PhasesOk, EventsOk, UniqueOk, GonePairsOk, ServersArmed, SlotsArmed,
      PendingOk, RescueOk, QueuesOk, MetersOk, DrainBoundOk, CoverOk, HandledOk;
    var r := ResetWindow(s);
    HostingKept(cfg, s, r);
    ResetEvents(cfg, s, tau);
    ResetArmed(s, handled);
    ResetRest(cfg, s);
    RescueFrame(s, r);
    CoverFrame(s, r);
  }

  // ------------------------------------------------------------------
  // Emergency boots
  // ------------------------------------------------------------------

  /** Another service is entrusted to a server that is already booting. */
  lemma RescueMoreKeeps(cfg: Config, s: State, tau: real, handled: set<Kind>, v: int, sid: int)
    requires Core(cfg, s, tau, handled) && CoverOk(s) && v !in s.rescue
    requires sid in s.servers && s.servers[sid].phase == Booting
    ensures Core(cfg, s.(rescue := s.rescue[v := sid]), tau, handled) && CoverOk(s.(rescue := s.rescue[v := sid]))
  {
    hide SlotsOk, IndexOk, CapacityOk, PhasesOk, EventsOk, UniqueOk, GonePairsOk, ServersArmed, SlotsArmed,
      PendingOk, QueuesOk, MetersOk, DrainBoundOk, CoverOk, HandledOk;
    var r := s.(rescue := s.rescue[v := sid]);
    forall x | x in r.servers && r.servers[x].emergency
      ensures r.servers[x].phase == Booting && exists w :: Rescues(r, w, x)
    {
      var w :| Rescues(s, w, x);
      assert Rescues(r, w, x);
    }
    BooksKeep(cfg, s, r, tau, handled);
  }

  /** An emergency boot touches only servers that were off, and only to boot them. */
  ghost predicate OnlyBoots(s: State, r: State) {
    && r.servers.Keys == s.servers.Keys && r.now == s.now && r.ticks == s.ticks
    && (forall x :: x in s.servers ==>
          r.servers[x].phase == s.servers[x].phase
          || (s.servers[x].phase == Off && r.servers[x].phase == Booting))
  }

  lemma {:induction false} RescueAllKeeps(cfg: Config, s: State, tau: real, handled: set<Kind>,
                                          picks: seq<MigrationStep>)
    requires Core(cfg, s, tau, handled) && CoverOk(s)
    requires s.now + cfg.delays.boot + cfg.delays.startup < tau
    requires forall kind :: kind in handled ==> !kind.BootDone?
    requires forall i :: 0 <= i < |picks| ==> picks[i].service in cfg.services
    ensures Core(cfg, RescueAll(cfg, s, picks).0, tau, handled) && CoverOk(RescueAll(cfg, s, picks).0)
    ensures OnlyBoots(s, RescueAll(cfg, s, picks).0)
    decreases |picks|
  {
    hide SlotsOk, IndexOk, CapacityOk, PhasesOk, EventsOk, UniqueOk, GonePairsOk, ServersArmed, SlotsArmed,
      PendingOk, RescueOk, QueuesOk, MetersOk, DrainBoundOk, CoverOk, HandledOk;
    if picks != [] {
      var n := |picks| - 1;
      var pick := picks[n];
      RescueAllKeeps(cfg, s, tau, handled, picks[..n]);
      var (s1, reserved) := RescueAll(cfg, s, picks[..n]);
      if pick.service !in s1.rescue && pick.target in s.servers && s.servers[pick.target].phase == Off
         && cfg.servers[pick.target].capacity - Reserved(reserved, pick.target)
            >= cfg.services[pick.service].resource {
        RescueOneKeeps(cfg, s1, tau, handled, pick.service, pick.target);
      }
    }
  }

  lemma RescueOneKeeps(cfg: Config, s: State, tau: real, handled: set<Kind>, v: int, sid: int)
    requires Core(cfg, s, tau, handled) && CoverOk(s) && v !in s.rescue
    requires s.now + cfg.delays.boot + cfg.delays.startup < tau
    requires forall kind :: kind in handled ==> !kind.BootDone?
    requires sid in s.servers && s.servers[sid].phase in {Off, Booting}
    ensures var r := StartBoot(cfg, s.(rescue := s.rescue[v := sid]), sid, true);
            Core(cfg, r, tau, handled) && CoverOk(r) && OnlyBoots(s, r)
  {
    hide Core, CoverOk;
    var s2 := s.(rescue := s.rescue[v := sid]);
    if s.servers[sid].phase == Off {
      StartBootKeeps(cfg, s, s2, tau, handled, sid, true, v);
    } else {
      RescueMoreKeeps(cfg, s, tau, handled, v, sid);
    }
  }
}
