/** The event handlers other than the decision tick keep the invariant. */
module EngineHandlers {
  import opened Settings
  import opened ReplicaQueues
  import opened EngineModel
  import opened EngineInvariants
  import opened EngineClock
  import opened EngineOps
  import opened EnginePlace
  import opened EngineRetire
  import opened EngineReady
  import opened EngineGone
  import opened EngineServers

  /** `order` lists the members of a set, each once. */
  ghost predicate Enumerates(order: seq<int>, members: set<int>) {
    && (forall i, j :: 0 <= i < j < |order| ==> order[i] != order[j])
    && (forall v :: v in order <==> v in members)
  }

  // ------------------------------------------------------------------
  // SERVER_BOOT_DONE
  // ------------------------------------------------------------------

  lemma {:induction false} ScheduleCommutes(cfg: Config, s: State, t: State, sid: int, order: seq<int>)
    requires InStore(s, sid) && InStore(t, sid)
    requires s.servers[sid].hosted == t.servers[sid].hosted
    requires s.objects == t.objects && s.now == t.now && s.heap == t.heap && s.lastSeq == t.lastSeq
    ensures ScheduleAll(cfg, t, sid, order)
            == t.(heap := ScheduleAll(cfg, s, sid, order).heap, lastSeq := ScheduleAll(cfg, s, sid, order).lastSeq)
    decreases |order|
  {
    if order != [] {
      ScheduleCommutes(cfg, s, t, sid, order[..|order| - 1]);
    }
  }

  /** The ready events owed to the services not yet visited. */
  ghost function OwedBeyond(s: State, sid: int, order: seq<int>): set<Kind>
    requires sid in s.servers
  {
    set v | v in s.servers[sid].hosted && v !in order :: ReplicaReady(Slot(sid, v), s.servers[sid].hosted[v])
  }

  ghost predicate FreshlyActive(s: State, sid: int) {
    && InStore(s, sid) && s.servers[sid].phase == Active
    && forall v :: v in s.servers[sid].hosted ==>
         var r := s.objects[s.servers[sid].hosted[v]];
         && r.phase == Starting && r.readySince == None && r.createdAt <= s.now
         && Slot(sid, v) !in s.pending
  }

  lemma {:induction false} ScheduleAllKeeps(cfg: Config, s: State, tau: real, sid: int, order: seq<int>)
    requires FreshlyActive(s, sid) && Core(cfg, s, tau, OwedReady(s, sid)) && CoverOk(s)
    requires s.now + cfg.delays.startup < tau
    requires forall i, j :: 0 <= i < j < |order| ==> order[i] != order[j]
    requires forall v :: v in order ==> v in s.servers[sid].hosted
    ensures Core(cfg, ScheduleAll(cfg, s, sid, order), tau, OwedBeyond(s, sid, order))
    ensures CoverOk(ScheduleAll(cfg, s, sid, order))
    decreases |order|
  {
    if order == [] {
      assert OwedBeyond(s, sid, order) == OwedReady(s, sid);
    } else {
      assert order[|order| - 1] in order;
      ScheduleAllKeeps(cfg, s, tau, sid, order[..|order| - 1]);
      ScheduleNext(cfg, s, tau, sid, order);
    }
  }

  lemma ScheduleNext(cfg: Config, s: State, tau: real, sid: int, order: seq<int>)
    requires FreshlyActive(s, sid) && order != [] && order[|order| - 1] in s.servers[sid].hosted
    requires forall i, j :: 0 <= i < j < |order| ==> order[i] != order[j]
    requires var before := order[..|order| - 1];
             Core(cfg, ScheduleAll(cfg, s, sid, before), tau, OwedBeyond(s, sid, before))
             && CoverOk(ScheduleAll(cfg, s, sid, before))
    requires s.now + cfg.delays.startup < tau
    ensures Core(cfg, ScheduleAll(cfg, s, sid, order), tau, OwedBeyond(s, sid, order))
    ensures CoverOk(ScheduleAll(cfg, s, sid, order))
  {
    var n := |order| - 1;
    OwedStep(s, sid, order);
    ScheduleStep(cfg, s, ScheduleAll(cfg, s, sid, order[..n]), tau, sid, order[n], OwedBeyond(s, sid, order));
  }

  lemma ScheduleStep(cfg: Config, s: State, m: State, tau: real, sid: int, v: int, owed: set<Kind>)
    requires FreshlyActive(s, sid) && m == s.(heap := m.heap, lastSeq := m.lastSeq)
    requires InSlot(s, sid, v) && At(s, sid, v) < |s.objects|
    requires var kind := ReplicaReady(Slot(sid, v), At(s, sid, v));
             Core(cfg, m, tau, owed + {kind}) && kind !in owed
    requires CoverOk(m) && s.now + cfg.delays.startup < tau
    ensures Core(cfg, ScheduleReady(cfg, m, At(s, sid, v)), tau, owed)
    ensures CoverOk(ScheduleReady(cfg, m, At(s, sid, v)))
  {
    assert InSlot(m, sid, v);
    ScheduleKeeps(cfg, m, tau, owed, sid, v);
  }

  lemma OwedStep(s: State, sid: int, order: seq<int>)
    requires InStore(s, sid) && order != []
    requires forall i, j :: 0 <= i < j < |order| ==> order[i] != order[j]
    requires order[|order| - 1] in s.servers[sid].hosted
    ensures var n := |order| - 1;
            var kind := ReplicaReady(Slot(sid, order[n]), At(s, sid, order[n]));
            OwedBeyond(s, sid, order[..n]) == OwedBeyond(s, sid, order) + {kind}
            && kind !in OwedBeyond(s, sid, order)
  {
    var n := |order| - 1;
    var v := order[n];
    assert v !in order[..n];
    forall w | w in s.servers[sid].hosted ensures w !in order[..n] <==> w !in order || w == v {
      assert w in order <==> w in order[..n] || w == v by {
        assert order == order[..n] + [v];
      }
    }
  }

  lemma BootDoneShape(cfg: Config, s: State, sid: int, order: seq<int>)
    requires InStore(s, sid)
    ensures InStore(MarkActive(s, sid), sid)
    ensures HandleBootDone(cfg, s, sid, order) == ScheduleAll(cfg, MarkActive(s, sid), sid, order)
  {
    var m := MarkActive(s, sid);
    var s1 := WithServer(s, sid, s.servers[sid].(phase := Active, lastTransition := s.now));
    ScheduleCommutes(cfg, s1, m, sid, order);
  }

  lemma HandleBootDoneKeeps(cfg: Config, s: State, tau: real, sid: int, order: seq<int>)
    requires Core(cfg, s, tau, {BootDone(sid)}) && CoverOk(s) && BootIsDue(cfg, s, tau, sid) && InStore(s, sid)
    requires Enumerates(order, s.servers[sid].hosted.Keys)
    ensures Core(cfg, HandleBootDone(cfg, s, sid, order), tau, {})
    ensures CoverOk(HandleBootDone(cfg, s, sid, order))
  {
    MarkActiveKeeps(cfg, s, tau, sid);
    BootDoneShape(cfg, s, sid, order);
    BootedIsFresh(cfg, s, sid);
    ScheduleEveryone(cfg, s, tau, sid, order);
  }

  lemma ScheduleEveryone(cfg: Config, s: State, tau: real, sid: int, order: seq<int>)
    requires sid in s.servers && FreshlyActive(MarkActive(s, sid), sid)
    requires Core(cfg, MarkActive(s, sid), tau, OwedReady(s, sid)) && CoverOk(MarkActive(s, sid))
    requires s.now + cfg.delays.startup < tau && Enumerates(order, s.servers[sid].hosted.Keys)
    ensures Core(cfg, ScheduleAll(cfg, MarkActive(s, sid), sid, order), tau, {})
    ensures CoverOk(ScheduleAll(cfg, MarkActive(s, sid), sid, order))
  {
    hide Core, CoverOk;
    var m := MarkActive(s, sid);
    assert OwedReady(m, sid) == OwedReady(s, sid);
    assert OwedBeyond(m, sid, order) == {};
    ScheduleAllKeeps(cfg, m, tau, sid, order);
  }

  lemma BootedIsFresh(cfg: Config, s: State, sid: int)
    requires SlotsOk(s) && PhasesOk(s) && PendingOk(cfg, s)
    requires InStore(s, sid) && s.servers[sid].phase == Booting
    ensures FreshlyActive(MarkActive(s, sid), sid)
  {
    var m := MarkActive(s, sid);
    forall v | v in m.servers[sid].hosted
      ensures var r := m.objects[m.servers[sid].hosted[v]];
              && r.phase == Starting && r.readySince == None && r.createdAt <= m.now
              && Slot(sid, v) !in m.pending
    {
      assert InSlot(s, sid, v);
      assert SlotOk(s, sid, v) && PhaseOk(s, sid, v);
    }
  }

  // ------------------------------------------------------------------
  // REQUEST_ARRIVAL, REQUEST_ROUTED
  // ------------------------------------------------------------------

  /** Popping an event that no object owes leaves nothing owed. */
  lemma NothingOwed(cfg: Config, s: State, tau: real, kind: Kind)
    requires Core(cfg, s, tau, {kind})
    requires kind.Arrival? || kind.Routed? || kind.EnergyResync?
    ensures Core(cfg, s, tau, {})
  {
    hide SlotsOk, IndexOk, CapacityOk, PhasesOk, EventsOk, UniqueOk, GonePairsOk, PendingOk, RescueOk,
      QueuesOk, MetersOk, DrainBoundOk, CoverOk;
    forall x | x in s.servers ensures ServerArmed(s, x, {}) {
      assert ServerArmed(s, x, {kind});
    }
    forall x, w | InSlot(s, x, w) ensures SlotOk(s, x, w) && SlotArmed(s, x, w, {}) {
      assert SlotOk(s, x, w) && SlotArmed(s, x, w, {kind});
    }
  }

  /** Counters, log and metrics are not part of the invariant. */
  lemma CountersBlind(cfg: Config, s: State, r: State, tau: real)
    requires Core(cfg, s, tau, {}) && r == s.(arrived := r.arrived, log := r.log, metrics := r.metrics)
    ensures Core(cfg, r, tau, {})
    ensures CoverOk(s) ==> CoverOk(r)
  {
    hide SlotsOk, IndexOk, CapacityOk, PhasesOk, EventsOk, UniqueOk, GonePairsOk, ServersArmed, SlotsArmed,
      PendingOk, RescueOk, QueuesOk, MetersOk, DrainBoundOk, CoverOk, HandledOk;
    RescueFrame(s, r);
    BooksKeep(cfg, s, r, tau, {});
  }

  /** Pushing an event no object owes. */
  lemma PushQuiet(cfg: Config, s: State, tau: real, handled: set<Kind>, time: real, kind: Kind)
    requires Core(cfg, s, tau, handled) && s.now <= time && KindLinked(cfg, kind)
    requires (kind.Arrival? || kind.Routed? || kind.EnergyResync?) && kind !in handled
    ensures Core(cfg, Push(s, time, kind), tau, handled)
    ensures CoverOk(s) ==> CoverOk(Push(s, time, kind))
  {
    hide SlotsOk, IndexOk, CapacityOk, PhasesOk, EventsOk, UniqueOk, GonePairsOk, ServersArmed, SlotsArmed,
      PendingOk, RescueOk, QueuesOk, MetersOk, DrainBoundOk, CoverOk, HandledOk;
    PushKeeps(cfg, s, tau, handled, time, kind);
    assert handled - {kind} == handled;
  }

  lemma CoreConfig(cfg: Config, s: State, tau: real)
    requires Core(cfg, s, tau, {})
    ensures GoodConfig(cfg) && Linked(cfg, s)
  {
  }

  lemma HandleArrivalKeeps(cfg: Config, s: State, tau: real, at: Position, svc: int)
    requires Core(cfg, s, tau, {}) && CoverOk(s) && svc in cfg.services
    ensures Core(cfg, HandleArrival(cfg, s, at, svc), tau, {})
    ensures CoverOk(HandleArrival(cfg, s, at, svc))
  {
    hide Core, RoutingDelay;
    var s1 := s.(arrived := s.arrived + 1);
    CoreConfig(cfg, s, tau);
    RoutingDelayNonnegative(cfg, at);
    CountersBlind(cfg, s, s1, tau);
    RoutedPush(cfg, s1, tau, RoutingDelay(cfg, at), Request(s1.arrived, svc, at, RoutingDelay(cfg, at)));
  }

  lemma RoutedPush(cfg: Config, s: State, tau: real, delay: real, req: Request)
    requires Core(cfg, s, tau, {}) && CoverOk(s) && req.service in cfg.services && delay >= 0.0
    ensures Core(cfg, Push(s, s.now + delay, Routed(req)), tau, {})
    ensures CoverOk(Push(s, s.now + delay, Routed(req)))
  {
    hide Core;
    PushQuiet(cfg, s, tau, {}, s.now + delay, Routed(req));
  }

  // ------------------------------------------------------------------
  // REQUEST_ROUTED
  // ------------------------------------------------------------------

  /** Only the queue of one READY replica changes, and it never becomes free earlier. */
  ghost predicate QueueChange(s: State, r: State, o: nat) {
    && o < |s.objects| && |r.objects| == |s.objects|
    && s.objects[o].phase == Ready
    && r == s.(objects := s.objects[o := r.objects[o]])
    && r.objects[o] == s.objects[o].(queue := r.objects[o].queue)
    && s.objects[o].queue.availableAt <= r.objects[o].queue.availableAt
  }

  lemma QueueChangeHosting(s: State, r: State, o: nat)
    requires QueueChange(s, r, o)
    ensures SameHosting(s, r)
    ensures forall p :: 0 <= p < |s.objects| ==> r.objects[p].phase == s.objects[p].phase
  {
  }

  lemma QueueChangePhases(s: State, r: State, o: nat)
    requires SlotsOk(s) && PhasesOk(s) && SlotsOk(r) && QueueChange(s, r, o)
    ensures PhasesOk(r)
    ensures CoverOk(s) ==> CoverOk(r)
  {
    forall x, v | InSlot(r, x, v) ensures SlotOk(r, x, v) && PhaseOk(r, x, v) {
      assert InSlot(s, x, v) && SlotOk(s, x, v) && PhaseOk(s, x, v);
    }
    if CoverOk(s) {
      forall x, v | InSlot(r, x, v) ensures SlotOk(r, x, v) && SlotCovered(r, x, v) {
        assert InSlot(s, x, v) && SlotOk(s, x, v) && SlotCovered(s, x, v);
        if r.servers[x].phase == Draining && r.objects[At(r, x, v)].phase == Ready {
          var t :| MigratesTo(s, x, v, t);
          assert MigratesTo(r, x, v, t);
        }
      }
    }
  }

  lemma QueueChangeEvents(cfg: Config, s: State, r: State, tau: real, o: nat)
    requires EventsOk(cfg, s, tau) && QueueChange(s, r, o)
    ensures EventsOk(cfg, r, tau)
  {
    forall k | k in r.heap ensures k <= r.lastSeq && EventOk(cfg, r, tau, r.heap[k]) {
      assert EventOk(cfg, s, tau, s.heap[k]);
      match s.heap[k].kind
      case ReplicaGone(slot, owner) =>
        assert InSlot(r, slot.server, slot.service) <==> InSlot(s, slot.server, slot.service);
        assert SlotOf(r, owner) == SlotOf(s, owner);
      case ReplicaReady(slot, owner) =>
        assert InSlot(s, slot.server, slot.service) && InSlot(r, slot.server, slot.service);
      case _ =>
    }
  }

  lemma QueueChangePairs(cfg: Config, s: State, r: State, o: nat)
    requires GonePairsOk(cfg, s) && QueueChange(s, r, o)
    ensures GonePairsOk(cfg, r)
  {
    forall i, j | i in r.heap && j in r.heap ensures GonePairOk(cfg, r, i, j) {
      assert GonePairOk(cfg, s, i, j);
      if i != j && s.heap[i].kind == s.heap[j].kind && s.heap[i].kind.ReplicaGone? {
        var slot := s.heap[i].kind.slot;
        assert InSlot(r, slot.server, slot.service) <==> InSlot(s, slot.server, slot.service);
      }
    }
  }

  lemma QueueChangeArmed(s: State, r: State, o: nat)
    requires SlotsOk(s) && SlotsOk(r) && QueueChange(s, r, o)
    requires ServersArmed(s, {}) && SlotsArmed(s, {})
    ensures ServersArmed(r, {}) && SlotsArmed(r, {})
  {
    forall x | x in r.servers ensures ServerArmed(r, x, {}) {
      assert ServerArmed(s, x, {});
    }
    forall x, v | InSlot(r, x, v) ensures SlotOk(r, x, v) && SlotArmed(r, x, v, {}) {
      assert InSlot(s, x, v) && SlotOk(s, x, v) && SlotArmed(s, x, v, {});
    }
  }

  lemma QueueChangePending(cfg: Config, s: State, r: State, o: nat)
    requires PendingOk(cfg, s) && QueueChange(s, r, o)
    ensures PendingOk(cfg, r)
  {
    forall slot | slot in r.pending ensures PendingEntryOk(cfg, r, slot) {
      assert PendingEntryOk(cfg, s, slot) && InSlot(s, slot.server, slot.service);
      assert InSlot(r, slot.server, slot.service);
    }
  }

  lemma QueueChangeQueues(s: State, r: State, o: nat)
    requires QueuesOk(s) && QueueChange(s, r, o) && QueueOk(r, o)
    ensures QueuesOk(r)
  {
    forall p | 0 <= p < |r.objects| ensures QueueOk(r, p) {
      assert QueueOk(s, p);
    }
  }

  lemma QueueChangeBounds(cfg: Config, s: State, r: State, o: nat)
    requires DrainBoundOk(cfg, s) && QueueChange(s, r, o)
    ensures DrainBoundOk(cfg, r)
  {
    forall j | j in r.heap && r.heap[j].kind.DrainDone? && r.heap[j].kind.server in r.servers
      ensures DueInTime(cfg, r, r.heap[j].kind.server, r.heap[j].time - cfg.delays.grace)
    {
      var x, t := s.heap[j].kind.server, s.heap[j].time - cfg.delays.grace;
      assert DueInTime(cfg, s, x, t);
      if t > s.servers[x].lastTransition + cfg.delays.startup + cfg.delays.graceful {
        var p :| 0 <= p < |s.objects| && s.objects[p].server == x && t <= s.objects[p].queue.availableAt;
        assert r.objects[p].server == x && s.objects[p].queue.availableAt <= r.objects[p].queue.availableAt;
      }
    }
  }

  lemma QueueChangeKeeps(cfg: Config, s: State, r: State, tau: real, o: nat)
    requires Core(cfg, s, tau, {}) && QueueChange(s, r, o) && QueueOk(r, o)
    ensures Core(cfg, r, tau, {})
    ensures CoverOk(s) ==> CoverOk(r)
  {
    hide SlotsOk, IndexOk, CapacityOk, PhasesOk, EventsOk, UniqueOk, GonePairsOk, ServersArmed, SlotsArmed,
      PendingOk, RescueOk, QueuesOk, MetersOk, DrainBoundOk, CoverOk;
    QueueChangeHosting(s, r, o);
    HostingKept(cfg, s, r);
    QueueChangePhases(s, r, o);
    QueueChangeEvents(cfg, s, r, tau, o);
    QueueChangePairs(cfg, s, r, o);
    QueueChangeArmed(s, r, o);
    QueueChangePending(cfg, s, r, o);
    QueueChangeQueues(s, r, o);
    QueueChangeBounds(cfg, s, r, o);
    RescueFrame(s, r);
    MetersFrame(cfg, s, r);
  }

  lemma ColdStartExtraNonnegative(cfg: Config, r: Replica, now: real)
    requires GoodConfig(cfg) && r.service in cfg.services && r.queue.exec > 0.0
    ensures ColdStartExtra(cfg, r, now) >= 0.0
  {
    assert GoodService(cfg.services[r.service]);
  }

  /** The queue after an admission, its resync already in the heap. */
  lemma AdmittedQueueOk(s: State, r: State, o: nat, extra: real)
    requires o < |s.objects| && QueueOk(s, o) && extra >= 0.0 && s.objects[o].phase == Ready
    requires r == WithObject(s, o, s.objects[o].(queue := Admit(s.objects[o].queue, s.now, extra).0))
    requires Admit(s.objects[o].queue, s.now, extra).1.Admitted? ==>
               HasResync(s.heap, Admit(s.objects[o].queue, s.now, extra).1.finish)
    ensures QueueChange(s, r, o) && QueueOk(r, o)
  {
    var q := s.objects[o].queue;
    PendingIsTheFuture(q.departures, s.now);
    AdmissionKeepsConsistency(q, s.now, extra);
    var p := r.objects[o].queue.departures;
    forall i | 0 <= i < |p| && p[i] > r.now ensures HasResync(r.heap, p[i]) {
      var pending := Pending(q.departures, s.now);
      if i < |pending| {
        assert p[i] == q.departures[|q.departures| - |pending| + i];
      }
    }
  }

  lemma AdmissionKeeps(cfg: Config, s: State, tau: real, o: nat, extra: real)
    requires Core(cfg, s, tau, {}) && CoverOk(s) && o < |s.objects| && s.objects[o].phase == Ready && extra >= 0.0
    ensures var (queue, admission) := Admit(s.objects[o].queue, s.now, extra);
            var r := WithObject(s, o, s.objects[o].(queue := queue));
            var t := if admission.Admitted? then Push(r, admission.finish, EnergyResync) else r;
            Core(cfg, t, tau, {}) && CoverOk(t)
  {
    hide SlotsOk, IndexOk, CapacityOk, PhasesOk, EventsOk, UniqueOk, GonePairsOk, ServersArmed, SlotsArmed,
      PendingOk, RescueOk, MetersOk, DrainBoundOk, CoverOk;
    var (queue, admission) := Admit(s.objects[o].queue, s.now, extra);
    assert QueueOk(s, o);
    if admission.Admitted? {
      var s1 := Push(s, admission.finish, EnergyResync);
      PushQuiet(cfg, s, tau, {}, admission.finish, EnergyResync);
      assert s1.heap[s1.lastSeq] == Event(admission.finish, EnergyResync);
      PushedAdmission(cfg, s, tau, o, extra);
    } else {
      var r := WithObject(s, o, s.objects[o].(queue := queue));
      AdmittedQueueOk(s, r, o, extra);
      QueueChangeKeeps(cfg, s, r, tau, o);
    }
  }

  lemma PushedAdmission(cfg: Config, s: State, tau: real, o: nat, extra: real)
    requires o < |s.objects| && s.objects[o].phase == Ready && extra >= 0.0
    requires Admit(s.objects[o].queue, s.now, extra).1.Admitted?
    requires var s1 := Push(s, Admit(s.objects[o].queue, s.now, extra).1.finish, EnergyResync);
             Core(cfg, s1, tau, {}) && CoverOk(s1)
    ensures var (queue, admission) := Admit(s.objects[o].queue, s.now, extra);
            var t := Push(WithObject(s, o, s.objects[o].(queue := queue)), admission.finish, EnergyResync);
            Core(cfg, t, tau, {}) && CoverOk(t)
  {
    hide SlotsOk, IndexOk, CapacityOk, PhasesOk, EventsOk, UniqueOk, GonePairsOk, ServersArmed, SlotsArmed,
      PendingOk, RescueOk, MetersOk, DrainBoundOk, CoverOk, QueueChange;
    var (queue, admission) := Admit(s.objects[o].queue, s.now, extra);
    var s1 := Push(s, admission.finish, EnergyResync);
    var t := Push(WithObject(s, o, s.objects[o].(queue := queue)), admission.finish, EnergyResync);
    assert t == WithObject(s1, o, s1.objects[o].(queue := queue));
    assert s1.heap[s1.lastSeq] == Event(admission.finish, EnergyResync);
    assert QueueOk(s1, o);
    AdmittedQueueOk(s1, t, o, extra);
    QueueChangeKeeps(cfg, s1, t, tau, o);
  }

  lemma HandleRoutedKeeps(cfg: Config, s: State, tau: real, req: Request, selected: Option<nat>)
    requires Core(cfg, s, tau, {}) && CoverOk(s) && req.service in cfg.services
    requires selected.Some? ==> Candidate(s, req.service, selected.value)
    requires selected.Some? ==> ObjectLinked(cfg, s.objects[selected.value])
    ensures Core(cfg, HandleRouted(cfg, s, req, selected), tau, {})
    ensures CoverOk(HandleRouted(cfg, s, req, selected))
  {
    hide SlotsOk, IndexOk, CapacityOk, PhasesOk, EventsOk, UniqueOk, GonePairsOk, ServersArmed, SlotsArmed,
      PendingOk, RescueOk, MetersOk, DrainBoundOk, CoverOk;
    var r := HandleRouted(cfg, s, req, selected);
    if selected.None? {
      CountersBlind(cfg, s, r, tau);
    } else {
      var o := selected.value;
      assert QueueOk(s, o);
      ColdStartExtraNonnegative(cfg, s.objects[o], s.now);
      var extra := ColdStartExtra(cfg, s.objects[o], s.now);
      AdmissionKeeps(cfg, s, tau, o, extra);
      FinalizeKeeps(cfg, s, tau, o, extra, r);
    }
  }

  lemma FinalizeKeeps(cfg: Config, s: State, tau: real, o: nat, extra: real, r: State)
    requires o < |s.objects|
    requires var (queue, admission) := Admit(s.objects[o].queue, s.now, extra);
             var w := WithObject(s, o, s.objects[o].(queue := queue));
             var t := if admission.Admitted? then Push(w, admission.finish, EnergyResync) else w;
             Core(cfg, t, tau, {}) && CoverOk(t) && r == t.(log := r.log, metrics := r.metrics)
    ensures Core(cfg, r, tau, {}) && CoverOk(r)
  {
    hide Core;
    var (queue, admission) := Admit(s.objects[o].queue, s.now, extra);
    var w := WithObject(s, o, s.objects[o].(queue := queue));
    var t := if admission.Admitted? then Push(w, admission.finish, EnergyResync) else w;
    CountersBlind(cfg, t, r, tau);
  }
}
