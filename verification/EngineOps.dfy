/** Each elementary update of the lifecycle keeps the invariant. */
module EngineOps {
  import opened Settings
  import opened ReplicaQueues
  import opened EngineModel
  import opened EngineInvariants
  import opened EngineClock

  // ------------------------------------------------------------------
  // Pushing an event
  // ------------------------------------------------------------------

  /** What a new event must satisfy besides being legitimate itself. */
  ghost predicate MayPush(cfg: Config, s: State, handled: set<Kind>, ev: Event) {
    && (Single(ev.kind) ==> ev.kind in handled)
    && (ev.kind.ReplicaGone? ==> forall j :: j in s.heap && s.heap[j].kind == ev.kind ==>
          PairBound(cfg, s, ev.kind.slot, ev.kind.owner, s.heap[j].time)
          && PairBound(cfg, s, ev.kind.slot, ev.kind.owner, ev.time))
    && (ev.kind.ReplicaReady? && ev.kind.slot in s.pending && s.pending[ev.kind.slot] in s.servers ==>
          ev.time == s.servers[s.pending[ev.kind.slot]].lastTransition + cfg.delays.startup)
    && (ev.kind.DrainDone? && ev.kind.server in s.servers ==>
          DueInTime(cfg, s, ev.kind.server, ev.time - cfg.delays.grace))
  }

  ghost predicate PairBound(cfg: Config, s: State, slot: Slot, owner: nat, time: real) {
    InSlot(s, slot.server, slot.service) && owner < |s.objects| ==>
      && s.servers[slot.server].phase == Draining
      && time <= Later(s.servers[slot.server].lastTransition + cfg.delays.graceful,
                       s.objects[owner].queue.availableAt)
  }

  lemma PushDue(s: State, time: real, kind: Kind, x: Kind, handled: set<Kind>)
    requires Due(s.heap, x, handled) && s.lastSeq + 1 !in s.heap
    ensures Due(Push(s, time, kind).heap, x, handled - {kind})
  {
    var r := Push(s, time, kind);
    assert r.heap[r.lastSeq].kind == kind;
    if x != kind && x !in handled {
      var j :| j in s.heap && s.heap[j].kind == x;
      assert j in r.heap && r.heap[j].kind == x;
    }
  }

  lemma PushArmed(s: State, time: real, kind: Kind, handled: set<Kind>)
    requires SlotsOk(s) && SlotsOk(Push(s, time, kind)) && s.lastSeq + 1 !in s.heap
    requires ServersArmed(s, handled) && SlotsArmed(s, handled)
    ensures ServersArmed(Push(s, time, kind), handled - {kind}) && SlotsArmed(Push(s, time, kind), handled - {kind})
  {
    var r := Push(s, time, kind);
    forall sid | sid in r.servers ensures ServerArmed(r, sid, handled - {kind}) {
      assert ServerArmed(s, sid, handled);
      if s.servers[sid].phase == Booting {
        PushDue(s, time, kind, BootDone(sid), handled);
      }
      if s.servers[sid].phase == Draining {
        PushDue(s, time, kind, DrainDone(sid), handled);
      }
    }
    forall sid, v | InSlot(r, sid, v) ensures SlotOk(r, sid, v) && SlotArmed(r, sid, v, handled - {kind}) {
      assert InSlot(s, sid, v) && SlotOk(s, sid, v) && SlotArmed(s, sid, v, handled);
      var o := At(s, sid, v);
      if s.servers[sid].phase == Active && s.objects[o].phase == Starting {
        PushDue(s, time, kind, ReplicaReady(Slot(sid, v), o), handled);
      }
      if s.objects[o].phase == Leaving {
        PushDue(s, time, kind, ReplicaGone(Slot(sid, v), o), handled);
      }
    }
  }

  lemma PushUnique(s: State, time: real, kind: Kind, handled: set<Kind>)
    requires UniqueOk(s.heap) && HandledOk(s.heap, handled) && s.lastSeq + 1 !in s.heap
    requires Single(kind) ==> kind in handled
    ensures UniqueOk(Push(s, time, kind).heap) && HandledOk(Push(s, time, kind).heap, handled - {kind})
  {
    var r := Push(s, time, kind);
    if Single(kind) {
      assert !HasEvent(s.heap, kind);
    }
    forall x | x in handled - {kind} && Single(x) ensures !HasEvent(r.heap, x) {
      assert !HasEvent(s.heap, x);
      forall j | j in r.heap ensures r.heap[j].kind != x {
        assert j == r.lastSeq || (j in s.heap && r.heap[j] == s.heap[j]);
      }
    }
  }

  lemma PushEvents(cfg: Config, s: State, tau: real, time: real, kind: Kind)
    requires EventsOk(cfg, s, tau) && EventOk(cfg, s, tau, Event(time, kind))
    ensures s.lastSeq + 1 !in s.heap
    ensures EventsOk(cfg, Push(s, time, kind), tau)
  {
    var r := Push(s, time, kind);
    assert s.lastSeq + 1 in s.heap ==> s.lastSeq + 1 <= s.lastSeq;
    forall j | j in r.heap ensures j <= r.lastSeq && EventOk(cfg, r, tau, r.heap[j]) {
      if j != r.lastSeq {
        assert EventOk(cfg, s, tau, s.heap[j]);
      }
    }
  }

  lemma PushPairs(cfg: Config, s: State, time: real, kind: Kind, handled: set<Kind>)
    requires GonePairsOk(cfg, s) && s.lastSeq + 1 !in s.heap && MayPush(cfg, s, handled, Event(time, kind))
    ensures GonePairsOk(cfg, Push(s, time, kind))
  {
    var r := Push(s, time, kind);
    forall i, j | i in r.heap && j in r.heap ensures GonePairOk(cfg, r, i, j) {
      if i != j && r.heap[i].kind == r.heap[j].kind && r.heap[i].kind.ReplicaGone? {
        var slot := r.heap[i].kind.slot;
        assert InSlot(r, slot.server, slot.service) <==> InSlot(s, slot.server, slot.service);
        if i == r.lastSeq {
          assert PairBound(cfg, s, slot, kind.owner, time) && s.heap[j].kind == kind;
        } else if j == r.lastSeq {
          assert PairBound(cfg, s, slot, kind.owner, s.heap[i].time) && s.heap[i].kind == kind;
        } else {
          assert GonePairOk(cfg, s, i, j);
        }
      }
    }
  }

  lemma PushPending(cfg: Config, s: State, time: real, kind: Kind, handled: set<Kind>)
    requires PendingOk(cfg, s) && s.lastSeq + 1 !in s.heap && MayPush(cfg, s, handled, Event(time, kind))
    ensures PendingOk(cfg, Push(s, time, kind))
  {
    var r := Push(s, time, kind);
    forall slot | slot in r.pending ensures PendingEntryOk(cfg, r, slot) {
      assert PendingEntryOk(cfg, s, slot) && InSlot(s, slot.server, slot.service);
      assert InSlot(r, slot.server, slot.service);
      forall k | k in r.heap && r.heap[k].kind.ReplicaReady? && r.heap[k].kind.slot == slot
        ensures r.heap[k].time == r.servers[r.pending[slot]].lastTransition + cfg.delays.startup
      {
        if k != r.lastSeq {
          assert k in s.heap && s.heap[k] == r.heap[k];
        }
      }
    }
  }

  lemma PushQueues(s: State, time: real, kind: Kind)
    requires QueuesOk(s) && s.lastSeq + 1 !in s.heap
    ensures QueuesOk(Push(s, time, kind))
  {
    var r := Push(s, time, kind);
    forall o | 0 <= o < |r.objects| ensures QueueOk(r, o) {
      assert QueueOk(s, o);
      var q := s.objects[o].queue;
      forall i | 0 <= i < |q.departures| && q.departures[i] > s.now ensures HasResync(r.heap, q.departures[i]) {
        var j :| j in s.heap && s.heap[j] == Event(q.departures[i], EnergyResync);
        assert j in r.heap && r.heap[j] == s.heap[j];
      }
    }
  }

  lemma PushBounds(cfg: Config, s: State, time: real, kind: Kind, handled: set<Kind>)
    requires DrainBoundOk(cfg, s) && s.lastSeq + 1 !in s.heap && MayPush(cfg, s, handled, Event(time, kind))
    ensures DrainBoundOk(cfg, Push(s, time, kind))
  {
    var r := Push(s, time, kind);
    forall j | j in r.heap && r.heap[j].kind.DrainDone? && r.heap[j].kind.server in r.servers
      ensures DueInTime(cfg, r, r.heap[j].kind.server, r.heap[j].time - cfg.delays.grace)
    {
      if j != r.lastSeq {
        assert DueInTime(cfg, s, s.heap[j].kind.server, s.heap[j].time - cfg.delays.grace);
      } else {
        assert DueInTime(cfg, s, kind.server, time - cfg.delays.grace);
      }
    }
  }

  lemma PushKeeps(cfg: Config, s: State, tau: real, handled: set<Kind>, time: real, kind: Kind)
    requires Core(cfg, s, tau, handled)
    requires EventOk(cfg, s, tau, Event(time, kind)) && MayPush(cfg, s, handled, Event(time, kind))
    ensures Core(cfg, Push(s, time, kind), tau, handled - {kind})
    ensures CoverOk(s) ==> CoverOk(Push(s, time, kind))
  {
    hide SlotsOk, IndexOk, CapacityOk, PhasesOk, EventsOk, UniqueOk, GonePairsOk, ServersArmed, SlotsArmed,
      PendingOk, RescueOk, QueuesOk, MetersOk, DrainBoundOk, CoverOk, HandledOk;
    var r := Push(s, time, kind);
    PushEvents(cfg, s, tau, time, kind);
    HostingKept(cfg, s, r);
    PhasesFrame(s, r);
    RescueFrame(s, r);
    MetersFrame(cfg, s, r);
    PushPairs(cfg, s, time, kind, handled);
    PushPending(cfg, s, time, kind, handled);
    PushUnique(s, time, kind, handled);
    PushArmed(s, time, kind, handled);
    PushDue(s, time, kind, DecisionTick, handled);
    PushQueues(s, time, kind);
    PushBounds(cfg, s, time, kind, handled);
    if CoverOk(s) {
      CoverFrame(s, r);
    }
  }
}
