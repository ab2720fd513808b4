/** Whole-run request conservation. */
module EngineTraffic {
  import opened Settings
  import opened ReplicaQueues
  import opened EngineModel
  import opened EngineInvariants
  import opened EngineClock
  import opened EngineServers
  import opened EngineHandlers
  import opened EngineDrain
  import opened EngineRuns
  import opened EnginePrime
  import opened EngineLedger
  import opened EngineAccounts

  // ------------------------------------------------------------------
  // What the log says
  // ------------------------------------------------------------------

  predicate IsCompleted(o: Outcome) { o.Completed? }
  predicate IsQueueFull(o: Outcome) { o.QueueFull? }
  predicate IsNoReplica(o: Outcome) { o.NoReplica? }

  /** Rejected, or completed after its deadline. */
  predicate IsViolation(o: Outcome) {
    o.QueueFull? || o.NoReplica? || o.late
  }

  function Count(log: seq<Outcome>, p: Outcome -> bool): nat {
    if log == [] then 0
    else
      var n := |log| - 1;
      Count(log[..n], p) + if p(log[n]) then 1 else 0
  }

  /** The collected metrics are the tallies of the finalised requests. */
  predicate TallyOk(log: seq<Outcome>, m: Metrics) {
    && m.total == |log|
    && m.completed == Count(log, IsCompleted)
    && m.queueFull == Count(log, IsQueueFull)
    && m.noReplica == Count(log, IsNoReplica)
    && m.violations == Count(log, IsViolation)
  }

  /** Every outcome is one of completed, queue-full and no-replica. */
  lemma {:induction false} OutcomesPartition(log: seq<Outcome>)
    ensures |log| == Count(log, IsCompleted) + Count(log, IsQueueFull) + Count(log, IsNoReplica)
  {
    if log != [] {
      OutcomesPartition(log[..|log| - 1]);
    }
  }

  lemma RecordTallies(log: seq<Outcome>, m: Metrics, o: Outcome)
    requires TallyOk(log, m)
    ensures TallyOk(log + [o], RecordRequest(m, o))
  {
    assert (log + [o])[..|log|] == log;
  }

  // ------------------------------------------------------------------
  // Requests under way
  // ------------------------------------------------------------------

  function ArrivalsIn(heap: map<nat, Event>): set<nat> {
    set k | k in heap && heap[k].kind.Arrival?
  }

  function RoutedIn(heap: map<nat, Event>): set<nat> {
    set k | k in heap && heap[k].kind.Routed?
  }

  /** Arrivals come no later than the last row, and a request reaches the
      dispatcher one routing delay after its arrival. */
  ghost predicate Timely(cfg: Config, rows: seq<Row>, s: State) {
    && s.cutoff == LatestTime(rows) + CutoffSlack(cfg)
    && (forall k :: k in s.heap && s.heap[k].kind.Arrival? ==> s.heap[k].time <= LatestTime(rows))
    && (forall k :: k in s.heap && s.heap[k].kind.Routed? ==>
                      s.heap[k].time <= LatestTime(rows) + RoutingDelay(cfg, s.heap[k].kind.req.at))
  }

  lemma SameTrafficTimely(cfg: Config, rows: seq<Row>, s: State, r: State)
    requires Timely(cfg, rows, s) && Fresh(s) && SameTraffic(s, r)
    ensures Timely(cfg, rows, r)
  {
    hide RoutingDelay;
    forall k | k in r.heap && IsTraffic(r.heap[k].kind) ensures k in s.heap && s.heap[k] == r.heap[k] {
      assert k in Traffic(r.heap);
      assert k in Traffic(s.heap) && Traffic(s.heap)[k] == s.heap[k] && Traffic(r.heap)[k] == r.heap[k];
    }
  }

  /** Input rows are still to arrive or have arrived, and those that arrived are
      on their way to the dispatcher or finalised. */
  predicate TrafficOk(rows: seq<Row>, s: State) {
    && Fresh(s)
    && |rows| == |ArrivalsIn(s.heap)| + s.arrived
    && s.arrived == |RoutedIn(s.heap)| + |s.log|
    && TallyOk(s.log, s.metrics)
  }

  lemma SameTrafficKeeps(rows: seq<Row>, s: State, r: State)
    requires TrafficOk(rows, s) && SameTraffic(s, r)
    ensures TrafficOk(rows, r)
  {
    forall k
      ensures k in ArrivalsIn(r.heap) <==> k in ArrivalsIn(s.heap)
      ensures k in RoutedIn(r.heap) <==> k in RoutedIn(s.heap)
    {
      assert k in Traffic(r.heap) <==> k in r.heap && IsTraffic(r.heap[k].kind);
      assert k in Traffic(s.heap) <==> k in s.heap && IsTraffic(s.heap[k].kind);
      assert k in Traffic(r.heap) ==> Traffic(r.heap)[k] == r.heap[k] && Traffic(s.heap)[k] == s.heap[k];
    }
    assert ArrivalsIn(r.heap) == ArrivalsIn(s.heap) && RoutedIn(r.heap) == RoutedIn(s.heap);
  }

  /** The counts while event `kind` has been taken out of the heap. */
  predicate TrafficWithout(rows: seq<Row>, s: State, kind: Kind) {
    && Fresh(s)
    && |rows| == |ArrivalsIn(s.heap)| + s.arrived + (if kind.Arrival? then 1 else 0)
    && s.arrived == |RoutedIn(s.heap)| + |s.log| + (if kind.Routed? then 1 else 0)
    && TallyOk(s.log, s.metrics)
  }

  lemma PopTraffic(cfg: Config, rows: seq<Row>, s: State, k: nat)
    requires GoodConfig(cfg) && Linked(cfg, s) && TrafficOk(rows, s) && k in s.heap
    ensures TrafficWithout(rows, Popped(cfg, s, k), s.heap[k].kind)
  {
    hide GoodConfig, Linked, TallyOk;
    var p := Popped(cfg, s, k);
    assert p.heap == s.heap - {k};
    assert ArrivalsIn(p.heap) == ArrivalsIn(s.heap) - {k};
    assert RoutedIn(p.heap) == RoutedIn(s.heap) - {k};
  }

  lemma ArrivalTraffic(cfg: Config, rows: seq<Row>, p: State, at: Position, svc: int)
    requires TrafficWithout(rows, p, Arrival(at, svc))
    ensures TrafficOk(rows, HandleArrival(cfg, p, at, svc))
  {
    hide RoutingDelay, TallyOk;
    var r := HandleArrival(cfg, p, at, svc);
    assert p.lastSeq + 1 !in p.heap;
    assert ArrivalsIn(r.heap) == ArrivalsIn(p.heap);
    assert RoutedIn(r.heap) == RoutedIn(p.heap) + {p.lastSeq + 1};
  }

  lemma RoutedTraffic(cfg: Config, rows: seq<Row>, p: State, req: Request, selected: Option<nat>)
    requires TrafficWithout(rows, p, Routed(req)) && req.service in cfg.services
    requires selected.Some? ==> selected.value < |p.objects|
    requires selected.Some? ==> p.objects[selected.value].server in cfg.servers
    requires selected.Some? ==> p.objects[selected.value].service in cfg.services
    ensures TrafficOk(rows, HandleRouted(cfg, p, req, selected))
  {
    hide TallyOk, HandleRouted;
    var r := HandleRouted(cfg, p, req, selected);
    RoutedIsChange(cfg, p, req, selected);
    assert r.log == p.log + [r.log[|p.log|]];
    RecordTallies(p.log, p.metrics, r.log[|p.log|]);
    assert p.lastSeq + 1 !in p.heap;
    assert ArrivalsIn(r.heap) == ArrivalsIn(p.heap);
    assert RoutedIn(r.heap) == RoutedIn(p.heap);
  }

  lemma BootDoneTraffic(cfg: Config, s: State, sid: int, order: seq<int>)
    requires InStore(s, sid)
    ensures SameTraffic(s, HandleBootDone(cfg, s, sid, order))
  {
    BootDoneShape(cfg, s, sid, order);
    ScheduleAllWorks(cfg, MarkActive(s, sid), sid, order);
  }

  lemma DrainDoneTraffic(cfg: Config, s: State, sid: int)
    requires InStore(s, sid)
    ensures SameTraffic(s, HandleDrainDone(cfg, s, sid))
  {
    if !AllTerminated(s, sid) {
      PushTraffic(s, s.now + cfg.delays.grace, DrainDone(sid));
    }
  }

  lemma TickTraffic(cfg: Config, p: State, choice: Choice)
    requires GoodConfig(cfg) && Linked(cfg, p) && ChoiceLinked(cfg, p, choice)
    ensures SameTraffic(p, Handle(cfg, p, DecisionTick, choice))
  {
    hide GoodConfig, Unmigrated, ChoiceLinked, Handle, Balanced, PlanInBounds, Traffic, Fresh;
    if choice.provision.TurnOff? {
      TickPlanInBounds(cfg, p, choice);
    }
    TickWorks(cfg, p, choice);
    var m := Marked(cfg, TickStart(p), choice.provision);
    assert SameTraffic(p, m) by {
      assert m.heap == p.heap && m.lastSeq == p.lastSeq;
      FreshTraffic(p, m);
    }
    TrafficTrans(p, m, Handle(cfg, p, DecisionTick, choice));
  }

  lemma FreshTraffic(s: State, r: State)
    requires r.heap == s.heap && r.lastSeq == s.lastSeq
    ensures Fresh(s) ==> Fresh(r) && Traffic(r.heap) == Traffic(s.heap)
  {
  }

  /** Only arrivals and routing move requests. */
  lemma OthersTraffic(cfg: Config, p: State, kind: Kind, choice: Choice)
    requires GoodConfig(cfg) && Linked(cfg, p) && KindLinked(cfg, kind) && ChoiceLinked(cfg, p, choice)
    requires !IsTraffic(kind)
    ensures SameTraffic(p, Handle(cfg, p, kind, choice))
  {
    hide Fresh, Traffic, GoodConfig, Balanced;
    assert forall sid :: sid in p.servers ==> InStore(p, sid);
    match kind
    case DecisionTick => TickTraffic(cfg, p, choice);
    case BootDone(sid) => BootDoneTraffic(cfg, p, sid, choice.order);
    case DrainDone(sid) => DrainDoneTraffic(cfg, p, sid);
    case ReplicaReady(slot, o) => ReadyWorks(cfg, p, slot);
    case ReplicaGone(slot, o) =>
      assert InStore(p, slot.server);
      FreshTraffic(p, HandleGone(p, slot));
    case EnergyResync => FreshTraffic(p, p);
  }

  /** Every handler accounts for the request it was given. */
  lemma HandleTraffic(cfg: Config, rows: seq<Row>, p: State, kind: Kind, choice: Choice)
    requires GoodConfig(cfg) && Linked(cfg, p) && KindLinked(cfg, kind) && ChoiceLinked(cfg, p, choice)
    requires TrafficWithout(rows, p, kind)
    ensures TrafficOk(rows, Handle(cfg, p, kind, choice))
  {
    hide TallyOk, Fresh, Traffic, HandleRouted, HandleArrival, GoodConfig, Balanced, SameTraffic;
    match kind
    case Arrival(at, svc) => ArrivalTraffic(cfg, rows, p, at, svc);
    case Routed(req) => RoutedTraffic(cfg, rows, p, req, choice.selected);
    case _ =>
      hide Handle;
      OthersTraffic(cfg, p, kind, choice);
      SameTrafficKeeps(rows, p, Handle(cfg, p, kind, choice));
  }

  lemma PopTimely(cfg: Config, rows: seq<Row>, s: State, k: nat)
    requires GoodConfig(cfg) && Linked(cfg, s) && Timely(cfg, rows, s) && k in s.heap
    ensures Timely(cfg, rows, Popped(cfg, s, k))
    ensures s.heap[k].kind.Arrival? ==> Popped(cfg, s, k).now <= LatestTime(rows)
  {
    hide GoodConfig, Linked, RoutingDelay, Metered;
  }

  lemma RoutedTimely(cfg: Config, rows: seq<Row>, p: State, r: State)
    requires Timely(cfg, rows, p) && RoutedChange(p, r)
    ensures Timely(cfg, rows, r)
  {
    hide RoutingDelay, RecordRequest;
  }

  lemma ArrivalTimely(cfg: Config, rows: seq<Row>, p: State, at: Position, svc: int)
    requires Timely(cfg, rows, p) && p.now <= LatestTime(rows)
    ensures Timely(cfg, rows, HandleArrival(cfg, p, at, svc))
  {
    hide RoutingDelay;
  }

  lemma HandleTimely(cfg: Config, rows: seq<Row>, p: State, kind: Kind, choice: Choice)
    requires GoodConfig(cfg) && Linked(cfg, p) && KindLinked(cfg, kind) && ChoiceLinked(cfg, p, choice)
    requires Timely(cfg, rows, p) && Fresh(p) && (kind.Arrival? ==> p.now <= LatestTime(rows))
    ensures Timely(cfg, rows, Handle(cfg, p, kind, choice))
  {
    hide Timely, Fresh, Traffic, HandleRouted, HandleArrival, GoodConfig, Balanced, RoutingDelay, SameTraffic;
    match kind
    case Arrival(at, svc) => ArrivalTimely(cfg, rows, p, at, svc);
    case Routed(req) =>
      RoutedIsChange(cfg, p, req, choice.selected);
      RoutedTimely(cfg, rows, p, HandleRouted(cfg, p, req, choice.selected));
    case _ =>
      hide Handle;
      OthersTraffic(cfg, p, kind, choice);
      SameTrafficTimely(cfg, rows, p, Handle(cfg, p, kind, choice));
  }

  lemma StepTraffic(cfg: Config, rows: seq<Row>, s: State, k: nat, choice: Choice, r: State)
    requires IsStep(cfg, s, k, choice, r) && TrafficOk(rows, s) && Timely(cfg, rows, s)
    ensures TrafficOk(rows, r) && Timely(cfg, rows, r)
  {
    hide TrafficOk, TrafficWithout, Timely, Handle, Popped, GoodConfig, Linked, IsStep;
    StepParts(cfg, s, k, choice, r);
    PopTraffic(cfg, rows, s, k);
    HandleTraffic(cfg, rows, Popped(cfg, s, k), s.heap[k].kind, choice);
    PopTimely(cfg, rows, s, k);
    PoppedFresh(cfg, rows, s, k);
    HandleTimely(cfg, rows, Popped(cfg, s, k), s.heap[k].kind, choice);
  }

  lemma PoppedFresh(cfg: Config, rows: seq<Row>, s: State, k: nat)
    requires GoodConfig(cfg) && Linked(cfg, s) && k in s.heap
    requires TrafficWithout(rows, Popped(cfg, s, k), s.heap[k].kind)
    ensures Fresh(Popped(cfg, s, k))
  {
  }

  // ------------------------------------------------------------------
  // The start
  // ------------------------------------------------------------------

  lemma {:induction false} PushArrivalsTraffic(s: State, rows: seq<Row>)
    requires s.heap == map[] && s.lastSeq == 0
    ensures var r := PushArrivals(s, rows);
            && Fresh(r) && r.lastSeq == |rows|
            && |ArrivalsIn(r.heap)| == |rows| && RoutedIn(r.heap) == {}
            && (forall k :: k in r.heap ==> exists i :: 0 <= i < |rows| && r.heap[k].time == rows[i].time)
    decreases |rows|
  {
    var r := PushArrivals(s, rows);
    if rows == [] {
      assert ArrivalsIn(r.heap) == {};
    } else {
      var n := |rows| - 1;
      PushArrivalsTraffic(s, rows[..n]);
      var m := PushArrivals(s, rows[..n]);
      assert m.lastSeq + 1 !in m.heap;
      assert ArrivalsIn(r.heap) == ArrivalsIn(m.heap) + {m.lastSeq + 1};
      assert RoutedIn(r.heap) == RoutedIn(m.heap);
      forall k | k in r.heap ensures exists i :: 0 <= i < |rows| && r.heap[k].time == rows[i].time {
        if k in m.heap {
          var i :| 0 <= i < n && m.heap[k].time == rows[..n][i].time;
          assert rows[i] == rows[..n][i];
        } else {
          assert r.heap[k].time == rows[n].time;
        }
      }
    }
  }

  lemma {:induction false} BootAllWorks(cfg: Config, s: State, selected: seq<int>)
    requires forall i :: 0 <= i < |selected| ==> selected[i] in s.servers
    ensures Works(cfg, s, BootAll(cfg, s, selected))
    decreases |selected|
  {
    hide Works, StartBoot;
    if selected == [] {
      IdleWorks(cfg, s, s);
    } else {
      var n := |selected| - 1;
      BootAllWorks(cfg, s, selected[..n]);
      StartBootWorks(cfg, BootAll(cfg, s, selected[..n]), selected[n], false);
      WorksTrans(cfg, s, BootAll(cfg, s, selected[..n]), BootAll(cfg, s, selected));
    }
  }

  lemma {:induction false} HomeAllWorks(cfg: Config, s: State, homes: seq<Slot>)
    requires GoodConfig(cfg) && Linked(cfg, s) && HomesInBounds(cfg, homes)
    ensures Works(cfg, s, HomeAll(cfg, s, homes))
    decreases |homes|
  {
    hide Works, Place, GoodConfig, Linked;
    if homes == [] {
      IdleWorks(cfg, s, s);
    } else {
      var n := |homes| - 1;
      var m := HomeAll(cfg, s, homes[..n]);
      HomeAllWorks(cfg, s, homes[..n]);
      KnownServer(cfg, m, homes, n);
      PlaceWorks(cfg, m, homes[n].server, homes[n].service);
      WorksTrans(cfg, s, m, HomeAll(cfg, s, homes));
    }
  }

  /** After the arrivals are pushed, `prime` is lifecycle work. */
  lemma PrimeWorks(cfg: Config, rows: seq<Row>, selected: seq<int>, homes: seq<Slot>)
    requires GoodStart(cfg, rows, selected, homes)
    ensures SameTraffic(PushArrivals(Blank(cfg, rows), rows), Prime(cfg, rows, selected, homes))
  {
    hide BootAll, HomeAll, Works, PushArrivals, Fresh;
    var s1 := PushArrivals(Blank(cfg, rows), rows);
    PushArrivalsFrame(Blank(cfg, rows), rows);
    BootAllLinked(cfg, s1, selected);
    var s2 := BootAll(cfg, s1, selected);
    var s3 := HomeAll(cfg, s2, homes);
    BootAllWorks(cfg, s1, selected);
    HomeAllWorks(cfg, s2, homes);
    PushWorks(cfg, s3, EarliestTime(rows), DecisionTick);
    WorksTrans(cfg, s1, s2, s3);
    WorksTrans(cfg, s1, s3, Prime(cfg, rows, selected, homes));
    WorksTraffic(cfg, s1, Prime(cfg, rows, selected, homes));
  }

  lemma PrimeTraffic(cfg: Config, rows: seq<Row>, selected: seq<int>, homes: seq<Slot>)
    requires GoodStart(cfg, rows, selected, homes)
    ensures TrafficOk(rows, Prime(cfg, rows, selected, homes)) && Timely(cfg, rows, Prime(cfg, rows, selected, homes))
  {
    hide Prime, PushArrivals, Fresh;
    var s0 := Blank(cfg, rows);
    var s1 := PushArrivals(s0, rows);
    PushArrivalsFrame(s0, rows);
    PushArrivalsTraffic(s0, rows);
    assert TrafficOk(rows, s1);
    LatestIsLatest(rows);
    assert Timely(cfg, rows, s1);
    PrimeWorks(cfg, rows, selected, homes);
    SameTrafficKeeps(rows, s1, Prime(cfg, rows, selected, homes));
    SameTrafficTimely(cfg, rows, s1, Prime(cfg, rows, selected, homes));
  }

  lemma WorksTraffic(cfg: Config, s: State, r: State)
    requires Works(cfg, s, r)
    ensures SameTraffic(s, r)
  {
  }

  // ------------------------------------------------------------------
  // Whole runs
  // ------------------------------------------------------------------

  /** In every state of every run: rows are still to come, on their way, or
      finalised, and the metrics are the tallies of the finalised ones. */
  lemma {:induction false} RequestsAreConserved(cfg: Config, rows: seq<Row>, selected: seq<int>, homes: seq<Slot>,
                                                states: seq<State>, moves: seq<Move>, i: nat)
    requires IsHistory(cfg, rows, selected, homes, states, moves) && i < |states|
    ensures TrafficOk(rows, states[i]) && Timely(cfg, rows, states[i])
  {
    hide Prime, IsStep, TrafficOk, Timely, GoodStart;
    if i == 0 {
      PrimeTraffic(cfg, rows, selected, homes);
    } else {
      RequestsAreConserved(cfg, rows, selected, homes, states, moves, i - 1);
      StepTraffic(cfg, rows, states[i - 1], moves[i - 1].event, moves[i - 1].choice, states[i]);
    }
  }

  /** The loop stops: every event left is beyond the cutoff. */
  ghost predicate IsFinal(s: State) {
    forall k :: k in s.heap ==> s.cutoff < s.heap[k].time
  }

  /** The cutoff exceeds any possible routing delay. */
  ghost predicate RoutingFits(cfg: Config) {
    forall at :: RoutingDelay(cfg, at) <= CutoffSlack(cfg)
  }

  lemma NothingLeft(cfg: Config, rows: seq<Row>, s: State)
    requires Timely(cfg, rows, s) && IsFinal(s) && CutoffSlack(cfg) >= 0.0
    ensures ArrivalsIn(s.heap) == {}
    ensures RoutingFits(cfg) ==> RoutedIn(s.heap) == {}
  {
    hide RoutingDelay, CutoffSlack;
    forall k | k in s.heap && RoutingFits(cfg) ensures !s.heap[k].kind.Routed? {
      assert s.heap[k].kind.Routed? ==> RoutingDelay(cfg, s.heap[k].kind.req.at) <= CutoffSlack(cfg);
    }
  }

  /** At the end of a run every row has arrived; every request is finalised if
      and only if none is still on its way, as is always so when the cutoff
      exceeds any routing delay; and each is counted once. */
  lemma EndOfRun(cfg: Config, rows: seq<Row>, selected: seq<int>, homes: seq<Slot>,
                 states: seq<State>, moves: seq<Move>)
    requires IsHistory(cfg, rows, selected, homes, states, moves) && IsFinal(states[|states| - 1])
    ensures var s := states[|states| - 1];
            && s.arrived == |rows|
            && (|s.log| == |rows| <==> RoutedIn(s.heap) == {})
            && (RoutingFits(cfg) ==> s.metrics.total == |rows|)
            && s.metrics.total == |s.log| == s.metrics.completed + s.metrics.queueFull + s.metrics.noReplica
            && s.metrics.violations == Count(s.log, IsViolation)
  {
    assert CutoffSlack(cfg) >= 0.0;
    hide Prime, IsStep, Timely, IsFinal, RoutingFits, RoutingDelay, CutoffSlack;
    var s := states[|states| - 1];
    RequestsAreConserved(cfg, rows, selected, homes, states, moves, |states| - 1);
    NothingLeft(cfg, rows, s);
    OutcomesPartition(s.log);
  }

  /** Violations are the rejections plus the late completions. */
  lemma {:induction false} ViolationsAreRejectionsAndLate(log: seq<Outcome>)
    ensures Count(log, IsViolation)
            == Count(log, IsQueueFull) + Count(log, IsNoReplica) + Count(log, (o: Outcome) => o.Completed? && o.late)
  {
    if log != [] {
      ViolationsAreRejectionsAndLate(log[..|log| - 1]);
    }
  }
}
