/** What a response time is: in every run, the time from the arrival of the request's
    row to the end of its job, plus the network there and back. */
module EngineResponse {
  import opened Settings
  import opened ReplicaQueues
  import opened EngineModel
  import opened EngineInvariants
  import opened EngineClock
  import opened EngineHandlers
  import opened EngineDrain
  import opened EngineRuns
  import opened EnginePrime
  import opened EngineLedger
  import opened EngineAccounts
  import opened EngineTraffic
  import opened EngineLifecycle
  import opened EngineService
  import opened EngineFrames
  import opened EngineDecisions
  import opened EngineReplicas

  // ------------------------------------------------------------------
  // From the rows to the dispatcher
  // ------------------------------------------------------------------

  /** Event k of the heap is the arrival of the k-th row. */
  predicate IsRowAt(rows: seq<Row>, heap: map<nat, Event>, k: nat)
    requires k in heap
  {
    1 <= k <= |rows| && heap[k] == Event(rows[k - 1].time, Arrival(rows[k - 1].at, rows[k - 1].service))
  }

  predicate ArrivalsAreRows(rows: seq<Row>, heap: map<nat, Event>) {
    forall k :: k in heap && heap[k].kind.Arrival? ==> IsRowAt(rows, heap, k)
  }

  /** Step j handles the arrival of the m-th row, and the request made then reaches the
      dispatcher by this event: the round trip to it after the row's time. */
  ghost predicate SentBy(cfg: Config, rows: seq<Row>, states: seq<State>, moves: seq<Move>, j: int, m: int, ev: Event) {
    && 0 <= j < |moves| && j < |states| && 1 <= m <= |rows| && moves[j].event == m
    && m in states[j].heap && IsRowAt(rows, states[j].heap, m)
    && ev.kind.Routed?
    && var row, req := rows[m - 1], ev.kind.req;
       && req.id == states[j].arrived + 1 && req.service == row.service && req.at == row.at
       && req.routing
          == 2.0 * (cfg.baseMs + cfg.perKmMs * cfg.distance(row.at, cfg.dispatcher) + cfg.overheadMs) / 1000.0
       && ev.time == row.time + req.routing
  }

  ghost predicate WasSent(cfg: Config, rows: seq<Row>, states: seq<State>, moves: seq<Move>, i: int, ev: Event) {
    exists j, m :: j < i && SentBy(cfg, rows, states, moves, j, m, ev)
  }

  /** Every request under way was sent in an earlier step. */
  ghost predicate RoutedWereSent(cfg: Config, rows: seq<Row>, states: seq<State>, moves: seq<Move>, i: nat)
    requires i < |states|
  {
    forall k :: k in states[i].heap && states[i].heap[k].kind.Routed? ==>
      WasSent(cfg, rows, states, moves, i, states[i].heap[k])
  }

  lemma {:induction false} PushedRows(s: State, rows: seq<Row>)
    requires s.heap == map[] && s.lastSeq == 0
    ensures var r := PushArrivals(s, rows);
            && r.lastSeq == |rows| && Fresh(r)
            && (forall k :: k in r.heap ==> r.heap[k].kind.Arrival?) && ArrivalsAreRows(rows, r.heap)
    decreases |rows|
  {
    if rows != [] {
      var n := |rows| - 1;
      PushedRows(s, rows[..n]);
      var m, r := PushArrivals(s, rows[..n]), PushArrivals(s, rows);
      forall k | k in r.heap ensures r.heap[k].kind.Arrival? && IsRowAt(rows, r.heap, k) {
        if k in m.heap {
          assert IsRowAt(rows[..n], m.heap, k);
        }
      }
    }
  }

  /** The same requests on their way. */
  lemma SameTrafficEvents(s: State, r: State, k: nat)
    requires SameTraffic(s, r) && Fresh(s) && k in r.heap && IsTraffic(r.heap[k].kind)
    ensures k in s.heap && s.heap[k] == r.heap[k]
  {
    assert k in Traffic(r.heap);
    assert k in Traffic(s.heap) && Traffic(s.heap)[k] == s.heap[k] && Traffic(r.heap)[k] == r.heap[k];
  }

  lemma PrimeRows(cfg: Config, rows: seq<Row>, selected: seq<int>, homes: seq<Slot>)
    requires GoodStart(cfg, rows, selected, homes)
    ensures var s := Prime(cfg, rows, selected, homes);
            && ArrivalsAreRows(rows, s.heap) && (forall k :: k in s.heap ==> !s.heap[k].kind.Routed?)
            && s.log == [] && s.arrived == 0
  {
    hide Prime, PushArrivals, SameTraffic, Fresh;
    var s0 := Blank(cfg, rows);
    var s1, s := PushArrivals(s0, rows), Prime(cfg, rows, selected, homes);
    PushArrivalsFrame(s0, rows);
    PushedRows(s0, rows);
    PrimeWorks(cfg, rows, selected, homes);
    TrafficLog(s1, s);
    forall k | k in s.heap && IsTraffic(s.heap[k].kind)
      ensures s.heap[k].kind.Arrival? && IsRowAt(rows, s.heap, k)
    {
      SameTrafficEvents(s1, s, k);
      assert IsRowAt(rows, s1.heap, k);
    }
  }

  lemma TrafficLog(s: State, r: State)
    requires SameTraffic(s, r)
    ensures r.log == s.log && r.arrived == s.arrived
  {
  }

  // ------------------------------------------------------------------
  // One step
  // ------------------------------------------------------------------

  /** Where the requests under way after a step come from: none but that of an arrival
      handled now is new, and only routing adds to the log. */
  ghost predicate RequestStep(cfg: Config, s: State, k: nat, r: State)
    requires k in s.heap
  {
    && (forall j :: j in r.heap && r.heap[j].kind.Arrival? ==> j in s.heap && s.heap[j] == r.heap[j])
    && (forall j :: j in r.heap && r.heap[j].kind.Routed? ==>
          || (j in s.heap && s.heap[j] == r.heap[j])
          || (s.heap[k].kind.Arrival? && RequestOf(cfg, s, s.heap[k], r.heap[j])))
    && (if s.heap[k].kind.Routed? then |r.log| == |s.log| + 1 && r.log[..|s.log|] == s.log else r.log == s.log)
  }

  /** The event by which the request of this arrival reaches the dispatcher. */
  ghost predicate RequestOf(cfg: Config, s: State, arrival: Event, ev: Event)
    requires arrival.kind.Arrival?
  {
    && ev.kind.Routed?
    && var at, req := arrival.kind.at, ev.kind.req;
       && req.id == s.arrived + 1 && req.service == arrival.kind.service && req.at == at
       && req.routing == 2.0 * (cfg.baseMs + cfg.perKmMs * cfg.distance(at, cfg.dispatcher) + cfg.overheadMs) / 1000.0
       && ev.time == arrival.time + req.routing
  }

  lemma ArrivalRequests(cfg: Config, s: State, p: State, k: nat)
    requires k in s.heap && s.heap[k].kind.Arrival? && p.heap == s.heap - {k} && p.arrived == s.arrived
    requires p.now == s.heap[k].time && p.log == s.log
    ensures RequestStep(cfg, s, k, HandleArrival(cfg, p, s.heap[k].kind.at, s.heap[k].kind.service))
  {
  }

  lemma RoutedRequests(cfg: Config, s: State, p: State, k: nat, r: State)
    requires k in s.heap && s.heap[k].kind.Routed? && p.heap == s.heap - {k} && p.log == s.log
    requires RoutedChange(p, r)
    ensures RequestStep(cfg, s, k, r)
  {
    hide RecordRequest, RequestOf;
  }

  lemma OtherRequests(cfg: Config, s: State, p: State, k: nat, r: State)
    requires k in s.heap && !IsTraffic(s.heap[k].kind) && p.heap == s.heap - {k} && p.log == s.log
    requires SameTraffic(p, r) && Fresh(p)
    ensures RequestStep(cfg, s, k, r)
  {
    hide RequestOf, SameTraffic, Fresh;
    TrafficLog(p, r);
    forall j | j in r.heap && IsTraffic(r.heap[j].kind) ensures j in s.heap && s.heap[j] == r.heap[j] {
      SameTrafficEvents(p, r, j);
    }
  }

  lemma StepRequests(cfg: Config, s: State, tau: real, k: nat, choice: Choice, r: State)
    requires Core(cfg, s, tau, {}) && CoverOk(s) && IsStep(cfg, s, k, choice, r)
    ensures k in s.heap && RequestStep(cfg, s, k, r)
  {
    hide Core, CoverOk, IsStep, Popped, GoodConfig, Linked, ChoiceLinked, Handle, IsMin, WasLegitimate, RequestStep,
      SameTraffic, Fresh, HandleArrival, HandleRouted;
    StepParts(cfg, s, k, choice, r);
    PoppedKeeps(cfg, s, tau, k);
    var p, kind := Popped(cfg, s, k), s.heap[k].kind;
    PoppedSteady(cfg, s, k);
    CoreFresh(cfg, p, tau, {kind});
    match kind
    case Arrival(at, svc) =>
      ArrivalRequests(cfg, s, p, k);
      ArrivalDispatch(cfg, p, kind, choice);
    case Routed(req) =>
      RoutedServers(cfg, p, req, choice);
      RoutedIsChange(cfg, p, req, choice.selected);
      RoutedDispatch(cfg, p, req, choice);
      RoutedRequests(cfg, s, p, k, r);
    case _ =>
      OthersTraffic(cfg, p, kind, choice);
      OtherRequests(cfg, s, p, k, r);
  }

  lemma ArrivalDispatch(cfg: Config, p: State, kind: Kind, choice: Choice)
    requires GoodConfig(cfg) && Linked(cfg, p) && KindLinked(cfg, kind) && ChoiceLinked(cfg, p, choice)
    requires kind.Arrival?
    ensures Handle(cfg, p, kind, choice) == HandleArrival(cfg, p, kind.at, kind.service)
  {
    hide GoodConfig, Linked, ChoiceLinked, HandleArrival;
  }

  lemma RoutedDispatch(cfg: Config, p: State, req: Request, choice: Choice)
    requires GoodConfig(cfg) && Linked(cfg, p) && KindLinked(cfg, Routed(req)) && ChoiceLinked(cfg, p, choice)
    requires choice.selected.Some? ==> choice.selected.value < |p.objects|
    requires choice.selected.Some? ==> p.objects[choice.selected.value].server in cfg.servers
    requires choice.selected.Some? ==> p.objects[choice.selected.value].service in cfg.services
    ensures req.service in cfg.services
    ensures Handle(cfg, p, Routed(req), choice) == HandleRouted(cfg, p, req, choice.selected)
  {
    hide GoodConfig, Linked, ChoiceLinked, HandleRouted;
  }

  // ------------------------------------------------------------------
  // The requests under way, in every run
  // ------------------------------------------------------------------

  lemma {:induction false} RequestsAreSent(cfg: Config, rows: seq<Row>, selected: seq<int>, homes: seq<Slot>,
                                           states: seq<State>, moves: seq<Move>, i: nat)
    requires IsHistory(cfg, rows, selected, homes, states, moves) && i < |states|
    ensures ArrivalsAreRows(rows, states[i].heap) && RoutedWereSent(cfg, rows, states, moves, i)
  {
    hide IsRun, IsStep, Prime, Core, CoverOk, GoodConfig, ArrivalsAreRows, RoutedWereSent, RequestStep;
    if i == 0 {
      PrimeRows(cfg, rows, selected, homes);
      NothingSentYet(cfg, rows, states, moves);
    } else {
      RequestsAreSent(cfg, rows, selected, homes, states, moves, i - 1);
      HistoryLength(cfg, rows, selected, homes, states, moves);
      HistoryStep(cfg, rows, selected, homes, states, moves, i - 1);
      InvAlways(cfg, rows, selected, homes, states, moves, i - 1);
      var tau :| Core(cfg, states[i - 1], tau, {});
      StepRequests(cfg, states[i - 1], tau, moves[i - 1].event, moves[i - 1].choice, states[i]);
      SentStep(cfg, rows, states, moves, i);
    }
  }

  lemma NothingSentYet(cfg: Config, rows: seq<Row>, states: seq<State>, moves: seq<Move>)
    requires |states| > 0 && forall k :: k in states[0].heap ==> !states[0].heap[k].kind.Routed?
    ensures RoutedWereSent(cfg, rows, states, moves, 0)
  {
    hide WasSent;
  }

  lemma SentStep(cfg: Config, rows: seq<Row>, states: seq<State>, moves: seq<Move>, i: nat)
    requires 0 < i < |states| && i - 1 < |moves| && moves[i - 1].event in states[i - 1].heap
    requires ArrivalsAreRows(rows, states[i - 1].heap) && RoutedWereSent(cfg, rows, states, moves, i - 1)
    requires RequestStep(cfg, states[i - 1], moves[i - 1].event, states[i])
    ensures ArrivalsAreRows(rows, states[i].heap) && RoutedWereSent(cfg, rows, states, moves, i)
  {
    hide SentBy, RequestOf;
    var s, r, k := states[i - 1], states[i], moves[i - 1].event;
    forall j | j in r.heap && r.heap[j].kind.Arrival? ensures IsRowAt(rows, r.heap, j) {
      assert IsRowAt(rows, s.heap, j);
    }
    forall j | j in r.heap && r.heap[j].kind.Routed? ensures WasSent(cfg, rows, states, moves, i, r.heap[j]) {
      if j in s.heap && s.heap[j] == r.heap[j] {
        var a, m :| a < i - 1 && SentBy(cfg, rows, states, moves, a, m, s.heap[j]);
        assert SentBy(cfg, rows, states, moves, a, m, r.heap[j]);
      } else {
        SentNow(cfg, rows, states, moves, i - 1, r.heap[j]);
      }
    }
  }

  lemma SentNow(cfg: Config, rows: seq<Row>, states: seq<State>, moves: seq<Move>, j: nat, ev: Event)
    requires j < |states| && j < |moves| && moves[j].event in states[j].heap
    requires ArrivalsAreRows(rows, states[j].heap) && states[j].heap[moves[j].event].kind.Arrival?
    requires RequestOf(cfg, states[j], states[j].heap[moves[j].event], ev)
    ensures SentBy(cfg, rows, states, moves, j, moves[j].event, ev)
  {
    assert IsRowAt(rows, states[j].heap, moves[j].event);
  }

  // ------------------------------------------------------------------
  // From the dispatcher to the end of the job
  // ------------------------------------------------------------------

  /** The surcharge of a job that a replica accepts at this age: for the first three
      executions, and at most ten seconds, the least of a fifth of the deadline, half
      an execution and half a second; after that none. */
  predicate IsPenalty(deadline: real, exec: real, age: real, extra: real) {
    if age <= 3.0 * exec && age <= 10.0 then
      && 5.0 * extra <= deadline && 2.0 * extra <= exec && extra <= 0.5
      && (5.0 * extra == deadline || 2.0 * extra == exec || extra == 0.5)
    else extra == 0.0
  }

  /** Replica o runs the job that request `req`, routed in this step, is: after what it
      accepted before, for one execution and the surcharge. */
  ghost predicate RunsJob(cfg: Config, s: State, r: State, req: Request, o: nat, extra: real, finish: real) {
    && o < |s.objects| && o < |r.objects| && req.service in cfg.services
    && var a := s.objects[o];
       && a.service == req.service && a.phase == Ready && a.readySince.Some?
       && IsPenalty(cfg.services[req.service].deadline, a.queue.exec, r.now - a.readySince.value, extra)
       && finish == (if a.queue.availableAt <= r.now then r.now else a.queue.availableAt) + a.queue.exec + extra
       && r.objects[o].queue.availableAt == finish
       && r.lastSeq == s.lastSeq + 1 && r.lastSeq in r.heap && r.heap[r.lastSeq] == Event(finish, EnergyResync)
  }

  /** The outcome: the rest of the routing, the job and the network there and back,
      and whether that is more than the deadline. */
  ghost predicate IsOutcome(cfg: Config, s: State, now: real, req: Request, o: nat, finish: real, outcome: Outcome) {
    && o < |s.objects| && s.objects[o].server in cfg.servers && req.service in cfg.services
    && var km := cfg.distance(req.at, cfg.servers[s.objects[o].server].site);
       && outcome.Completed? && outcome.req == req
       && outcome.response == req.routing + (finish - now) + 2.0 * (cfg.baseMs + cfg.perKmMs * km) / 1000.0
       && (outcome.late <==> outcome.response > cfg.services[req.service].deadline)
  }

  lemma ExtraIsPenalty(cfg: Config, r: Replica, now: real)
    requires r.service in cfg.services && r.readySince.Some?
    ensures IsPenalty(cfg.services[r.service].deadline, r.queue.exec, now - r.readySince.value,
                      ColdStartExtra(cfg, r, now))
  {
    hide ColdStartWindow, ColdStartPenalty;
    ColdStartBounds(cfg.services[r.service].deadline, r.queue.exec, now - r.readySince.value);
  }

  lemma RoutedOutcome(cfg: Config, p: State, req: Request, o: nat)
    returns (extra: real, finish: real)
    requires o < |p.objects| && p.objects[o].server in cfg.servers && p.objects[o].service in cfg.services
    requires req.service in cfg.services && p.objects[o].service == req.service
    requires p.objects[o].phase == Ready && p.objects[o].readySince.Some?
    requires var r := HandleRouted(cfg, p, req, Some(o)); |r.log| > 0 && r.log[|r.log| - 1].Completed?
    ensures var r := HandleRouted(cfg, p, req, Some(o));
            && r.now == p.now && RunsJob(cfg, p, r, req, o, extra, finish)
            && IsOutcome(cfg, p, p.now, req, o, finish, r.log[|r.log| - 1])
  {
    hide Pending, ColdStartExtra, RecordRequest, IsPenalty;
    var a := p.objects[o];
    extra := ColdStartExtra(cfg, a, p.now);
    ExtraIsPenalty(cfg, a, p.now);
    finish := Later(p.now, a.queue.availableAt) + (a.queue.exec + extra);
  }

  /** A completed request was routed to a READY replica of its service. */
  lemma CompletedWasAccepted(cfg: Config, p: State, req: Request, choice: Choice)
    requires GoodConfig(cfg) && Linked(cfg, p) && KindLinked(cfg, Routed(req)) && ChoiceOk(cfg, p, Routed(req), choice)
    requires SlotsOk(p) && IndexOk(p) && |Handle(cfg, p, Routed(req), choice).log| == |p.log| + 1
    requires Handle(cfg, p, Routed(req), choice).log[|p.log|].Completed?
    ensures choice.selected.Some?
    ensures var o := choice.selected.value;
            && o < |p.objects| && p.objects[o].server in cfg.servers && p.objects[o].service in cfg.services
            && p.objects[o].service == req.service && p.objects[o].phase == Ready && req.service in cfg.services
            && Handle(cfg, p, Routed(req), choice) == HandleRouted(cfg, p, req, choice.selected)
  {
    hide RecordRequest, Admit, NetworkDelayMs, ColdStartExtra, ResponseTime, HasRoom;
    match choice.selected
    case None =>
    case Some(o) =>
      assert Candidate(p, req.service, o) && ListedOk(p, req.service, o);
      assert ObjectLinked(cfg, p.objects[o]);
  }

  lemma CoreSlots(cfg: Config, s: State, tau: real, handled: set<Kind>)
    requires Core(cfg, s, tau, handled)
    ensures SlotsOk(s) && IndexOk(s)
  {
  }

  /** The step in which a completed request is routed. */
  lemma StepOutcome(cfg: Config, s: State, tau: real, k: nat, choice: Choice, r: State)
    returns (o: nat, extra: real, finish: real)
    requires Core(cfg, s, tau, {}) && CoverOk(s) && IsStep(cfg, s, k, choice, r) && k in s.heap
    requires s.heap[k].kind.Routed? && |r.log| == |s.log| + 1 && r.log[|s.log|].Completed?
    requires forall x :: 0 <= x < |s.objects| && s.objects[x].phase == Ready ==> s.objects[x].readySince.Some?
    ensures r.now == s.heap[k].time
    ensures RunsJob(cfg, s, r, s.heap[k].kind.req, o, extra, finish)
    ensures IsOutcome(cfg, s, r.now, s.heap[k].kind.req, o, finish, r.log[|s.log|])
  {
    hide Core, CoverOk, IsStep, Popped, GoodConfig, Linked, ChoiceLinked, Handle, IsMin, WasLegitimate, HandleRouted,
      SlotsOk, IndexOk, RunsJob, IsOutcome, ChoiceOk;
    StepParts(cfg, s, k, choice, r);
    PoppedKeeps(cfg, s, tau, k);
    var p, req := Popped(cfg, s, k), s.heap[k].kind.req;
    PoppedSteady(cfg, s, k);
    CoreSlots(cfg, p, tau, {s.heap[k].kind});
    StepChoice(cfg, s, k, choice, r);
    CompletedWasAccepted(cfg, p, req, choice);
    o := choice.selected.value;
    assert choice.selected == Some(o);
    extra, finish := RoutedOutcome(cfg, p, req, o);
    JobOfPopped(cfg, s, p, r, req, o, extra, finish);
  }

  lemma JobOfPopped(cfg: Config, s: State, p: State, r: State, req: Request, o: nat, extra: real, finish: real)
    requires p.objects == s.objects && p.lastSeq == s.lastSeq && RunsJob(cfg, p, r, req, o, extra, finish)
    requires |r.log| == |s.log| + 1 && IsOutcome(cfg, p, p.now, req, o, finish, r.log[|r.log| - 1])
    ensures RunsJob(cfg, s, r, req, o, extra, finish)
    ensures IsOutcome(cfg, s, p.now, req, o, finish, r.log[|s.log|])
  {
    hide IsPenalty;
  }

  /** The service of a completed request: row m arrives in step j, is routed in step h
      to replica o, READY since an earlier step, and its job ends at `finish`. */
  datatype Story = Story(m: nat, j: nat, h: nat, o: nat, extra: real, finish: real)

  ghost predicate Tells(cfg: Config, rows: seq<Row>, states: seq<State>, moves: seq<Move>, i: nat, outcome: Outcome,
                        t: Story) {
    && t.j < t.h < i && t.h + 1 < |states| && t.h < |moves| && moves[t.h].event in states[t.h].heap
    && 1 <= t.m <= |rows| && rows[t.m - 1].service in cfg.services
    && t.o < |states[t.h].objects| && states[t.h].objects[t.o].server in cfg.servers
    && var row, routed, r := rows[t.m - 1], states[t.h].heap[moves[t.h].event], states[t.h].objects[t.o];
       var km := cfg.distance(row.at, cfg.servers[r.server].site);
       && SentBy(cfg, rows, states, moves, t.j, t.m, routed)
       && RunsJob(cfg, states[t.h], states[t.h + 1], routed.kind.req, t.o, t.extra, t.finish)
       && (exists b :: b < t.h && BecameReady(states, b, t.o, r.readySince.value))
       && outcome.Completed? && outcome.req == routed.kind.req
       && outcome.response == t.finish - row.time + 2.0 * (cfg.baseMs + cfg.perKmMs * km) / 1000.0
       && (outcome.late <==> outcome.response > cfg.services[row.service].deadline)
  }

  lemma NewStory(cfg: Config, rows: seq<Row>, selected: seq<int>, homes: seq<Slot>,
                 states: seq<State>, moves: seq<Move>, h: nat)
    returns (t: Story)
    requires IsHistory(cfg, rows, selected, homes, states, moves) && h < |moves| && |states| == |moves| + 1
    requires moves[h].event in states[h].heap && states[h].heap[moves[h].event].kind.Routed?
    requires |states[h + 1].log| == |states[h].log| + 1 && states[h + 1].log[|states[h].log|].Completed?
    ensures Tells(cfg, rows, states, moves, h + 1, states[h + 1].log[|states[h].log|], t)
  {
    hide IsRun, IsStep, Prime, Core, CoverOk, GoodConfig, IsPenalty, BecameReady, SentBy;
    var s, r, k := states[h], states[h + 1], moves[h].event;
    HistoryStep(cfg, rows, selected, homes, states, moves, h);
    InvAlways(cfg, rows, selected, homes, states, moves, h);
    var tau :| Core(cfg, s, tau, {});
    forall x | 0 <= x < |s.objects| && s.objects[x].phase == Ready ensures s.objects[x].readySince.Some? {
      LifeAlways(cfg, rows, selected, homes, states, moves, h, x);
    }
    var o, extra, finish := StepOutcome(cfg, s, tau, k, moves[h].choice, r);
    LifeAlways(cfg, rows, selected, homes, states, moves, h, o);
    RequestsAreSent(cfg, rows, selected, homes, states, moves, h);
    assert WasSent(cfg, rows, states, moves, h, s.heap[k]);
    var j, m :| j < h && SentBy(cfg, rows, states, moves, j, m, s.heap[k]);
    SentFacts(cfg, rows, states, moves, j, m, s.heap[k]);
    t := Story(m, j, h, o, extra, finish);
  }

  lemma SentFacts(cfg: Config, rows: seq<Row>, states: seq<State>, moves: seq<Move>, j: int, m: int, ev: Event)
    requires SentBy(cfg, rows, states, moves, j, m, ev)
    ensures 0 <= j && 1 <= m <= |rows| && ev.kind.Routed?
    ensures ev.kind.req.service == rows[m - 1].service && ev.kind.req.at == rows[m - 1].at
    ensures ev.time == rows[m - 1].time + ev.kind.req.routing
  {
  }

  /** In every run, the response time of every completed request is the end of its job
      less the time of its row, plus the network there and back; it is late exactly if
      that exceeds the deadline of its service. */
  lemma {:induction false} ResponseIsFromArrivalToFinish(cfg: Config, rows: seq<Row>, selected: seq<int>,
                                                         homes: seq<Slot>, states: seq<State>, moves: seq<Move>,
                                                         i: nat, l: nat)
    returns (t: Story)
    requires IsHistory(cfg, rows, selected, homes, states, moves) && i < |states|
    requires l < |states[i].log| && states[i].log[l].Completed?
    ensures Tells(cfg, rows, states, moves, i, states[i].log[l], t)
    decreases i
  {
    hide IsRun, IsStep, Prime, Core, CoverOk, GoodConfig, Tells;
    if i == 0 {
      PrimeRows(cfg, rows, selected, homes);
      assert false;
    } else {
      HistoryLength(cfg, rows, selected, homes, states, moves);
      HistoryStep(cfg, rows, selected, homes, states, moves, i - 1);
      InvAlways(cfg, rows, selected, homes, states, moves, i - 1);
      var tau :| Core(cfg, states[i - 1], tau, {});
      StepRequests(cfg, states[i - 1], tau, moves[i - 1].event, moves[i - 1].choice, states[i]);
      if l < |states[i - 1].log| {
        assert states[i].log[l] == states[i - 1].log[l];
        t := ResponseIsFromArrivalToFinish(cfg, rows, selected, homes, states, moves, i - 1, l);
        ToldLater(cfg, rows, states, moves, i - 1, states[i].log[l], t);
      } else {
        t := NewStory(cfg, rows, selected, homes, states, moves, i - 1);
      }
    }
  }

  lemma ToldLater(cfg: Config, rows: seq<Row>, states: seq<State>, moves: seq<Move>, i: nat, outcome: Outcome, t: Story)
    requires Tells(cfg, rows, states, moves, i, outcome, t)
    ensures Tells(cfg, rows, states, moves, i + 1, outcome, t)
  {
    hide SentBy, RunsJob, BecameReady;
  }
}
