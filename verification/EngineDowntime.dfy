/** Zero downtime is not unconditional: a run from `prime`, with the delays, a
    server profile and the heaviest service of common/config.py, in which a READY
    service loses its last replica at a tick. Host 2 was turned off one tick before;
    its copy still works off two jobs, is not READY any more, and yet counts as a
    host, so that turning off host 1 migrates nothing. */
module EngineDowntime {
  import opened Collections
  import opened Settings
  import opened ReplicaQueues
  import opened EngineModel
  import opened EngineInvariants
  import opened EngineClock
  import opened EngineHandlers
  import opened EngineDrain
  import opened EngineRuns
  import opened EnginePrime
  import opened EngineLedger
  import opened EngineLifecycle
  import opened EngineService

  // ------------------------------------------------------------------
  // The tables and the input
  // ------------------------------------------------------------------

  const HOME := Position(31.37, 121.25)
  const CLIENT := Position(31.31, 121.51)
  const THIRD := Position(31.10, 121.18)

  function Medium(site: Position): ServerSpec {
    ServerSpec(site, 33120, 2760.0, 30.0, 130.0)
  }

  /** Three hosts of the medium profile, service 15, places ten kilometres apart. */
  function Table(): Config {
    Config(map[1 := Medium(HOME), 2 := Medium(CLIENT), 3 := Medium(THIRD)],
           map[15 := ServiceSpec(5800, 151000.0, 20, 40.0)], 2760.0, SOURCE_DELAYS,
           2.0, 0.02, 0.3, HOME, 500.0, 20.0, (p, q) => if p == q then 0.0 else 10.0)
  }

  /** One request at the start and two more later, all next to host 2. */
  function Rows(): seq<Row> {
    [Row(0.0, CLIENT, 15), Row(349.0, CLIENT, 15), Row(349.0, CLIENT, 15)]
  }

  /** Seconds one job takes. */
  const EXEC := 151000.0 / 5800.0

  lemma TableIsGood()
    ensures GoodConfig(Table()) && GoodStart(Table(), Rows(), [1, 2, 3], [Slot(1, 15)])
    ensures LatestTime(Rows()) + CutoffSlack(Table()) > 400.0 && EarliestTime(Rows()) == 0.0
    ensures Table().servers.Keys == {1, 2, 3}
  {
    assert LatestTime(Rows()[..1]) == 0.0 && EarliestTime(Rows()[..1]) == 0.0;
    assert Rows()[..2][..1] == Rows()[..1];
    assert LatestTime(Rows()[..2]) == 349.0 && EarliestTime(Rows()[..2]) == 0.0;
  }

  lemma OneJobTakes(sid: int)
    requires sid in Table().servers && GoodServer(Table(), Table().servers[sid]) && GoodService(Table().services[15])
    ensures ExecTime(Table(), sid, 15) == EXEC
  {
  }

  // ------------------------------------------------------------------
  // What a state shows, apart from meters and tallies
  // ------------------------------------------------------------------

  datatype Host = Host(phase: ServerPhase, since: real, hosted: map<int, nat>)

  datatype Scene = Scene(now: real, lastSeq: nat, heap: map<nat, Event>, hosts: map<int, Host>,
                         objects: seq<Replica>, list: seq<nat>, lastScale: real, arrived: nat)

  predicate IsHost(sv: Server, h: Host) {
    sv.phase == h.phase && sv.lastTransition == h.since && sv.hosted == h.hosted && !sv.emergency
  }

  ghost predicate Shows(s: State, f: Scene) {
    && s.now == f.now && s.lastSeq == f.lastSeq && s.heap == f.heap && s.cutoff > 400.0
    && s.servers.Keys == f.hosts.Keys && (forall x :: x in f.hosts ==> IsHost(s.servers[x], f.hosts[x]))
    && s.objects == f.objects && s.byService == map[15 := f.list]
    && s.pending == map[] && s.rescue == map[] && s.lastScale == map[15 := f.lastScale] && s.arrived == f.arrived
  }

  ghost predicate IsStory(states: seq<State>, moves: seq<Move>) {
    IsHistory(Table(), Rows(), [1, 2, 3], [Slot(1, 15)], states, moves)
  }

  /** Some run comes to this scene. */
  ghost predicate Reachable(f: Scene) {
    exists states, moves :: IsStory(states, moves) && Shows(states[|states| - 1], f)
  }

  /** A run that comes to this scene, its last state and the next event. */
  lemma Current(f: Scene, k: nat) returns (states: seq<State>, moves: seq<Move>, s: State, p: State)
    requires Reachable(f) && IsMin(f.heap, k) && f.heap[k].time <= 400.0
    ensures IsStory(states, moves) && states != [] && s == states[|states| - 1] && Shows(s, f)
    ensures GoodConfig(Table()) && Linked(Table(), s) && Linked(Table(), p) && IsMin(s.heap, k)
    ensures s.heap[k] == f.heap[k] && KindLinked(Table(), f.heap[k].kind) && s.heap[k].time <= s.cutoff
    ensures p == Popped(Table(), s, k) && Shows(p, After(f, k))
  {
    hide Core, CoverOk, Table, GoodConfig, Prime, GoodStart, Rows, IsStep;
    states, moves :| IsStory(states, moves) && Shows(states[|states| - 1], f);
    s := states[|states| - 1];
    InvAlways(Table(), Rows(), [1, 2, 3], [Slot(1, 15)], states, moves, |states| - 1);
    var tau :| Core(Table(), s, tau, {});
    CoreParts(Table(), s, tau, {});
    NextIsKnown(s, tau, k);
    p := Popped(Table(), s, k);
    PoppedShows(s, f, k);
  }

  lemma NextIsKnown(s: State, tau: real, k: nat)
    requires Core(Table(), s, tau, {}) && k in s.heap
    ensures KindLinked(Table(), s.heap[k].kind)
  {
    assert EventOk(Table(), s, tau, s.heap[k]);
  }

  /** The event popped and the clock moved. */
  function After(f: Scene, k: nat): Scene
    requires k in f.heap
  {
    f.(now := f.heap[k].time, heap := f.heap - {k})
  }

  lemma PoppedShows(s: State, f: Scene, k: nat)
    requires GoodConfig(Table()) && Linked(Table(), s) && Shows(s, f) && k in f.heap
    ensures Shows(Popped(Table(), s, k), After(f, k)) && Linked(Table(), Popped(Table(), s, k))
  {
    hide GoodConfig, Linked, Metered, Table;
  }

  lemma OneMoreStep(states: seq<State>, moves: seq<Move>, k: nat, choice: Choice, r: State)
    requires IsStory(states, moves) && IsStep(Table(), states[|states| - 1], k, choice, r)
    ensures IsStory(states + [r], moves + [Move(k, choice)])
  {
    hide IsStep, GoodStart, Prime, Table, Rows;
    var more, longer := states + [r], moves + [Move(k, choice)];
    forall i | 0 <= i < |longer| ensures IsStep(Table(), more[i], longer[i].event, longer[i].choice, more[i + 1]) {
    }
  }

  /** One more step of the run, to the next scene. */
  lemma Extended(states: seq<State>, moves: seq<Move>, k: nat, choice: Choice, r: State, g: Scene)
    requires IsStory(states, moves) && IsStep(Table(), states[|states| - 1], k, choice, r) && Shows(r, g)
    ensures Reachable(g)
  {
    hide IsStep, IsStory, Table, Rows;
    OneMoreStep(states, moves, k, choice, r);
    assert (states + [r])[|states + [r]| - 1] == r;
  }

  // ------------------------------------------------------------------
  // How a scene changes with each kind of event
  // ------------------------------------------------------------------

  function Pushed(f: Scene, time: real, kind: Kind): Scene {
    f.(lastSeq := f.lastSeq + 1, heap := f.heap[f.lastSeq + 1 := Event(time, kind)])
  }

  function WithHost(f: Scene, x: int, h: Host): Scene {
    f.(hosts := f.hosts[x := h])
  }

  function Silent(): Choice {
    Choice(None, [], NoProvision, [])
  }

  lemma PassArrival(f: Scene, k: nat)
    requires Reachable(f) && IsMin(f.heap, k) && f.heap[k].time <= 400.0 && f.heap[k].kind == Arrival(CLIENT, 15)
    ensures Reachable(Pushed(After(f, k).(arrived := f.arrived + 1), f.heap[k].time + 0.005,
                             Routed(Request(f.arrived + 1, 15, CLIENT, 0.005))))
  {
    hide GoodConfig, Linked, IsStory, Reachable, Popped;
    var states, moves, s, p := Current(f, k);
    assert RoutingDelay(Table(), CLIENT) == 0.005;
    Extended(states, moves, k, Silent(), Handle(Table(), p, s.heap[k].kind, Silent()),
             Pushed(After(f, k).(arrived := f.arrived + 1), f.heap[k].time + 0.005,
                    Routed(Request(f.arrived + 1, 15, CLIENT, 0.005))));
  }

  lemma PassResync(f: Scene, k: nat)
    requires Reachable(f) && IsMin(f.heap, k) && f.heap[k].time <= 400.0 && f.heap[k].kind == EnergyResync
    ensures Reachable(After(f, k))
  {
    hide GoodConfig, Linked, IsStory, Reachable, Popped;
    var states, moves, s, p := Current(f, k);
    Extended(states, moves, k, Silent(), Handle(Table(), p, s.heap[k].kind, Silent()), After(f, k));
  }

  /** The next tick, if the algorithm's decisions come to scene m. */
  function Ticked(m: Scene): Scene {
    Pushed(m, m.now + 50.0, DecisionTick)
  }

  lemma PassQuietTick(f: Scene, k: nat)
    requires Reachable(f) && IsMin(f.heap, k) && f.heap[k].time <= 400.0 && f.heap[k].kind == DecisionTick
    ensures Reachable(Ticked(After(f, k)))
  {
    hide GoodConfig, Linked, IsStory, Reachable, Popped;
    var states, moves, s, p := Current(f, k);
    Extended(states, moves, k, Silent(), Handle(Table(), p, s.heap[k].kind, Silent()), Ticked(After(f, k)));
  }

  /** No replica is READY yet. */
  lemma PassUnserved(f: Scene, k: nat)
    requires Reachable(f) && IsMin(f.heap, k) && f.heap[k].time <= 400.0
    requires f.heap[k].kind.Routed? && f.heap[k].kind.req.service == 15
    requires forall o :: 0 <= o < |f.objects| ==> f.objects[o].phase != Ready
    ensures Reachable(After(f, k))
  {
    hide GoodConfig, Linked, IsStory, Reachable, Popped;
    var states, moves, s, p := Current(f, k);
    Extended(states, moves, k, Silent(), Handle(Table(), p, s.heap[k].kind, Silent()), After(f, k));
  }

  /** The cold-start penalty is over and there is room: the request is admitted. */
  lemma PassRouted(f: Scene, k: nat, o: nat)
    requires Reachable(f) && IsMin(f.heap, k) && f.heap[k].time <= 400.0
    requires f.heap[k].kind.Routed? && f.heap[k].kind.req.service == 15
    requires o < |f.objects| && o in f.list && f.objects[o].phase == Ready
    requires f.objects[o].readySince.Some? && f.heap[k].time - f.objects[o].readySince.value > 10.0
    requires Occupancy(f.objects[o].queue, f.heap[k].time) < f.objects[o].queue.capacity
    ensures var r := f.objects[o];
            var (queue, admission) := Admit(r.queue, f.heap[k].time, 0.0);
            && admission.Admitted?
            && Reachable(Pushed(After(f, k).(objects := f.objects[o := r.(queue := queue)]), admission.finish,
                                EnergyResync))
  {
    hide GoodConfig, Linked, IsStory, Reachable, Popped, ResponseTime, NetworkDelayMs;
    var states, moves, s, p := Current(f, k);
    var r := f.objects[o];
    assert ObjectLinked(Table(), p.objects[o]) by {
      ObjectsLinked(p, o);
    }
    assert Candidate(p, 15, o) && HasRoom(p, o);
    assert ColdStartExtra(Table(), r, p.now) == 0.0;
    var (queue, admission) := Admit(r.queue, p.now, 0.0);
    var choice := Silent().(selected := Some(o));
    Extended(states, moves, k, choice, Handle(Table(), p, s.heap[k].kind, choice),
             Pushed(After(f, k).(objects := f.objects[o := r.(queue := queue)]), admission.finish, EnergyResync));
  }

  lemma ObjectsLinked(s: State, o: nat)
    requires Linked(Table(), s) && o < |s.objects|
    ensures ObjectLinked(Table(), s.objects[o])
  {
  }

  function Booted(f: Scene, x: int): Scene
    requires x in f.hosts
  {
    WithHost(f, x, f.hosts[x].(phase := Active, since := f.now))
  }

  lemma PassEmptyBoot(f: Scene, k: nat, x: int)
    requires Reachable(f) && IsMin(f.heap, k) && f.heap[k].time <= 400.0 && f.heap[k].kind == BootDone(x)
    requires x in f.hosts && f.hosts[x].hosted == map[]
    ensures Reachable(Booted(After(f, k), x))
  {
    hide GoodConfig, Linked, IsStory, Reachable, Popped;
    var states, moves, s, p := Current(f, k);
    assert Enumerates([], p.servers[x].hosted.Keys);
    Extended(states, moves, k, Silent(), Handle(Table(), p, s.heap[k].kind, Silent()), Booted(After(f, k), x));
  }

  /** The host's only replica is scheduled to become ready. */
  lemma PassBoot(f: Scene, k: nat, x: int, o: nat)
    requires Reachable(f) && IsMin(f.heap, k) && f.heap[k].time <= 400.0 && f.heap[k].kind == BootDone(x)
    requires x in f.hosts && f.hosts[x].hosted == map[15 := o] && o < |f.objects|
    requires f.objects[o].server == x && f.objects[o].service == 15 && f.objects[o].createdAt <= f.heap[k].time
    requires f.objects[o].phase == Starting && f.objects[o].readySince == None
    ensures Reachable(Pushed(Booted(After(f, k), x), f.heap[k].time + 5.0, ReplicaReady(Slot(x, 15), o)))
  {
    hide GoodConfig, Linked, IsStory, Reachable, Popped;
    var states, moves, s, p := Current(f, k);
    assert Enumerates([15], p.servers[x].hosted.Keys);
    var choice := Silent().(order := [15]);
    BootSchedules(p, x, o);
    Extended(states, moves, k, choice, Handle(Table(), p, s.heap[k].kind, choice),
             Pushed(Booted(After(f, k), x), f.heap[k].time + 5.0, ReplicaReady(Slot(x, 15), o)));
  }

  lemma BootSchedules(p: State, x: int, o: nat)
    requires InStore(p, x) && p.servers[x].hosted == map[15 := o] && p.rescue == map[] && o < |p.objects|
    requires p.objects[o].server == x && p.objects[o].service == 15 && p.objects[o].createdAt <= p.now
    requires p.objects[o].phase == Starting && p.objects[o].readySince == None
    ensures HandleBootDone(Table(), p, x, [15])
            == Push(WithServer(p, x, p.servers[x].(phase := Active, lastTransition := p.now)), p.now + 5.0,
                    ReplicaReady(Slot(x, 15), o))
  {
    var s1 := WithServer(p, x, p.servers[x].(phase := Active, lastTransition := p.now));
    assert [15][..0] == [];
    assert ScheduleAll(Table(), s1, x, [15]) == ScheduleReady(Table(), ScheduleAll(Table(), s1, x, []), o);
    assert RescuedBy(p.rescue, x) == {};
    assert p.rescue - {} == p.rescue;
  }

  lemma PassReady(f: Scene, k: nat, x: int, o: nat)
    requires Reachable(f) && IsMin(f.heap, k) && f.heap[k].time <= 400.0
    requires f.heap[k].kind == ReplicaReady(Slot(x, 15), o)
    requires x in f.hosts && f.hosts[x].hosted == map[15 := o] && o < |f.objects| && f.objects[o].phase == Starting
    ensures var ready := f.objects[o].(phase := Ready, readySince := Some(f.heap[k].time));
            Reachable(After(f, k).(objects := f.objects[o := ready]))
  {
    hide GoodConfig, IsStory, Reachable, Popped;
    var ready := f.objects[o].(phase := Ready, readySince := Some(f.heap[k].time));
    var states, moves, s, p := Current(f, k);
    assert forall y :: y in p.servers ==> InStore(p, y);
    Extended(states, moves, k, Silent(), Handle(Table(), p, s.heap[k].kind, Silent()),
             After(f, k).(objects := f.objects[o := ready]));
  }

  /** A replica of service 15 placed on host x. */
  function Placed(x: int, now: real): Replica {
    Replica(x, 15, Starting, now, None, Queue(20, EXEC, 0.0, []))
  }

  lemma PlaceShows(p: State, x: int)
    requires GoodConfig(Table()) && Linked(Table(), p) && x in p.servers && p.servers[x].hosted == map[]
    ensures 15 in Table().services && CanHost(Table(), p, x, 15)
    ensures FreshReplica(Table(), x, 15, p.now) == Placed(x, p.now)
  {
    assert p.servers[x].hosted.Keys == {};
    EffectiveAtMostRaw(Table(), x, 15);
    assert GoodServer(Table(), Table().servers[x]) && GoodService(Table().services[15]);
    OneJobTakes(x);
  }

  function ScaledUp(f: Scene, x: int): (g: Scene)
    requires x in f.hosts
    ensures g.now == f.now
  {
    var g := WithHost(f, x, f.hosts[x].(hosted := map[15 := |f.objects|]))
               .(objects := f.objects + [Placed(x, f.now)], list := f.list + [|f.objects|], lastScale := f.now);
    Pushed(g, f.now + 5.0, ReplicaReady(Slot(x, 15), |f.objects|))
  }

  function UpOn(x: int): Choice {
    Silent().(scaling := [ScaleUp(15, Some(x))])
  }

  lemma ScaleUpShows(p: State, f: Scene, x: int)
    requires GoodConfig(Table()) && Linked(Table(), p) && Linked(Table(), TickStart(p)) && Shows(p, f)
    requires x in f.hosts && f.hosts[x].phase == Active && f.hosts[x].hosted == map[] && f.now - f.lastScale >= 20.0
    ensures Shows(ApplyScaling(Table(), TickStart(p), ScaleUp(15, Some(x))), ScaledUp(f, x))
  {
    hide GoodConfig, Linked, CanHost, FreshReplica;
    var s := TickStart(p);
    PlaceShows(s, x);
    assert map[15 := f.list][15 := f.list + [|f.objects|]] == map[15 := f.list + [|f.objects|]];
    assert map[15 := f.lastScale][15 := f.now] == map[15 := f.now];
    assert map[][15 := |f.objects|] == map[15 := |f.objects|];
  }

  lemma ResetShows(s: State, f: Scene)
    requires Shows(s, f)
    ensures Shows(ResetWindow(s), f)
  {
  }

  lemma TickShows(s: State, f: Scene)
    requires Shows(s, f)
    ensures Shows(Push(s, f.now + 50.0, DecisionTick), Ticked(f))
  {
  }

  /** A tick that scales service 15 up on the ACTIVE, empty host x. */
  lemma PassScaleUp(f: Scene, k: nat, x: int)
    requires Reachable(f) && IsMin(f.heap, k) && f.heap[k].time <= 400.0 && f.heap[k].kind == DecisionTick
    requires x in f.hosts && f.hosts[x].phase == Active && f.hosts[x].hosted == map[]
    requires f.heap[k].time - f.lastScale >= 20.0
    ensures Reachable(Ticked(ScaledUp(After(f, k), x)))
  {
    hide GoodConfig, Linked, IsStory, Reachable, Popped, ApplyScaling, HandleTick, ScaledUp, ResetWindow;
    var states, moves, s, p := Current(f, k);
    TickStartLinked(Table(), p);
    ScaledOnce(p, UpOn(x));
    ScaleUpShows(p, After(f, k), x);
    ResetShows(ApplyScaling(Table(), TickStart(p), ScaleUp(15, Some(x))), ScaledUp(After(f, k), x));
    TickShows(HandleTick(Table(), p, UpOn(x)), ScaledUp(After(f, k), x));
    Extended(states, moves, k, UpOn(x), Handle(Table(), p, DecisionTick, UpOn(x)), Ticked(ScaledUp(After(f, k), x)));
  }

  lemma ScaledOnce(p: State, choice: Choice)
    requires GoodConfig(Table()) && Linked(Table(), p) && Linked(Table(), TickStart(p))
    requires ChoiceLinked(Table(), p, choice) && choice.provision == NoProvision && |choice.scaling| == 1
    ensures HandleTick(Table(), p, choice) == ResetWindow(ApplyScaling(Table(), TickStart(p), choice.scaling[0]))
  {
    hide GoodConfig, Linked, ApplyScaling;
    assert choice.scaling[..0] == [];
    assert ScaleAll(Table(), TickStart(p), choice.scaling[..0]) == TickStart(p);
  }

  /** The drain of a host that has nothing to migrate. */
  function Plan(): DrainPlan {
    DrainPlan([], [15], [])
  }

  /** Host d may be turned off, and host y has another copy of its only service. */
  predicate TurnsOff(f: Scene, d: int, o: nat, y: int) {
    && d in f.hosts && f.hosts[d].phase == Active && f.hosts[d].hosted == map[15 := o]
    && f.now - f.hosts[d].since >= 300.0
    && o < |f.objects| && f.objects[o].phase == Ready && f.objects[o].server == d && f.objects[o].service == 15
    && y in f.hosts && y != d && 15 in f.hosts[y].hosted && f.hosts[y].hosted[15] < |f.objects|
    && f.objects[f.hosts[y].hosted[15]].phase != Terminated
    && exists z :: z in f.hosts && z != d && f.hosts[z].phase == Active
  }

  lemma MayTurn(p: State, f: Scene, d: int, o: nat, y: int)
    requires GoodConfig(Table()) && Linked(Table(), p) && Shows(p, f) && TurnsOff(f, d, o, y)
    ensures MayTurnOff(Table(), p, d) && SoleHosted(p, d) == {} && PlanInBounds(Table(), p, Plan())
    ensures Unmigrated(Table(), p, d, Plan()) == {} && KeepSteps(Table(), p, []).0 == []
    ensures PlanOk(Table(), p, d, Plan())
  {
    var z :| z in f.hosts && z != d && f.hosts[z].phase == Active;
    assert {d, z} <= ActiveServers(p) && |{d, z}| == 2;
    SubsetSize({d, z}, ActiveServers(p));
    assert At(p, y, 15) < |p.objects|;
    assert !OnlyCopy(p, d, 15);
    assert Enumerates([15], p.servers[d].hosted.Keys);
  }

  lemma DrainShows(p: State, f: Scene, d: int, o: nat, y: int)
    requires GoodConfig(Table()) && Linked(Table(), p) && Shows(p, f) && TurnsOff(f, d, o, y)
    ensures PlanInBounds(Table(), p, Plan()) && Linked(Table(), MarkDraining(Table(), p, d))
    ensures ApplyProvision(Table(), p, TurnOff(d, Plan()))
            == Push(Retire(Table(), MarkDraining(Table(), p, d), o), p.now + 15.0, DrainDone(d))
  {
    MayTurn(p, f, d, o, y);
    DrainIs(p, d, o);
  }

  lemma DrainIs(p: State, d: int, o: nat)
    requires GoodConfig(Table()) && Linked(Table(), p) && PlanInBounds(Table(), p, Plan())
    requires MayTurnOff(Table(), p, d) && p.servers[d].hosted == map[15 := o] && o < |p.objects|
    requires Unmigrated(Table(), p, d, Plan()) == {} && KeepSteps(Table(), p, []).0 == []
    ensures Linked(Table(), MarkDraining(Table(), p, d))
    ensures ApplyProvision(Table(), p, TurnOff(d, Plan()))
            == Push(Retire(Table(), MarkDraining(Table(), p, d), o), p.now + 15.0, DrainDone(d))
  {
    hide GoodConfig, Linked, Unmigrated, Retire, KeepSteps;
    var m := MarkDraining(Table(), p, d);
    assert Moved(Table(), p, d, []) == m;
    assert ServicesOf([]) == {};
    RetiresOne(m, d, o);
  }

  lemma RetiresOne(m: State, d: int, o: nat)
    requires InStore(m, d) && m.servers[d].hosted == map[15 := o]
    ensures RetireAll(Table(), m, d, [15], {}) == Retire(Table(), m, o)
  {
    hide Retire, Table;
    assert [15][..0] == [];
    assert RetireAll(Table(), m, d, [], {}) == m;
  }

  function TurnedOff(f: Scene, d: int, o: nat): (g: Scene)
    requires d in f.hosts && o < |f.objects|
    ensures g.now == f.now
  {
    var g := WithHost(f, d, f.hosts[d].(phase := Draining, since := f.now))
               .(objects := f.objects[o := f.objects[o].(phase := Leaving)]);
    Pushed(Pushed(g, f.now + Later(10.0, f.objects[o].queue.availableAt - f.now), ReplicaGone(Slot(d, 15), o)),
           f.now + 15.0, DrainDone(d))
  }

  function OffOf(d: int): Choice {
    Silent().(provision := TurnOff(d, Plan()))
  }

  lemma TurnOffAllowed(p: State, f: Scene, d: int, o: nat, y: int)
    requires GoodConfig(Table()) && Linked(Table(), p) && Linked(Table(), TickStart(p)) && Shows(p, f)
    requires TurnsOff(f, d, o, y) && ChoiceLinked(Table(), p, OffOf(d))
    ensures ChoiceOk(Table(), p, DecisionTick, OffOf(d))
  {
    hide GoodConfig, Linked, PlanOk, MayTurnOff, TurnsOff;
    MayTurn(TickStart(p), f, d, o, y);
  }

  lemma RetireShows(s: State, f: Scene, d: int, o: nat)
    requires Linked(Table(), s) && Shows(s, f) && d in f.hosts && o < |f.objects|
    requires f.objects[o].phase == Ready && f.objects[o].server == d && f.objects[o].service == 15
    ensures Shows(Push(Retire(Table(), MarkDraining(Table(), s, d), o), s.now + 15.0, DrainDone(d)), TurnedOff(f, d, o))
  {
    hide Linked;
  }

  lemma TurnOffShows(p: State, f: Scene, d: int, o: nat, y: int)
    requires GoodConfig(Table()) && Linked(Table(), p) && Linked(Table(), TickStart(p)) && Shows(p, f)
    requires TurnsOff(f, d, o, y) && ChoiceLinked(Table(), p, OffOf(d))
    ensures d in f.hosts && o < |f.objects| && Shows(HandleTick(Table(), p, OffOf(d)), TurnedOff(f, d, o))
  {
    hide GoodConfig, Linked, PlanInBounds, ApplyProvision, Retire, MarkDraining, TurnedOff;
    var s := TickStart(p);
    DrainShows(s, f, d, o, y);
    RetireShows(s, f, d, o);
    var r := ApplyProvision(Table(), s, OffOf(d).provision);
    assert ScaleAll(Table(), r, []) == r;
    ResetShows(r, TurnedOff(f, d, o));
  }

  /** A tick that turns off host d. */
  lemma PassTurnOff(f: Scene, k: nat, d: int, o: nat, y: int)
    requires Reachable(f) && IsMin(f.heap, k) && f.heap[k].time <= 400.0 && f.heap[k].kind == DecisionTick
    requires TurnsOff(After(f, k), d, o, y)
    ensures Reachable(Ticked(TurnedOff(After(f, k), d, o)))
  {
    hide GoodConfig, Linked, IsStory, Reachable, Popped, ChoiceOk, HandleTick, TurnedOff, TurnsOff;
    var states, moves, s, p := Current(f, k);
    TickStartLinked(Table(), p);
    assert ChoiceLinked(Table(), p, OffOf(d));
    TurnOffAllowed(p, After(f, k), d, o, y);
    TurnOffShows(p, After(f, k), d, o, y);
    TickShows(HandleTick(Table(), p, OffOf(d)), TurnedOff(After(f, k), d, o));
    Extended(states, moves, k, OffOf(d), Handle(Table(), p, DecisionTick, OffOf(d)),
             Ticked(TurnedOff(After(f, k), d, o)));
  }

  /** The host still works: another grace period. */
  lemma PassRearm(f: Scene, k: nat, d: int, o: nat)
    requires Reachable(f) && IsMin(f.heap, k) && f.heap[k].time <= 400.0 && f.heap[k].kind == DrainDone(d)
    requires d in f.hosts && f.hosts[d].hosted == map[15 := o] && o < |f.objects| && f.objects[o].phase == Leaving
    ensures Reachable(Pushed(After(f, k), f.heap[k].time + 15.0, DrainDone(d)))
  {
    hide GoodConfig, Linked, IsStory, Reachable, Popped;
    var states, moves, s, p := Current(f, k);
    assert InStore(p, d) by {
      HostsLinked(p, d);
    }
    assert 15 in p.servers[d].hosted;
    Extended(states, moves, k, Silent(), Handle(Table(), p, s.heap[k].kind, Silent()),
             Pushed(After(f, k), f.heap[k].time + 15.0, DrainDone(d)));
  }

  lemma HostsLinked(s: State, d: int)
    requires Linked(Table(), s) && d in s.servers
    ensures InStore(s, d)
  {
    assert HostLinked(Table(), s.servers[d].hosted, |s.objects|);
  }

  // ------------------------------------------------------------------
  // The start
  // ------------------------------------------------------------------

  const FIRST := Event(0.0, Arrival(CLIENT, 15))
  const LATER := Event(349.0, Arrival(CLIENT, 15))

  function Booting0(hosted: map<int, nat>): Host {
    Host(Booting, 0.0, hosted)
  }

  function Start(): Scene {
    Scene(0.0, 7,
          map[1 := FIRST, 2 := LATER, 3 := LATER, 4 := Event(30.0, BootDone(1)), 5 := Event(30.0, BootDone(2)),
              6 := Event(30.0, BootDone(3)), 7 := Event(0.0, DecisionTick)],
          map[1 := Booting0(map[15 := 0]), 2 := Booting0(map[]), 3 := Booting0(map[])],
          [Placed(1, 0.0)], [0], LONG_AGO, 0)
  }

  lemma ArrivalsPushed(s: State)
    requires s.heap == map[] && s.lastSeq == 0
    ensures PushArrivals(s, Rows()) == s.(heap := map[1 := FIRST, 2 := LATER, 3 := LATER], lastSeq := 3)
  {
    var rows := Rows();
    assert rows[..2][..1] == rows[..1] && rows[..1][..0] == [];
    assert PushArrivals(s, rows[..0]) == s;
    assert PushArrivals(s, rows[..1]) == Push(s, 0.0, FIRST.kind);
    assert PushArrivals(s, rows[..2]) == Push(Push(s, 0.0, FIRST.kind), 349.0, LATER.kind);
  }

  lemma BootOneMore(s: State, before: seq<int>, x: int)
    requires x in s.servers && forall i :: 0 <= i < |before| ==> before[i] in s.servers
    ensures BootAll(Table(), s, before + [x]) == StartBoot(Table(), BootAll(Table(), s, before), x, false)
  {
    hide StartBoot, Table;
    assert (before + [x])[..|before|] == before;
  }

  lemma HostsBooted(s: State)
    requires s.servers.Keys == {1, 2, 3}
    ensures BootAll(Table(), s, [1, 2, 3])
            == StartBoot(Table(), StartBoot(Table(), StartBoot(Table(), s, 1, false), 2, false), 3, false)
  {
    hide StartBoot, Table;
    BootOneMore(s, [], 1);
    BootOneMore(s, [1], 2);
    BootOneMore(s, [1, 2], 3);
    assert [] + [1] == [1] && [1] + [2] == [1, 2] && [1, 2] + [3] == [1, 2, 3];
  }

  lemma StartIsReachable()
    ensures Reachable(Start())
  {
    hide Table, Rows, Start, GoodConfig, GoodStart, Prime, Shows;
    TableIsGood();
    var s := Prime(Table(), Rows(), [1, 2, 3], [Slot(1, 15)]);
    PrimeShows(s);
    assert IsStory([s], []);
    assert [s][|[s]| - 1] == s;
  }

  lemma PrimeShows(s: State)
    requires GoodStart(Table(), Rows(), [1, 2, 3], [Slot(1, 15)]) && Table().servers.Keys == {1, 2, 3}
    requires s == Prime(Table(), Rows(), [1, 2, 3], [Slot(1, 15)])
    ensures Shows(s, Start())
  {
    TableIsGood();
    assert EarliestTime(Rows()) == 0.0 && HomesInBounds(Table(), [Slot(1, 15)]);
    hide Table, Rows, Start, GoodConfig, Linked, BootAll, HomeAll, PushArrivals, AllBooting, Shows, HomesInBounds,
      EarliestTime;
    var s0 := Blank(Table(), Rows());
    ArrivalsPushed(s0);
    var s1 := PushArrivals(s0, Rows());
    BlankLinked(Table(), Rows());
    HostsBooted(s1);
    PushArrivalsFrame(s0, Rows());
    BootAllLinked(Table(), s1, [1, 2, 3]);
    var s2 := BootAll(Table(), s1, [1, 2, 3]);
    BootedShow(s1, s2);
    var s3 := HomeAll(Table(), s2, [Slot(1, 15)]);
    HomeShows(s2, s3);
    PrimeIs(s, s3);
  }

  /** Hosts not yet visited are off. */
  function SomeBooting(n: nat, heap: map<nat, Event>): Scene {
    Scene(0.0, 3 + n, heap,
          map[1 := if n < 1 then Host(Off, LONG_AGO, map[]) else Booting0(map[]),
              2 := if n < 2 then Host(Off, LONG_AGO, map[]) else Booting0(map[]),
              3 := if n < 3 then Host(Off, LONG_AGO, map[]) else Booting0(map[])],
          [], [], LONG_AGO, 0)
  }

  lemma BootShows(s: State, f: Scene, x: int)
    requires Shows(s, f) && x in f.hosts && f.hosts[x].phase == Off
    ensures Shows(StartBoot(Table(), s, x, false),
                  Pushed(WithHost(f, x, f.hosts[x].(phase := Booting, since := f.now)), f.now + 30.0, BootDone(x)))
  {
  }

  const BOOT_ONE := Event(30.0, BootDone(1))
  const BOOT_TWO := Event(30.0, BootDone(2))
  const BOOT_THREE := Event(30.0, BootDone(3))

  lemma NextBoots(s: State, n: nat, heap: map<nat, Event>)
    requires n < 3 && Shows(s, SomeBooting(n, heap))
    ensures s.servers.Keys == {1, 2, 3} == StartBoot(Table(), s, n + 1, false).servers.Keys
    ensures Shows(StartBoot(Table(), s, n + 1, false), SomeBooting(n + 1, heap[4 + n := Event(30.0, BootDone(n + 1))]))
  {
    hide Table;
    var f := SomeBooting(n, heap);
    BootShows(s, f, n + 1);
    assert SomeBooting(n + 1, heap[4 + n := Event(30.0, BootDone(n + 1))])
           == Pushed(WithHost(f, n + 1, f.hosts[n + 1].(phase := Booting, since := f.now)), f.now + 30.0,
                     BootDone(n + 1));
  }

  function AllBooting(): Scene {
    SomeBooting(3, map[1 := FIRST, 2 := LATER, 3 := LATER, 4 := BOOT_ONE, 5 := BOOT_TWO, 6 := BOOT_THREE])
  }

  lemma BootedShow(s1: State, s2: State)
    requires s1 == Blank(Table(), Rows()).(heap := map[1 := FIRST, 2 := LATER, 3 := LATER], lastSeq := 3)
    requires s2 == StartBoot(Table(), StartBoot(Table(), StartBoot(Table(), s1, 1, false), 2, false), 3, false)
    ensures Shows(s2, AllBooting())
  {
    hide StartBoot, Table, Rows, Shows, SomeBooting, Blank;
    BlankShows(s1);
    var h0 := map[1 := FIRST, 2 := LATER, 3 := LATER];
    NextBoots(s1, 0, h0);
    var h1 := h0[4 := BOOT_ONE];
    NextBoots(StartBoot(Table(), s1, 1, false), 1, h1);
    var h2 := h1[5 := BOOT_TWO];
    NextBoots(StartBoot(Table(), StartBoot(Table(), s1, 1, false), 2, false), 2, h2);
    assert h2[6 := BOOT_THREE]
           == map[1 := FIRST, 2 := LATER, 3 := LATER, 4 := BOOT_ONE, 5 := BOOT_TWO, 6 := BOOT_THREE];
  }

  lemma BlankShows(s: State)
    requires s == Blank(Table(), Rows()).(heap := map[1 := FIRST, 2 := LATER, 3 := LATER], lastSeq := 3)
    ensures Shows(s, SomeBooting(0, map[1 := FIRST, 2 := LATER, 3 := LATER]))
  {
    TableIsGood();
    assert s.byService == map[15 := []] && s.lastScale == map[15 := LONG_AGO];
  }

  lemma HomeShows(s2: State, s3: State)
    requires GoodConfig(Table()) && Linked(Table(), s2) && HomesInBounds(Table(), [Slot(1, 15)])
    requires Shows(s2, AllBooting())
    requires s3 == HomeAll(Table(), s2, [Slot(1, 15)])
    ensures Shows(s3, Start().(lastSeq := 6, heap := Start().heap - {7}))
  {
    hide GoodConfig, Linked, CanHost, FreshReplica;
    assert Start().heap - {7} == AllBooting().heap;
    assert [Slot(1, 15)][..0] == [];
    assert HomeAll(Table(), s2, []) == s2;
    PlaceShows(s2, 1);
    assert s3 == Place(Table(), s2, 1, 15).0;
    assert s2.byService == map[15 := []] && s3.byService[15] == [] + [0] == [0];
    assert s3.byService.Keys == {15};
    assert s3.byService == map[15 := [0]];
    assert s3.servers[1].hosted == map[15 := 0];
    assert s3.objects == [Placed(1, 0.0)];
  }

  lemma PrimeIs(s: State, s3: State)
    requires Shows(s3, Start().(lastSeq := 6, heap := Start().heap - {7})) && s == Push(s3, 0.0, DecisionTick)
    ensures Shows(s, Start())
  {
    assert (Start().heap - {7})[7 := Event(0.0, DecisionTick)] == Start().heap;
  }

  // ------------------------------------------------------------------
  // The story
  // ------------------------------------------------------------------

  function Asked(id: nat, at: real): Event {
    Event(at, Routed(Request(id, 15, CLIENT, 0.005)))
  }

  function Tick(t: real): Event {
    Event(t, DecisionTick)
  }

  function Working(since: real, hosted: map<int, nat>): Host {
    Host(Active, since, hosted)
  }

  /** The first request comes while everything boots, ... */
  function Opening0(): Scene {
    Start().(lastSeq := 8, arrived := 1,
             heap := map[2 := LATER, 3 := LATER, 4 := Event(30.0, BootDone(1)), 5 := Event(30.0, BootDone(2)),
                         6 := Event(30.0, BootDone(3)), 7 := Tick(0.0), 8 := Asked(1, 0.005)])
  }

  lemma Opens0()
    requires Reachable(Start())
    ensures Reachable(Opening0())
  {
    hide Reachable;
    PassArrival(Start(), 1);
    assert Pushed(After(Start(), 1).(arrived := 1), 0.005, Asked(1, 0.005).kind) == Opening0();
  }

  function Opening1(): Scene {
    Opening0().(lastSeq := 9,
                heap := map[2 := LATER, 3 := LATER, 4 := Event(30.0, BootDone(1)), 5 := Event(30.0, BootDone(2)),
                            6 := Event(30.0, BootDone(3)), 8 := Asked(1, 0.005), 9 := Tick(50.0)])
  }

  lemma Opens1()
    requires Reachable(Opening0())
    ensures Reachable(Opening1())
  {
    hide Reachable;
    PassQuietTick(Opening0(), 7);
    assert Ticked(After(Opening0(), 7)) == Opening1();
  }

  /** ... and is rejected. */
  function Opening(): Scene {
    Opening1().(now := 0.005,
                heap := map[2 := LATER, 3 := LATER, 4 := Event(30.0, BootDone(1)), 5 := Event(30.0, BootDone(2)),
                            6 := Event(30.0, BootDone(3)), 9 := Tick(50.0)])
  }

  lemma Opens()
    requires Reachable(Opening1())
    ensures Reachable(Opening())
  {
    hide Reachable;
    PassUnserved(Opening1(), 8);
    assert After(Opening1(), 8) == Opening();
  }

  const READY_ONE := Event(35.0, ReplicaReady(Slot(1, 15), 0))

  function Up1(): Scene {
    Opening().(now := 30.0, lastSeq := 10,
               heap := map[2 := LATER, 3 := LATER, 5 := Event(30.0, BootDone(2)), 6 := Event(30.0, BootDone(3)),
                           9 := Tick(50.0), 10 := READY_ONE],
               hosts := map[1 := Working(30.0, map[15 := 0]), 2 := Booting0(map[]), 3 := Booting0(map[])])
  }

  lemma ComesUp1()
    requires Reachable(Opening())
    ensures Reachable(Up1())
  {
    hide Reachable;
    PassBoot(Opening(), 4, 1, 0);
    assert Pushed(Booted(After(Opening(), 4), 1), 35.0, READY_ONE.kind) == Up1();
  }

  function Up2(): Scene {
    Up1().(heap := map[2 := LATER, 3 := LATER, 6 := Event(30.0, BootDone(3)), 9 := Tick(50.0), 10 := READY_ONE],
           hosts := map[1 := Working(30.0, map[15 := 0]), 2 := Working(30.0, map[]), 3 := Booting0(map[])])
  }

  lemma ComesUp2()
    requires Reachable(Up1())
    ensures Reachable(Up2())
  {
    hide Reachable;
    PassEmptyBoot(Up1(), 5, 2);
    assert Booted(After(Up1(), 5), 2) == Up2();
  }

  /** All hosts are ACTIVE. */
  function Up(): Scene {
    Up2().(heap := map[2 := LATER, 3 := LATER, 9 := Tick(50.0), 10 := READY_ONE],
           hosts := map[1 := Working(30.0, map[15 := 0]), 2 := Working(30.0, map[]), 3 := Working(30.0, map[])])
  }

  lemma ComesUp()
    requires Reachable(Up2())
    ensures Reachable(Up())
  {
    hide Reachable;
    PassEmptyBoot(Up2(), 6, 3);
    assert Booted(After(Up2(), 6), 3) == Up();
  }

  function ReadyOn(x: int, created: real, queue: Queue): Replica {
    Replica(x, 15, Ready, created, Some(if x == 1 then 35.0 else 55.0), queue)
  }

  function Idle(): Queue {
    Queue(20, EXEC, 0.0, [])
  }

  /** Hosts 1 and 2 serve; the next tick is event n at time t. */
  function Waiting(now: real, t: real, n: nat): Scene {
    Scene(now, n, map[2 := LATER, 3 := LATER, n := Tick(t)],
          map[1 := Working(30.0, map[15 := 0]), 2 := Working(30.0, map[15 := 1]), 3 := Working(30.0, map[])],
          [ReadyOn(1, 0.0, Idle()), ReadyOn(2, 50.0, Idle())], [0, 1], 50.0, 1)
  }

  function Serving(): Scene {
    Scene(35.0, 10, map[2 := LATER, 3 := LATER, 9 := Tick(50.0)],
          map[1 := Working(30.0, map[15 := 0]), 2 := Working(30.0, map[]), 3 := Working(30.0, map[])],
          [ReadyOn(1, 0.0, Idle())], [0], LONG_AGO, 1)
  }

  lemma Serves()
    requires Reachable(Up())
    ensures Reachable(Serving())
  {
    hide Reachable;
    PassReady(Up(), 10, 1, 0);
    var ready := Placed(1, 0.0).(phase := Ready, readySince := Some(35.0));
    assert Up().objects[0 := ready] == [ready];
    assert After(Up(), 10).(objects := [ready]) == Serving();
  }

  const READY_TWO := Event(55.0, ReplicaReady(Slot(2, 15), 1))

  /** The tick at 50 scales up onto host 2. */
  function Scaling2(): Scene {
    Waiting(50.0, 100.0, 12).(heap := map[2 := LATER, 3 := LATER, 11 := READY_TWO, 12 := Tick(100.0)],
                              objects := [ReadyOn(1, 0.0, Idle()), Placed(2, 50.0)])
  }

  lemma ScalesUp()
    requires Reachable(Serving())
    ensures Reachable(Scaling2())
  {
    hide Reachable;
    PassScaleUp(Serving(), 9, 2);
    assert Ticked(ScaledUp(After(Serving(), 9), 2)) == Scaling2();
  }

  lemma BothServe()
    requires Reachable(Scaling2())
    ensures Reachable(Waiting(55.0, 100.0, 12))
  {
    hide Reachable;
    PassReady(Scaling2(), 11, 2, 1);
    var ready := Placed(2, 50.0).(phase := Ready, readySince := Some(55.0));
    assert Scaling2().objects[1 := ready] == [ReadyOn(1, 0.0, Idle()), ready];
    assert After(Scaling2(), 11).(objects := [ReadyOn(1, 0.0, Idle()), ready]) == Waiting(55.0, 100.0, 12);
  }

  lemma Waits(now: real, t: real, n: nat)
    requires Reachable(Waiting(now, t, n)) && 12 <= n && t < 349.0
    ensures Reachable(Waiting(t, t + 50.0, n + 1))
  {
    hide Reachable;
    PassQuietTick(Waiting(now, t, n), n);
    assert Ticked(After(Waiting(now, t, n), n)) == Waiting(t, t + 50.0, n + 1);
  }

  const ONE_LEFT := 349.005 + EXEC
  const BOTH_LEFT := 349.005 + EXEC + EXEC

  function OneJob(): Queue {
    Queue(20, EXEC, ONE_LEFT, [ONE_LEFT])
  }

  function TwoJobs(): Queue {
    Queue(20, EXEC, BOTH_LEFT, [ONE_LEFT, BOTH_LEFT])
  }

  lemma Jobs()
    ensures Admit(Idle(), 349.005, 0.0) == (OneJob(), Admitted(349.005, ONE_LEFT))
    ensures Admit(OneJob(), 349.005, 0.0) == (TwoJobs(), Admitted(ONE_LEFT, BOTH_LEFT))
    ensures Occupancy(Idle(), 349.005) == 0 && Occupancy(OneJob(), 349.005) == 1
  {
    assert Pending([], 349.005) == [] && [] + [ONE_LEFT] == [ONE_LEFT];
    assert Pending([ONE_LEFT], 349.005) == [ONE_LEFT] && [ONE_LEFT] + [BOTH_LEFT] == [ONE_LEFT, BOTH_LEFT];
    assert EXEC > 26.0;
  }

  function Loading0(): Scene {
    Waiting(349.0, 350.0, 17).(lastSeq := 18, arrived := 2,
                               heap := map[3 := LATER, 17 := Tick(350.0), 18 := Asked(2, 349.005)])
  }

  lemma Loads0()
    requires Reachable(Waiting(300.0, 350.0, 17))
    ensures Reachable(Loading0())
  {
    hide Reachable;
    PassArrival(Waiting(300.0, 350.0, 17), 2);
    assert Pushed(After(Waiting(300.0, 350.0, 17), 2).(arrived := 2), 349.005, Asked(2, 349.005).kind) == Loading0();
  }

  function Loading1(): Scene {
    Loading0().(lastSeq := 19, arrived := 3,
                heap := map[17 := Tick(350.0), 18 := Asked(2, 349.005), 19 := Asked(3, 349.005)])
  }

  lemma Loads1()
    requires Reachable(Loading0())
    ensures Reachable(Loading1())
  {
    hide Reachable;
    PassArrival(Loading0(), 3);
    assert Pushed(After(Loading0(), 3).(arrived := 3), 349.005, Asked(3, 349.005).kind) == Loading1();
  }

  function Loading2(): Scene {
    Loading1().(now := 349.005, lastSeq := 20,
                heap := map[17 := Tick(350.0), 19 := Asked(3, 349.005), 20 := Event(ONE_LEFT, EnergyResync)],
                objects := [ReadyOn(1, 0.0, Idle()), ReadyOn(2, 50.0, OneJob())])
  }

  lemma Loads2()
    requires Reachable(Loading1())
    ensures Reachable(Loading2())
  {
    hide Reachable, Admit, Occupancy;
    Jobs();
    assert Loading1().objects[1 := ReadyOn(2, 50.0, OneJob())] == [ReadyOn(1, 0.0, Idle()), ReadyOn(2, 50.0, OneJob())];
    PassRouted(Loading1(), 18, 1);
    assert Pushed(After(Loading1(), 18).(objects := [ReadyOn(1, 0.0, Idle()), ReadyOn(2, 50.0, OneJob())]),
                  ONE_LEFT, EnergyResync) == Loading2();
  }

  /** Host 2 has two jobs. */
  function Loaded(): Scene {
    Waiting(349.005, 350.0, 17)
      .(lastSeq := 21, arrived := 3,
        heap := map[17 := Tick(350.0), 20 := Event(ONE_LEFT, EnergyResync), 21 := Event(BOTH_LEFT, EnergyResync)],
        objects := [ReadyOn(1, 0.0, Idle()), ReadyOn(2, 50.0, TwoJobs())])
  }

  lemma Loads()
    requires Reachable(Loading2())
    ensures Reachable(Loaded())
  {
    hide Reachable, Admit, Occupancy;
    Jobs();
    assert Loading2().objects[1 := ReadyOn(2, 50.0, TwoJobs())]
           == [ReadyOn(1, 0.0, Idle()), ReadyOn(2, 50.0, TwoJobs())];
    PassRouted(Loading2(), 19, 1);
    assert Pushed(After(Loading2(), 19).(objects := [ReadyOn(1, 0.0, Idle()), ReadyOn(2, 50.0, TwoJobs())]),
                  BOTH_LEFT, EnergyResync) == Loaded();
  }

  function LeavingTwo(): Replica {
    ReadyOn(2, 50.0, TwoJobs()).(phase := Leaving)
  }

  const LAST_RESYNC := Event(BOTH_LEFT, EnergyResync)
  const GONE_TWO := Event(BOTH_LEFT, ReplicaGone(Slot(2, 15), 1))

  /** Host 2 drains, its copy leaves when its jobs are done. */
  function Finishing(now: real, lastSeq: nat, heap: map<nat, Event>): Scene {
    Scene(now, lastSeq, heap,
          map[1 := Working(30.0, map[15 := 0]), 2 := Host(Draining, 350.0, map[15 := 1]), 3 := Working(30.0, map[])],
          [ReadyOn(1, 0.0, Idle()), LeavingTwo()], [0, 1], 50.0, 3)
  }

  /** The tick at 350 turns host 2 off. */
  function Leaving0(): Scene {
    Finishing(350.0, 24, map[20 := Event(ONE_LEFT, EnergyResync), 21 := LAST_RESYNC, 22 := GONE_TWO,
                             23 := Event(365.0, DrainDone(2)), 24 := Tick(400.0)])
  }

  lemma HostTwoDrains()
    requires Reachable(Loaded())
    ensures Reachable(Leaving0())
  {
    hide Reachable;
    var now := After(Loaded(), 17);
    assert now.hosts[3].phase == Active && TurnsOff(now, 2, 1, 1);
    PassTurnOff(Loaded(), 17, 2, 1, 1);
    assert Loaded().objects[1 := LeavingTwo()] == [ReadyOn(1, 0.0, Idle()), LeavingTwo()];
    assert Later(10.0, BOTH_LEFT - 350.0) == BOTH_LEFT - 350.0;
    assert Ticked(TurnedOff(now, 2, 1)).heap == Leaving0().heap;
    assert Ticked(TurnedOff(now, 2, 1)) == Leaving0();
  }

  function Leaving1(): Scene {
    Finishing(365.0, 25, map[20 := Event(ONE_LEFT, EnergyResync), 21 := LAST_RESYNC, 22 := GONE_TWO,
                             24 := Tick(400.0), 25 := Event(380.0, DrainDone(2))])
  }

  lemma Works1()
    requires Reachable(Leaving0())
    ensures Reachable(Leaving1())
  {
    hide Reachable;
    PassRearm(Leaving0(), 23, 2, 1);
    assert Pushed(After(Leaving0(), 23), 380.0, DrainDone(2)) == Leaving1();
  }

  function Leaving2(): Scene {
    Finishing(ONE_LEFT, 25, map[21 := LAST_RESYNC, 22 := GONE_TWO, 24 := Tick(400.0), 25 := Event(380.0, DrainDone(2))])
  }

  lemma Works2()
    requires Reachable(Leaving1())
    ensures Reachable(Leaving2())
  {
    hide Reachable;
    PassResync(Leaving1(), 20);
    assert After(Leaving1(), 20) == Leaving2();
  }

  function Leaving3(): Scene {
    Finishing(380.0, 26, map[21 := LAST_RESYNC, 22 := GONE_TWO, 24 := Tick(400.0), 26 := Event(395.0, DrainDone(2))])
  }

  lemma Works3()
    requires Reachable(Leaving2())
    ensures Reachable(Leaving3())
  {
    hide Reachable;
    PassRearm(Leaving2(), 25, 2, 1);
    assert Pushed(After(Leaving2(), 25), 395.0, DrainDone(2)) == Leaving3();
  }

  /** One tick later host 2 has still not finished. */
  function StillLeaving(): Scene {
    Finishing(395.0, 27, map[21 := LAST_RESYNC, 22 := GONE_TWO, 24 := Tick(400.0), 27 := Event(410.0, DrainDone(2))])
  }

  lemma Works()
    requires Reachable(Leaving3())
    ensures Reachable(StillLeaving())
  {
    hide Reachable;
    PassRearm(Leaving3(), 26, 2, 1);
    assert Pushed(After(Leaving3(), 26), 410.0, DrainDone(2)) == StillLeaving();
  }

  lemma StoryReaches()
    ensures Reachable(StillLeaving())
  {
    hide Reachable;
    StartIsReachable();
    Opens0();
    Opens1();
    Opens();
    ComesUp1();
    ComesUp2();
    ComesUp();
    Serves();
    ScalesUp();
    BothServe();
    Waits(55.0, 100.0, 12);
    Waits(100.0, 150.0, 13);
    Waits(150.0, 200.0, 14);
    Waits(200.0, 250.0, 15);
    Waits(250.0, 300.0, 16);
    Loads0();
    Loads1();
    Loads2();
    Loads();
    HostTwoDrains();
    Works1();
    Works2();
    Works3();
    Works();
  }

  // ------------------------------------------------------------------
  // The tick that orphans the service
  // ------------------------------------------------------------------

  /** The service is READY on host 1 alone. */
  lemma ReadyOnlyOnOne(s: State, f: Scene)
    requires Shows(s, f) && f.hosts == StillLeaving().hosts && f.objects == StillLeaving().objects
    ensures forall x :: ReadyAt(s, x, 15) <==> x == 1
    ensures HasReady(s, 15)
  {
    forall x ensures ReadyAt(s, x, 15) <==> x == 1 {
      assert InSlot(s, x, 15) <==> x == 1 || x == 2;
    }
    assert ReadyAt(s, 1, 15);
  }

  lemma LastTickOrphans(p: State)
    requires GoodConfig(Table()) && Linked(Table(), p) && Linked(Table(), TickStart(p))
    requires Shows(p, After(StillLeaving(), 24)) && ChoiceLinked(Table(), p, OffOf(1))
    ensures PlanInBounds(Table(), TickStart(p), Plan()) && Orphaned(Table(), p, OffOf(1), 15)
    ensures ChoiceOk(Table(), p, DecisionTick, OffOf(1))
  {
    var f := After(StillLeaving(), 24);
    assert f.hosts[3].phase == Active && TurnsOff(f, 1, 0, 2);
    hide GoodConfig, Linked, TurnsOff, StillLeaving, ChoiceOk, MayTurnOff;
    TurnOffAllowed(p, f, 1, 0, 2);
    MayTurn(TickStart(p), f, 1, 0, 2);
    assert f.hosts == StillLeaving().hosts && f.objects == StillLeaving().objects;
    ReadyOnlyOnOne(p, f);
  }

  /** A run from `prime` in which service 15 has a READY replica before the last
      step, a tick that turns off host 1, and none after it. */
  lemma ZeroDowntimeIsNotUnconditional() returns (states: seq<State>, moves: seq<Move>)
    ensures IsHistory(Table(), Rows(), [1, 2, 3], [Slot(1, 15)], states, moves) && |moves| >= 1
    ensures |states| == |moves| + 1
    ensures HasReady(states[|states| - 2], 15) && !HasReady(states[|states| - 1], 15)
    ensures OrphanedAt(Table(), states[|states| - 2], moves[|moves| - 1].event, moves[|moves| - 1].choice, 15)
  {
    hide Reachable, Table, Rows, GoodConfig, Linked, IsHistory, IsRun, Core, CoverOk, Orphaned, PlanInBounds, ChoiceOk,
      HasReady, ReadyAt, Handle, GoodStart, Prime;
    StoryReaches();
    var f := StillLeaving();
    var s: State, p: State;
    states, moves, s, p := Current(f, 24);
    ReadyOnlyOnOne(s, f);
    TickStartLinked(Table(), p);
    assert ChoiceLinked(Table(), p, OffOf(1));
    LastTickOrphans(p);
    var r := Handle(Table(), p, DecisionTick, OffOf(1));
    assert IsStep(Table(), s, 24, OffOf(1), r);
    OneMoreStep(states, moves, 24, OffOf(1), r);
    InvAlways(Table(), Rows(), [1, 2, 3], [Slot(1, 15)], states, moves, |states| - 1);
    var tau :| Core(Table(), s, tau, {});
    StepReadiness(Table(), s, tau, 24, OffOf(1), r, 15);
    HistoryLength(Table(), Rows(), [1, 2, 3], [Slot(1, 15)], states, moves);
    states, moves := states + [r], moves + [Move(24, OffOf(1))];
  }
}
