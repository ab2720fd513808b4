/** Whole-run accounting: the books balance in every state of every run, and
    each server's energy is its boots, its pod creations and the integral of its power. */
module EngineAccounts {
  import opened Settings
  import opened ReplicaQueues
  import opened EngineModel
  import opened EngineInvariants
  import opened EngineClock
  import opened EngineHandlers
  import opened EngineTick
  import opened EngineDrain
  import opened EngineRuns
  import opened EnginePrime
  import opened EngineLedger
  import opened EngineEnergy

  // ------------------------------------------------------------------
  // The clock within a step
  // ------------------------------------------------------------------

  lemma {:induction false} ScaleAllNow(cfg: Config, s: State, decisions: seq<Scaling>)
    requires GoodConfig(cfg) && Linked(cfg, s)
    ensures ScaleAll(cfg, s, decisions).now == s.now
    decreases |decisions|
  {
    hide Linked, GoodConfig, CanHost;
    if decisions != [] {
      ScaleAllNow(cfg, s, decisions[..|decisions| - 1]);
    }
  }

  /** Handlers do not move the clock. */
  lemma HandleNow(cfg: Config, p: State, kind: Kind, choice: Choice)
    requires GoodConfig(cfg) && Linked(cfg, p) && KindLinked(cfg, kind) && ChoiceLinked(cfg, p, choice)
    ensures Handle(cfg, p, kind, choice).now == p.now
  {
    hide HandleTick, GoodConfig, Linked;
    if kind.DecisionTick? {
      TickKeepsNow(cfg, p, choice);
    } else {
      hide Handle;
      HandleWindowKept(cfg, p, kind, choice);
    }
  }

  lemma TickKeepsNow(cfg: Config, s: State, choice: Choice)
    requires GoodConfig(cfg) && Linked(cfg, s) && ChoiceLinked(cfg, s, choice)
    ensures HandleTick(cfg, s, choice).now == s.now
  {
    hide ApplyProvision, ScaleAll, GoodConfig;
    ApplyProvisionNow(cfg, s.(ticks := s.ticks + 1), choice.provision);
    ScaleAllNow(cfg, ApplyProvision(cfg, s.(ticks := s.ticks + 1), choice.provision), choice.scaling);
  }

  // ------------------------------------------------------------------
  // One step of the books
  // ------------------------------------------------------------------

  /** The power a server draws in a state. */
  ghost function PowerNow(cfg: Config, s: State, sid: int): real {
    if GoodConfig(cfg) && InStore(s, sid) && sid in cfg.servers then Power(cfg, s, sid, s.now) else 0.0
  }

  /** The energy drawn from here to time t. */
  ghost function DrawnBy(cfg: Config, s: State, sid: int, t: real): real {
    PowerNow(cfg, s, sid) * (t - s.now)
  }

  /** The MIPS a server has in use in a state. */
  ghost function LoadNow(cfg: Config, s: State, sid: int): real {
    if GoodConfig(cfg) && InStore(s, sid) && sid in cfg.servers then Load(cfg, s, sid, s.now) else 0.0
  }

  ghost function WorkedBy(cfg: Config, s: State, sid: int, t: real): real {
    LoadNow(cfg, s, sid) * (t - s.now)
  }

  /** Moving the clock adds exactly the power drawn meanwhile. */
  lemma AdvanceAccounts(cfg: Config, s: State, p: State, t: real, sid: int)
    requires GoodConfig(cfg) && Linked(cfg, s) && Linked(cfg, p) && p == s.(heap := p.heap)
    requires s.now <= t && sid in s.servers && MeterOk(cfg, s, sid)
    ensures Metering(cfg, Advance(cfg, p, t), sid) == Metering(cfg, s, sid) + DrawnBy(cfg, s, sid, t)
    ensures Advance(cfg, p, t).servers[sid].busy == s.servers[sid].busy + WorkedBy(cfg, s, sid, t)
  {
    hide Power, Load, CreatedOn, WindowOk, GoodConfig, ReadMeters;
    assert InStore(s, sid) && InStore(p, sid);
    PowerIgnoresHeap(cfg, s, p, sid, s.now);
    ReadDelta(s.servers[sid], PowerNow(cfg, s, sid), LoadNow(cfg, s, sid), t);
    MeteringGrows(cfg, p, Advance(cfg, p, t), sid, DrawnBy(cfg, s, sid, t));
  }

  lemma ReadDelta(sv: Server, power: real, rate: real, t: real)
    requires sv.synced <= t
    ensures ReadMeters(sv, power, rate, t).energy == sv.energy + power * (t - sv.synced)
    ensures ReadMeters(sv, power, rate, t).busy == sv.busy + rate * (t - sv.synced)
  {
    if t == sv.synced {
      assert power * (t - sv.synced) == 0.0 == rate * (t - sv.synced);
    }
  }

  lemma MeteringGrows(cfg: Config, p: State, a: State, sid: int, energy: real)
    requires sid in p.servers && sid in a.servers && a.objects == p.objects
    requires a.servers[sid].boots == p.servers[sid].boots
    requires a.servers[sid].energy == p.servers[sid].energy + energy
    ensures Metering(cfg, a, sid) == Metering(cfg, p, sid) + energy
  {
    hide CreatedOn;
    var base := Charged(cfg, p, sid);
    assert Charged(cfg, a, sid) == base;
  }

  lemma PowerIgnoresHeap(cfg: Config, s: State, p: State, sid: int, t: real)
    requires GoodConfig(cfg) && InStore(s, sid) && sid in cfg.servers && p == s.(heap := p.heap)
    ensures InStore(p, sid) && Power(cfg, p, sid, t) == Power(cfg, s, sid, t)
    ensures Load(cfg, p, sid, t) == Load(cfg, s, sid, t)
  {
    hide CpuSum, Fraction, Working, GoodConfig;
    assert BusyServices(p, sid, t) == BusyServices(s, sid, t);
  }

  lemma AdvanceBooks(cfg: Config, s: State, t: real)
    requires GoodConfig(cfg) && Linked(cfg, s) && BooksOk(s)
    ensures BooksOk(Advance(cfg, s, t))
  {
    hide Power, Load, GoodConfig;
    var a := Advance(cfg, s, t);
    forall x ensures x in Awake(a) <==> x in Awake(s) {
    }
    assert Awake(a) == Awake(s);
    SameSlots(s, a);
    forall x | x in a.servers ensures CountsOk(a, x) {
      assert CountsOk(s, x);
    }
  }

  /** One step: the books stay balanced and the energy drawn is power times time. */
  lemma StepAccounts(cfg: Config, s: State, tau: real, k: nat, choice: Choice, r: State, sid: int)
    requires Core(cfg, s, tau, {}) && CoverOk(s) && IsStep(cfg, s, k, choice, r) && sid in s.servers
    ensures r.servers.Keys == s.servers.Keys && s.now <= r.now
    ensures Metering(cfg, r, sid) == Metering(cfg, s, sid) + DrawnBy(cfg, s, sid, r.now)
    ensures r.servers[sid].busy == s.servers[sid].busy + WorkedBy(cfg, s, sid, r.now)
    ensures BooksOk(s) ==> BooksOk(r)
  {
    hide Core, SlotsOk, PhasesOk, MetersOk, QueuesOk, CoverOk, Handle, BooksOk, Metering, MeterOk, Advance,
      WasLegitimate, DrawnBy, WorkedBy, GoodConfig, ChoiceOk, Linked, IsStep, Popped, ChoiceLinked, KindLinked, IsMin;
    StepParts(cfg, s, k, choice, r);
    PoppedKeeps(cfg, s, tau, k);
    CoreParts(cfg, s, tau, {});
    CoreParts(cfg, Popped(cfg, s, k), tau, {s.heap[k].kind});
    HandleBalances(cfg, Popped(cfg, s, k), tau, s.heap[k].kind, choice);
    HandleNow(cfg, Popped(cfg, s, k), s.heap[k].kind, choice);
    MetersHere(cfg, s, sid);
    PoppedAccounts(cfg, s, k, sid);
  }

  lemma PoppedAccounts(cfg: Config, s: State, k: nat, sid: int)
    requires GoodConfig(cfg) && Linked(cfg, s) && Linked(cfg, Pop(s, k)) && k in s.heap
    requires s.now <= s.heap[k].time && sid in s.servers && sid in cfg.servers && MeterOk(cfg, s, sid)
    ensures Popped(cfg, s, k).servers.Keys == s.servers.Keys
    ensures Metering(cfg, Popped(cfg, s, k), sid) == Metering(cfg, s, sid) + DrawnBy(cfg, s, sid, s.heap[k].time)
    ensures Popped(cfg, s, k).servers[sid].busy == s.servers[sid].busy + WorkedBy(cfg, s, sid, s.heap[k].time)
    ensures BooksOk(s) ==> BooksOk(Popped(cfg, s, k))
  {
    hide BooksOk, Metering, MeterOk, DrawnBy, WorkedBy, GoodConfig, Linked, Metered;
    AdvanceAccounts(cfg, s, Pop(s, k), s.heap[k].time, sid);
    if BooksOk(s) {
      PopBooks(s, k);
      AdvanceBooks(cfg, Pop(s, k), s.heap[k].time);
    }
  }

  lemma MetersHere(cfg: Config, s: State, sid: int)
    requires Linked(cfg, s) && MetersOk(cfg, s) && sid in s.servers
    ensures sid in cfg.servers && MeterOk(cfg, s, sid)
  {
  }

  lemma PopBooks(s: State, k: nat)
    requires BooksOk(s)
    ensures BooksOk(Pop(s, k))
  {
    var p := Pop(s, k);
    assert Awake(p) == Awake(s);
    SameSlots(s, p);
    forall x | x in p.servers ensures CountsOk(p, x) {
      assert CountsOk(s, x);
    }
  }

  // ------------------------------------------------------------------
  // The start
  // ------------------------------------------------------------------

  lemma BlankBooks(cfg: Config, rows: seq<Row>)
    ensures BooksOk(Blank(cfg, rows))
    ensures forall sid :: sid in cfg.servers ==> Metering(cfg, Blank(cfg, rows), sid) == 0.0
    ensures forall sid :: sid in cfg.servers ==> Blank(cfg, rows).servers[sid].busy == 0.0
  {
    var s := Blank(cfg, rows);
    assert Awake(s) == {};
    forall slot ensures slot !in HostedSlots(s) {
    }
    assert HostedSlots(s) == {};
    forall sid | sid in cfg.servers ensures Metering(cfg, s, sid) == 0.0 {
      assert cfg.bootJoule * 0.0 == 0.0 && cfg.podJoule * 0.0 == 0.0;
    }
  }

  lemma {:induction false} BootAllBalances(cfg: Config, s: State, selected: seq<int>)
    requires forall i :: 0 <= i < |selected| ==> selected[i] in s.servers
    ensures Balanced(cfg, s, BootAll(cfg, s, selected))
    decreases |selected|
  {
    hide Balanced, StartBoot;
    if selected == [] {
      UntouchedBalances(cfg, s, s);
    } else {
      var n := |selected| - 1;
      var m := BootAll(cfg, s, selected[..n]);
      BootAllBalances(cfg, s, selected[..n]);
      StartBootBalances(cfg, m, selected[n], false);
      BalancedTrans(cfg, s, m, BootAll(cfg, s, selected));
    }
  }

  lemma {:induction false} HomeAllBalances(cfg: Config, s: State, homes: seq<Slot>)
    requires GoodConfig(cfg) && Linked(cfg, s) && HomesInBounds(cfg, homes)
    ensures Balanced(cfg, s, HomeAll(cfg, s, homes))
    decreases |homes|
  {
    hide Balanced, Place, GoodConfig, Linked;
    if homes == [] {
      UntouchedBalances(cfg, s, s);
    } else {
      var n := |homes| - 1;
      var m := HomeAll(cfg, s, homes[..n]);
      HomeAllBalances(cfg, s, homes[..n]);
      assert homes[n].server in m.servers by {
        KnownServer(cfg, m, homes, n);
      }
      PlaceWorks(cfg, m, homes[n].server, homes[n].service);
      BalancedTrans(cfg, s, m, HomeAll(cfg, s, homes));
    }
  }

  lemma KnownServer(cfg: Config, m: State, homes: seq<Slot>, n: nat)
    requires Linked(cfg, m) && HomesInBounds(cfg, homes) && n < |homes|
    ensures homes[n].server in m.servers
  {
  }

  lemma PrimeBooks(cfg: Config, rows: seq<Row>, selected: seq<int>, homes: seq<Slot>)
    requires GoodStart(cfg, rows, selected, homes)
    ensures var s := Prime(cfg, rows, selected, homes);
            && BooksOk(s) && s.servers.Keys == cfg.servers.Keys
            && forall sid :: sid in cfg.servers ==> Metering(cfg, s, sid) == 0.0 && s.servers[sid].busy == 0.0
  {
    hide BooksOk, Metering, BootAll, HomeAll;
    var s0 := Blank(cfg, rows);
    var s1 := PushArrivals(s0, rows);
    BlankBooks(cfg, rows);
    PushArrivalsFrame(s0, rows);
    UntouchedBalances(cfg, s0, s1);
    BootAllLinked(cfg, s1, selected);
    var s2 := BootAll(cfg, s1, selected);
    BootAllBalances(cfg, s1, selected);
    BalancedTrans(cfg, s0, s1, s2);
    var s3 := HomeAll(cfg, s2, homes);
    HomeAllBalances(cfg, s2, homes);
    BalancedTrans(cfg, s0, s2, s3);
    UntouchedBalances(cfg, s3, Prime(cfg, rows, selected, homes));
    BalancedTrans(cfg, s0, s3, Prime(cfg, rows, selected, homes));
  }

  // ------------------------------------------------------------------
  // Whole runs
  // ------------------------------------------------------------------

  /** The integral of a server's power over a run: power is constant from one
      state to the next. */
  ghost function Drawn(cfg: Config, states: seq<State>, sid: int): real
    decreases |states|
  {
    if |states| <= 1 then 0.0
    else
      var n := |states| - 1;
      Drawn(cfg, states[..n], sid) + DrawnBy(cfg, states[n - 1], sid, states[n].now)
  }

  /** The CPU-seconds a server worked over a run. */
  ghost function Worked(cfg: Config, states: seq<State>, sid: int): real
    decreases |states|
  {
    if |states| <= 1 then 0.0
    else
      var n := |states| - 1;
      Worked(cfg, states[..n], sid) + WorkedBy(cfg, states[n - 1], sid, states[n].now)
  }

  /** In every state of every run, boots minus shutdowns are the servers not off,
      pod creates minus deletes the hosted replicas, and each server's energy is
      its boots, its pod creations and the integral of its power. */
  lemma {:induction false} AccountsAlways(cfg: Config, rows: seq<Row>, selected: seq<int>, homes: seq<Slot>,
                                          states: seq<State>, moves: seq<Move>, i: nat, sid: int)
    requires IsHistory(cfg, rows, selected, homes, states, moves) && i < |states| && sid in cfg.servers
    ensures sid in states[i].servers && BooksOk(states[i])
    ensures states[i].servers[sid].energy
            == cfg.bootJoule * states[i].servers[sid].boots as real
               + cfg.podJoule * CreatedOn(states[i].objects, sid) as real
               + Drawn(cfg, states[..i + 1], sid)
    ensures states[i].servers[sid].busy == Worked(cfg, states[..i + 1], sid)
  {
    hide Prime, BooksOk, CreatedOn, IsStep, DrawnBy, WorkedBy, Core, CoverOk, GoodConfig;
    if i == 0 {
      PrimeBooks(cfg, rows, selected, homes);
    } else {
      AccountsAlways(cfg, rows, selected, homes, states, moves, i - 1, sid);
      InvAlways(cfg, rows, selected, homes, states, moves, i - 1);
      var tau :| Core(cfg, states[i - 1], tau, {});
      StepAccounts(cfg, states[i - 1], tau, moves[i - 1].event, moves[i - 1].choice, states[i], sid);
      assert states[..i + 1][..i] == states[..i];
    }
  }

  // ------------------------------------------------------------------
  // The utilisation window
  // ------------------------------------------------------------------

  /** The window began now, with the busy time of now. */
  predicate WindowBegins(s: State) {
    s.windowStart == s.now && forall sid :: sid in s.servers ==> s.servers[sid].busyAtWindow == s.servers[sid].busy
  }

  predicate SameWindow(s: State, r: State) {
    && r.windowStart == s.windowStart && r.servers.Keys == s.servers.Keys
    && forall sid :: sid in s.servers ==> r.servers[sid].busyAtWindow == s.servers[sid].busyAtWindow
  }

  /** A tick starts a new window, every other event leaves the window as it is. */
  lemma HandleWindow(cfg: Config, p: State, kind: Kind, choice: Choice)
    requires GoodConfig(cfg) && Linked(cfg, p) && KindLinked(cfg, kind) && ChoiceLinked(cfg, p, choice)
    ensures if kind.DecisionTick? then WindowBegins(Handle(cfg, p, kind, choice))
            else SameWindow(p, Handle(cfg, p, kind, choice))
  {
    hide HandleTick, GoodConfig, Linked;
    if kind.DecisionTick? {
      TickWindow(cfg, p, choice);
    } else {
      hide Handle;
      HandleWindowKept(cfg, p, kind, choice);
    }
  }

  /** Other events leave clock and window alone. */
  lemma HandleWindowKept(cfg: Config, p: State, kind: Kind, choice: Choice)
    requires GoodConfig(cfg) && Linked(cfg, p) && KindLinked(cfg, kind) && ChoiceLinked(cfg, p, choice)
    requires !kind.DecisionTick?
    ensures SameWindow(p, Handle(cfg, p, kind, choice)) && Handle(cfg, p, kind, choice).now == p.now
  {
    hide HandleRouted, HandleBootDone, HandleReady, HandleDrainDone, HandleGone, RoutingDelay, GoodConfig, HandleTick;
    assert forall sid :: sid in p.servers ==> InStore(p, sid);
    match kind
    case Routed(req) => RoutedIsChange(cfg, p, req, choice.selected);
    case BootDone(sid) => BootDoneWindow(cfg, p, sid, choice.order);
    case DrainDone(sid) => DrainDoneWindow(cfg, p, sid);
    case ReplicaReady(slot, _) => ReadyWindow(cfg, p, slot);
    case ReplicaGone(slot, _) => GoneWindow(p, slot);
    case _ =>
  }

  lemma BootDoneWindow(cfg: Config, p: State, sid: int, order: seq<int>)
    requires InStore(p, sid)
    ensures SameWindow(p, HandleBootDone(cfg, p, sid, order)) && HandleBootDone(cfg, p, sid, order).now == p.now
  {
    BootDoneShape(cfg, p, sid, order);
  }

  lemma DrainDoneWindow(cfg: Config, p: State, sid: int)
    requires InStore(p, sid)
    ensures SameWindow(p, HandleDrainDone(cfg, p, sid)) && HandleDrainDone(cfg, p, sid).now == p.now
  {
    hide AllTerminated;
  }

  lemma ReadyWindow(cfg: Config, p: State, slot: Slot)
    requires slot.server in p.servers && forall sid :: sid in p.servers ==> InStore(p, sid)
    ensures SameWindow(p, HandleReady(cfg, p, slot)) && HandleReady(cfg, p, slot).now == p.now
  {
    hide Retire;
  }

  lemma GoneWindow(p: State, slot: Slot)
    requires slot.server in p.servers
    requires slot.service in p.servers[slot.server].hosted ==>
               At(p, slot.server, slot.service) < |p.objects| && slot.service in p.byService
    ensures SameWindow(p, HandleGone(p, slot)) && HandleGone(p, slot).now == p.now
  {
    hide Without;
  }

  lemma TickWindow(cfg: Config, p: State, choice: Choice)
    requires GoodConfig(cfg) && Linked(cfg, p) && ChoiceLinked(cfg, p, choice)
    ensures WindowBegins(Push(HandleTick(cfg, p, choice), p.now + cfg.delays.interval, DecisionTick))
  {
    hide ApplyProvision, ScaleAll;
    var s1 := ApplyProvision(cfg, p.(ticks := p.ticks + 1), choice.provision);
    var s2 := ScaleAll(cfg, s1, choice.scaling);
    assert HandleTick(cfg, p, choice) == ResetWindow(s2);
  }

  /** The window of a state began in this earlier state of the run. */
  predicate WindowFrom(s: State, start: State) {
    && s.windowStart == start.now && s.servers.Keys == start.servers.Keys
    && forall sid :: sid in s.servers ==> s.servers[sid].busyAtWindow == start.servers[sid].busy
  }

  lemma WindowCarries(cfg: Config, s: State, k: nat, choice: Choice, r: State)
    requires IsStep(cfg, s, k, choice, r)
    ensures if s.heap[k].kind.DecisionTick? then WindowBegins(r) else SameWindow(s, r)
  {
    hide GoodConfig, Linked, ChoiceOk, Handle, Metered;
    StepParts(cfg, s, k, choice, r);
    HandleWindow(cfg, Popped(cfg, s, k), s.heap[k].kind, choice);
  }

  /** In every state of every run the window began in some earlier state j, so
      the windowed utilisation is the average load since j over the capacity. */
  lemma {:induction false} WindowAlways(cfg: Config, rows: seq<Row>, selected: seq<int>, homes: seq<Slot>,
                                        states: seq<State>, moves: seq<Move>, i: nat) returns (j: nat)
    requires IsHistory(cfg, rows, selected, homes, states, moves) && i < |states|
    ensures j <= i && WindowFrom(states[i], states[j])
  {
    hide Prime, IsStep, GoodConfig, GoodStart;
    if i == 0 {
      PrimeWindow(cfg, rows, selected, homes);
      j := 0;
    } else {
      j := WindowAlways(cfg, rows, selected, homes, states, moves, i - 1);
      var move := moves[i - 1];
      assert IsStep(cfg, states[i - 1], move.event, move.choice, states[i]);
      StepParts(cfg, states[i - 1], move.event, move.choice, states[i]);
      WindowCarries(cfg, states[i - 1], move.event, move.choice, states[i]);
      if states[i - 1].heap[move.event].kind.DecisionTick? {
        j := i;
      }
    }
  }

  lemma PrimeWindow(cfg: Config, rows: seq<Row>, selected: seq<int>, homes: seq<Slot>)
    requires GoodStart(cfg, rows, selected, homes)
    ensures WindowFrom(Prime(cfg, rows, selected, homes), Prime(cfg, rows, selected, homes))
  {
    PrimeBooks(cfg, rows, selected, homes);
    hide BooksOk, Metering;
    var s1 := PushArrivals(Blank(cfg, rows), rows);
    PushArrivalsFrame(Blank(cfg, rows), rows);
    BootAllLinked(cfg, s1, selected);
    BootAllWindow(cfg, s1, selected);
    HomeAllWindow(cfg, BootAll(cfg, s1, selected), homes);
  }

  lemma {:induction false} BootAllWindow(cfg: Config, s: State, selected: seq<int>)
    requires forall i :: 0 <= i < |selected| ==> selected[i] in s.servers
    ensures SameWindow(s, BootAll(cfg, s, selected)) && BootAll(cfg, s, selected).now == s.now
    decreases |selected|
  {
    if selected != [] {
      BootAllWindow(cfg, s, selected[..|selected| - 1]);
    }
  }

  lemma {:induction false} HomeAllWindow(cfg: Config, s: State, homes: seq<Slot>)
    requires GoodConfig(cfg) && Linked(cfg, s) && HomesInBounds(cfg, homes)
    ensures SameWindow(s, HomeAll(cfg, s, homes)) && HomeAll(cfg, s, homes).now == s.now
    decreases |homes|
  {
    hide GoodConfig, Place, Linked;
    if homes != [] {
      var n := |homes| - 1;
      HomeAllWindow(cfg, s, homes[..n]);
      var m := HomeAll(cfg, s, homes[..n]);
      KnownServer(cfg, m, homes, n);
      PlaceWindow(cfg, m, homes[n].server, homes[n].service);
    }
  }

  lemma PlaceWindow(cfg: Config, s: State, sid: int, svc: int)
    requires GoodConfig(cfg) && Linked(cfg, s) && sid in s.servers && svc in cfg.services
    ensures SameWindow(s, Place(cfg, s, sid, svc).0) && Place(cfg, s, sid, svc).0.now == s.now
  {
    hide GoodConfig, CanHost, Linked;
  }

  /** The average the snapshot reports for the elapsed window. */
  function WindowedUtilization(cfg: Config, s: State, sid: int): real
    requires sid in s.servers && sid in cfg.servers && cfg.servers[sid].capacity > 0 && s.now > s.windowStart
  {
    AverageOver(s.servers[sid].busy - s.servers[sid].busyAtWindow, cfg.servers[sid].capacity as real,
                s.now - s.windowStart)
  }

  function AverageOver(work: real, capacity: real, span: real): real
    requires capacity > 0.0 && span > 0.0
  {
    PositiveProduct(capacity, span);
    work / (capacity * span)
  }

  lemma AverageInUnit(work: real, capacity: real, span: real)
    requires capacity > 0.0 && span > 0.0 && 0.0 <= work <= capacity * span
    ensures 0.0 <= AverageOver(work, capacity, span) <= 1.0
  {
    PositiveProduct(capacity, span);
    Ratio(work, capacity * span);
  }

  /** Windowed utilisation lies in [0, 1]. */
  lemma WindowedUtilizationInUnit(cfg: Config, s: State, tau: real, handled: set<Kind>, sid: int)
    requires Core(cfg, s, tau, handled) && sid in s.servers && s.now > s.windowStart
    ensures sid in cfg.servers && cfg.servers[sid].capacity > 0
    ensures 0.0 <= WindowedUtilization(cfg, s, sid) <= 1.0
  {
    hide SlotsOk, IndexOk, CapacityOk, PhasesOk, EventsOk, UniqueOk, GonePairsOk, ServersArmed, SlotsArmed,
      PendingOk, RescueOk, QueuesOk, DrainBoundOk, CoverOk, HandledOk, AverageOver;
    assert MeterOk(cfg, s, sid) && GoodServer(cfg, cfg.servers[sid]);
    AverageInUnit(s.servers[sid].busy - s.servers[sid].busyAtWindow, cfg.servers[sid].capacity as real,
                  s.now - s.windowStart);
  }
}
