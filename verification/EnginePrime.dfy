/** The initial state of a run satisfies the invariant. */
module EnginePrime {
  import opened Settings
  import opened ReplicaQueues
  import opened EngineModel
  import opened EngineInvariants
  import opened EngineClock
  import opened EngineOps
  import opened EngineBoot
  import opened EnginePlace
  import opened EngineHandlers
  import opened EngineRuns

  lemma {:induction false} EarliestIsEarliest(rows: seq<Row>)
    ensures forall i :: 0 <= i < |rows| ==> EarliestTime(rows) <= rows[i].time
    ensures (forall i :: 0 <= i < |rows| ==> rows[i].time >= 0.0) ==> EarliestTime(rows) >= 0.0
    decreases |rows|
  {
    if |rows| > 1 {
      EarliestIsEarliest(rows[..|rows| - 1]);
    }
  }

  lemma {:induction false} LatestIsLatest(rows: seq<Row>)
    ensures forall i :: 0 <= i < |rows| ==> rows[i].time <= LatestTime(rows)
    decreases |rows|
  {
    if |rows| > 1 {
      LatestIsLatest(rows[..|rows| - 1]);
    }
  }

  lemma BlankLinked(cfg: Config, rows: seq<Row>)
    ensures Linked(cfg, Blank(cfg, rows))
  {
  }

  /** Before anything is pushed. */
  lemma BlankKeeps(cfg: Config, rows: seq<Row>)
    requires GoodConfig(cfg) && GoodRows(cfg, rows)
    ensures Core(cfg, Blank(cfg, rows), EarliestTime(rows), {DecisionTick}) && CoverOk(Blank(cfg, rows))
  {
    var s := Blank(cfg, rows);
    BlankLinked(cfg, rows);
    EarliestIsEarliest(rows);
    forall sid | sid in s.servers && sid in cfg.servers
      ensures UsedCpu(cfg, s, sid) <= cfg.servers[sid].capacity && MeterOk(cfg, s, sid)
    {
      assert GoodServer(cfg, cfg.servers[sid]);
      assert s.servers[sid].hosted.Keys == {};
    }
  }

  lemma {:induction false} ArrivalsKeep(cfg: Config, s: State, tau: real, rows: seq<Row>)
    requires Core(cfg, s, tau, {DecisionTick}) && CoverOk(s)
    requires forall i :: 0 <= i < |rows| ==> rows[i].service in cfg.services && s.now <= rows[i].time
    ensures Core(cfg, PushArrivals(s, rows), tau, {DecisionTick}) && CoverOk(PushArrivals(s, rows))
    decreases |rows|
  {
    hide Core, CoverOk;
    if rows != [] {
      var n := |rows| - 1;
      ArrivalsKeep(cfg, s, tau, rows[..n]);
      PushArrivalsFrame(s, rows[..n]);
      PushQuiet(cfg, PushArrivals(s, rows[..n]), tau, {DecisionTick}, rows[n].time,
                Arrival(rows[n].at, rows[n].service));
    }
  }

  /** Only arrivals and boots are scheduled yet, and the selected servers boot. */
  ghost predicate Priming(s: State, selected: seq<int>) {
    && s.ticks == 0
    && (forall k :: k in s.heap ==> !s.heap[k].kind.ReplicaGone?)
    && (forall i :: 0 <= i < |selected| ==> selected[i] in s.servers && s.servers[selected[i]].phase == Booting)
  }

  lemma {:induction false} PushArrivalsPriming(s: State, rows: seq<Row>)
    requires s.heap == map[] && s.ticks == 0
    ensures Priming(PushArrivals(s, rows), [])
    decreases |rows|
  {
    if rows != [] {
      PushArrivalsPriming(s, rows[..|rows| - 1]);
    }
  }

  lemma BootOnePriming(cfg: Config, s: State, selected: seq<int>, sid: int)
    requires Priming(s, selected) && sid in s.servers
    requires s.servers[sid].phase in {Off, Booting}
    ensures Priming(StartBoot(cfg, s, sid, false), selected + [sid])
  {
  }

  lemma BootOneKeeps(cfg: Config, s: State, tau: real, sid: int)
    requires Core(cfg, s, tau, {DecisionTick}) && CoverOk(s) && s.ticks == 0 && sid in s.servers
    ensures Core(cfg, StartBoot(cfg, s, sid, false), tau, {DecisionTick}) && CoverOk(StartBoot(cfg, s, sid, false))
    ensures s.servers[sid].phase in {Off, Booting}
  {
    assert TimesOk(s, tau);
    hide Core, CoverOk;
    if s.servers[sid].phase == Off {
      StartBootKeeps(cfg, s, s, tau, {DecisionTick}, sid, false, 0);
    }
  }

  lemma {:induction false} BootsKeep(cfg: Config, s: State, tau: real, selected: seq<int>)
    requires Core(cfg, s, tau, {DecisionTick}) && CoverOk(s) && Priming(s, [])
    requires forall i :: 0 <= i < |selected| ==> selected[i] in s.servers
    ensures Core(cfg, BootAll(cfg, s, selected), tau, {DecisionTick}) && CoverOk(BootAll(cfg, s, selected))
    ensures Priming(BootAll(cfg, s, selected), selected)
    decreases |selected|
  {
    hide Core, CoverOk, StartBoot, Priming;
    if selected != [] {
      var n := |selected| - 1;
      BootsKeep(cfg, s, tau, selected[..n]);
      var m := BootAll(cfg, s, selected[..n]);
      assert m.ticks == 0 by {
        PrimingTicks(m, selected[..n]);
      }
      BootOneKeeps(cfg, m, tau, selected[n]);
      BootOnePriming(cfg, m, selected[..n], selected[n]);
      assert selected[..n] + [selected[n]] == selected;
    }
  }

  lemma PrimingTicks(s: State, selected: seq<int>)
    requires Priming(s, selected)
    ensures s.ticks == 0
  {
  }

  lemma HomeOneKeeps(cfg: Config, s: State, tau: real, selected: seq<int>, home: Slot)
    requires Core(cfg, s, tau, {DecisionTick}) && CoverOk(s) && Priming(s, selected)
    requires home.server in selected && home.service in cfg.services
    ensures Core(cfg, Place(cfg, s, home.server, home.service).0, tau, {DecisionTick})
    ensures CoverOk(Place(cfg, s, home.server, home.service).0)
    ensures Priming(Place(cfg, s, home.server, home.service).0, selected)
  {
    hide SlotsOk, IndexOk, CapacityOk, PhasesOk, EventsOk, UniqueOk, GonePairsOk, ServersArmed, SlotsArmed,
      PendingOk, RescueOk, QueuesOk, MetersOk, DrainBoundOk, CoverOk, HandledOk;
    if CanHost(cfg, s, home.server, home.service) {
      assert Vacant(s, home.server, home.service);
      PlaceKeeps(cfg, s, tau, {DecisionTick}, home.server, home.service);
    }
  }

  lemma {:induction false} HomesKeep(cfg: Config, s: State, tau: real, selected: seq<int>, homes: seq<Slot>)
    requires Core(cfg, s, tau, {DecisionTick}) && CoverOk(s) && Priming(s, selected)
    requires HomesInBounds(cfg, homes) && forall i :: 0 <= i < |homes| ==> homes[i].server in selected
    requires GoodConfig(cfg) && Linked(cfg, s)
    ensures Core(cfg, HomeAll(cfg, s, homes), tau, {DecisionTick}) && CoverOk(HomeAll(cfg, s, homes))
    ensures Priming(HomeAll(cfg, s, homes), selected)
    decreases |homes|
  {
    hide Core, CoverOk, Place, Priming, GoodConfig, Linked;
    if homes != [] {
      var n := |homes| - 1;
      HomesKeep(cfg, s, tau, selected, homes[..n]);
      HomeOneKeeps(cfg, HomeAll(cfg, s, homes[..n]), tau, selected, homes[n]);
    }
  }

  lemma FirstTickKeeps(cfg: Config, s: State, tau: real)
    requires Core(cfg, s, tau, {DecisionTick}) && CoverOk(s)
    ensures Core(cfg, Push(s, tau, DecisionTick), tau, {}) && CoverOk(Push(s, tau, DecisionTick))
  {
    hide SlotsOk, IndexOk, CapacityOk, PhasesOk, EventsOk, UniqueOk, GonePairsOk, ServersArmed, SlotsArmed,
      PendingOk, RescueOk, QueuesOk, MetersOk, DrainBoundOk, CoverOk, HandledOk;
    PushKeeps(cfg, s, tau, {DecisionTick}, tau, DecisionTick);
    assert {DecisionTick} - {DecisionTick} == {};
  }

  /** `prime` establishes the invariant. */
  lemma PrimeEstablishes(cfg: Config, rows: seq<Row>, selected: seq<int>, homes: seq<Slot>)
    requires GoodStart(cfg, rows, selected, homes)
    ensures Core(cfg, Prime(cfg, rows, selected, homes), EarliestTime(rows), {})
    ensures CoverOk(Prime(cfg, rows, selected, homes))
  {
    hide Core, CoverOk, Priming;
    var s0 := Blank(cfg, rows);
    var tau := EarliestTime(rows);
    EarliestIsEarliest(rows);
    BlankKeeps(cfg, rows);
    ArrivalsKeep(cfg, s0, tau, rows);
    PushArrivalsFrame(s0, rows);
    PushArrivalsPriming(s0, rows);
    var s1 := PushArrivals(s0, rows);
    BootsKeep(cfg, s1, tau, selected);
    BootAllLinked(cfg, s1, selected);
    var s2 := BootAll(cfg, s1, selected);
    HomesKeep(cfg, s2, tau, selected, homes);
    FirstTickKeeps(cfg, HomeAll(cfg, s2, homes), tau);
  }

  /** A run of the engine from its initial state. */
  ghost predicate IsHistory(cfg: Config, rows: seq<Row>, selected: seq<int>, homes: seq<Slot>,
                            states: seq<State>, moves: seq<Move>) {
    && GoodStart(cfg, rows, selected, homes)
    && IsRun(cfg, states, moves) && states[0] == Prime(cfg, rows, selected, homes)
  }

  /** The invariant holds in every state of every run. */
  lemma InvAlways(cfg: Config, rows: seq<Row>, selected: seq<int>, homes: seq<Slot>,
                  states: seq<State>, moves: seq<Move>, i: nat)
    requires IsHistory(cfg, rows, selected, homes, states, moves) && i < |states|
    ensures Inv(cfg, states[i])
  {
    hide Inv, Prime;
    PrimeInv(cfg, rows, selected, homes);
    RunKeeps(cfg, states, moves, i);
  }

  lemma PrimeInv(cfg: Config, rows: seq<Row>, selected: seq<int>, homes: seq<Slot>)
    requires GoodStart(cfg, rows, selected, homes)
    ensures Inv(cfg, Prime(cfg, rows, selected, homes))
  {
    hide SlotsOk, IndexOk, CapacityOk, PhasesOk, EventsOk, UniqueOk, GonePairsOk, ServersArmed, SlotsArmed,
      PendingOk, RescueOk, QueuesOk, MetersOk, DrainBoundOk, CoverOk, HandledOk;
    PrimeEstablishes(cfg, rows, selected, homes);
  }
}
