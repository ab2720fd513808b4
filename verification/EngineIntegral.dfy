/** Energy over whole runs: the meters give the integral of instantaneous power, as
    any sampling of it shows, and reading them at further times changes no state. */
module EngineIntegral {
  import opened Settings
  import opened ReplicaQueues
  import opened EngineModel
  import opened EngineInvariants
  import opened EngineClock
  import opened EngineRuns
  import opened EnginePrime
  import opened EngineLedger
  import opened EngineEnergy
  import opened EngineAccounts

  // ------------------------------------------------------------------
  // Any sampling of power over a run
  // ------------------------------------------------------------------

  /** The times at which power is sampled from one state of a run to the next. */
  datatype Sampling = Sampling(points: seq<real>, tags: seq<real>)

  /** A partition of the time from state i to the next, with a tag in each part. */
  predicate Samples(states: seq<State>, i: nat, sampling: Sampling)
    requires i + 1 < |states|
  {
    && Partition(sampling.points, sampling.tags)
    && sampling.points[0] == states[i].now && sampling.points[|sampling.tags|] == states[i + 1].now
  }

  ghost predicate Sampled(states: seq<State>, samplings: seq<Sampling>) {
    && |states| == |samplings| + 1
    && forall i :: 0 <= i < |samplings| ==> Samples(states, i, samplings[i])
  }

  /** Power at the tags times the length of the parts, in one state. */
  ghost function PartSum(cfg: Config, s: State, sid: int, sampling: Sampling): real {
    if GoodConfig(cfg) && InStore(s, sid) && sid in cfg.servers && |sampling.points| == |sampling.tags| + 1
    then WeightedSum(Readings(cfg, s, sid, sampling.tags), sampling.points) else 0.0
  }

  /** The Riemann sum of a server's instantaneous power over a run. */
  ghost function RiemannSum(cfg: Config, states: seq<State>, samplings: seq<Sampling>, sid: int): real
    requires |states| == |samplings| + 1
    decreases |samplings|
  {
    if samplings == [] then 0.0
    else
      var n := |samplings| - 1;
      RiemannSum(cfg, states[..n + 1], samplings[..n], sid) + PartSum(cfg, states[n], sid, samplings[n])
  }

  /** Nothing happens between a state and the next event. */
  lemma StepIsQuiet(cfg: Config, s: State, tau: real, k: nat, choice: Choice, r: State)
    requires Core(cfg, s, tau, {}) && CoverOk(s) && IsStep(cfg, s, k, choice, r)
    ensures k in s.heap && r.now == s.heap[k].time && Quiet(s, r.now)
  {
    hide Core, CoverOk, IsStep, WasLegitimate, Handle, Popped, GoodConfig, Linked, ChoiceLinked, KindLinked;
    StepParts(cfg, s, k, choice, r);
    PoppedKeeps(cfg, s, tau, k);
    HandleNow(cfg, Popped(cfg, s, k), s.heap[k].kind, choice);
    forall j | j in s.heap ensures s.heap[k].time <= s.heap[j].time {
      assert Before(s.heap, k, j);
    }
  }

  /** Over one step, every sum is what the engine draws by its single reading. */
  lemma StepSum(cfg: Config, s: State, tau: real, k: nat, choice: Choice, r: State, sid: int, sampling: Sampling)
    requires Core(cfg, s, tau, {}) && CoverOk(s) && IsStep(cfg, s, k, choice, r) && sid in cfg.servers
    requires Partition(sampling.points, sampling.tags)
    requires sampling.points[0] == s.now && sampling.points[|sampling.tags|] == r.now
    ensures PartSum(cfg, s, sid, sampling) == DrawnBy(cfg, s, sid, r.now)
  {
    hide Core, CoverOk, IsStep, Power, Quiet, Partition, WeightedSum, GoodConfig;
    StepIsQuiet(cfg, s, tau, k, choice, r);
    CoreParts(cfg, s, tau, {});
    ServerInStore(cfg, s, sid);
    PartitionLength(sampling);
    PowerIntegral(cfg, s, r.now, sid, sampling.points, sampling.tags);
  }

  lemma PartitionLength(sampling: Sampling)
    requires Partition(sampling.points, sampling.tags)
    ensures |sampling.points| == |sampling.tags| + 1
  {
  }

  lemma ServerInStore(cfg: Config, s: State, sid: int)
    requires Linked(cfg, s) && sid in cfg.servers
    ensures InStore(s, sid)
  {
    assert HostLinked(cfg, s.servers[sid].hosted, |s.objects|);
  }

  lemma {:induction false} DrawnIsRiemannSum(cfg: Config, rows: seq<Row>, selected: seq<int>, homes: seq<Slot>,
                                             states: seq<State>, moves: seq<Move>, samplings: seq<Sampling>,
                                             sid: int, i: nat)
    requires IsHistory(cfg, rows, selected, homes, states, moves) && Sampled(states, samplings) && sid in cfg.servers
    requires i < |states| && |states| == |moves| + 1
    ensures RiemannSum(cfg, states[..i + 1], samplings[..i], sid) == Drawn(cfg, states[..i + 1], sid)
    decreases i
  {
    hide Prime, IsStep, Core, CoverOk, GoodStart, DrawnBy, PartSum, Partition;
    if i > 0 {
      DrawnIsRiemannSum(cfg, rows, selected, homes, states, moves, samplings, sid, i - 1);
      assert states[..i + 1][..i] == states[..i] && samplings[..i][..i - 1] == samplings[..i - 1];
      InvAlways(cfg, rows, selected, homes, states, moves, i - 1);
      var tau :| Core(cfg, states[i - 1], tau, {});
      assert Samples(states, i - 1, samplings[i - 1]);
      assert IsStep(cfg, states[i - 1], moves[i - 1].event, moves[i - 1].choice, states[i]);
      StepSum(cfg, states[i - 1], tau, moves[i - 1].event, moves[i - 1].choice, states[i], sid, samplings[i - 1]);
    }
  }

  /** In every run a server's energy is its boots, its pod creations and any Riemann
      sum of its instantaneous power over the whole run: the true integral. */
  lemma EnergyIsAnyRiemannSum(cfg: Config, rows: seq<Row>, selected: seq<int>, homes: seq<Slot>,
                              states: seq<State>, moves: seq<Move>, samplings: seq<Sampling>, sid: int)
    requires IsHistory(cfg, rows, selected, homes, states, moves) && Sampled(states, samplings) && sid in cfg.servers
    ensures states != [] && sid in states[|states| - 1].servers
    ensures var s := states[|states| - 1];
            s.servers[sid].energy
            == cfg.bootJoule * s.servers[sid].boots as real + cfg.podJoule * CreatedOn(s.objects, sid) as real
               + RiemannSum(cfg, states, samplings, sid)
  {
    hide Prime, IsStep, GoodStart, BooksOk, CreatedOn, Drawn, Worked, RiemannSum;
    var n := |states| - 1;
    AccountsAlways(cfg, rows, selected, homes, states, moves, n, sid);
    DrawnIsRiemannSum(cfg, rows, selected, homes, states, moves, samplings, sid, n);
    assert states[..n + 1] == states && samplings[..n] == samplings;
  }

  // ------------------------------------------------------------------
  // Windowed utilisation is an average
  // ------------------------------------------------------------------

  /** Load at the tags times the length of the parts, in one state. */
  ghost function LoadPart(cfg: Config, s: State, sid: int, sampling: Sampling): real {
    if GoodConfig(cfg) && InStore(s, sid) && sid in cfg.servers && |sampling.points| == |sampling.tags| + 1
    then WeightedSum(LoadReadings(cfg, s, sid, sampling.tags), sampling.points) else 0.0
  }

  /** The Riemann sum of a server's load from state j of a run to state i. */
  ghost function LoadSum(cfg: Config, states: seq<State>, samplings: seq<Sampling>, sid: int, j: nat, i: nat): real
    requires i < |states| == |samplings| + 1
    decreases i
  {
    if i <= j then 0.0
    else LoadSum(cfg, states, samplings, sid, j, i - 1) + LoadPart(cfg, states[i - 1], sid, samplings[i - 1])
  }

  lemma StepLoad(cfg: Config, s: State, tau: real, k: nat, choice: Choice, r: State, sid: int, sampling: Sampling)
    requires Core(cfg, s, tau, {}) && CoverOk(s) && IsStep(cfg, s, k, choice, r) && sid in cfg.servers
    requires Partition(sampling.points, sampling.tags)
    requires sampling.points[0] == s.now && sampling.points[|sampling.tags|] == r.now
    ensures LoadPart(cfg, s, sid, sampling) == WorkedBy(cfg, s, sid, r.now)
  {
    hide Core, CoverOk, IsStep, Load, Quiet, Partition, WeightedSum, GoodConfig;
    StepIsQuiet(cfg, s, tau, k, choice, r);
    CoreParts(cfg, s, tau, {});
    ServerInStore(cfg, s, sid);
    PartitionLength(sampling);
    LoadIntegral(cfg, s, r.now, sid, sampling.points, sampling.tags);
  }

  /** The busy time gained between two states is any Riemann sum of the load. */
  lemma {:induction false} BusyIsLoadSum(cfg: Config, rows: seq<Row>, selected: seq<int>, homes: seq<Slot>,
                                         states: seq<State>, moves: seq<Move>, samplings: seq<Sampling>, sid: int,
                                         j: nat, i: nat)
    requires IsHistory(cfg, rows, selected, homes, states, moves) && Sampled(states, samplings) && sid in cfg.servers
    requires j <= i < |states| && |states| == |moves| + 1
    ensures sid in states[j].servers && sid in states[i].servers
    ensures LoadSum(cfg, states, samplings, sid, j, i) == states[i].servers[sid].busy - states[j].servers[sid].busy
    decreases i
  {
    hide Prime, IsStep, Core, CoverOk, GoodStart, WorkedBy, DrawnBy, LoadPart, Partition, BooksOk, Metering, GoodConfig;
    InvAlways(cfg, rows, selected, homes, states, moves, j);
    var tau :| Core(cfg, states[j], tau, {});
    CoreServers(cfg, states[j], tau);
    if j < i {
      BusyIsLoadSum(cfg, rows, selected, homes, states, moves, samplings, sid, j, i - 1);
      InvAlways(cfg, rows, selected, homes, states, moves, i - 1);
      var next :| Core(cfg, states[i - 1], next, {});
      assert Samples(states, i - 1, samplings[i - 1]);
      assert IsStep(cfg, states[i - 1], moves[i - 1].event, moves[i - 1].choice, states[i]);
      StepLoad(cfg, states[i - 1], next, moves[i - 1].event, moves[i - 1].choice, states[i], sid, samplings[i - 1]);
      StepAccounts(cfg, states[i - 1], next, moves[i - 1].event, moves[i - 1].choice, states[i], sid);
    }
  }

  lemma CoreServers(cfg: Config, s: State, tau: real)
    requires Core(cfg, s, tau, {})
    ensures GoodConfig(cfg) && s.servers.Keys == cfg.servers.Keys
  {
  }

  /** In every run, windowed utilisation is the average of instantaneous
      utilisation over the window: capacity times elapsed time times its value is
      any Riemann sum of the load since the state in which the window began. */
  lemma WindowedUtilizationIsAverage(cfg: Config, rows: seq<Row>, selected: seq<int>, homes: seq<Slot>,
                                     states: seq<State>, moves: seq<Move>, samplings: seq<Sampling>, sid: int, i: nat)
    returns (j: nat)
    requires IsHistory(cfg, rows, selected, homes, states, moves) && Sampled(states, samplings) && sid in cfg.servers
    requires i < |states| && states[i].now > states[i].windowStart
    ensures j <= i && WindowFrom(states[i], states[j]) && states[j].now == states[i].windowStart
    ensures sid in states[i].servers && cfg.servers[sid].capacity > 0
    ensures cfg.servers[sid].capacity as real * (states[i].now - states[i].windowStart)
            * WindowedUtilization(cfg, states[i], sid)
            == LoadSum(cfg, states, samplings, sid, j, i)
  {
    hide Prime, IsRun, GoodStart, LoadSum, Sampled, AverageOver, GoodConfig, Core, CoverOk;
    j := WindowAlways(cfg, rows, selected, homes, states, moves, i);
    RunLength(cfg, states, moves);
    BusyIsLoadSum(cfg, rows, selected, homes, states, moves, samplings, sid, j, i);
    InvAlways(cfg, rows, selected, homes, states, moves, i);
    var tau :| Core(cfg, states[i], tau, {});
    CoreServers(cfg, states[i], tau);
    CapacityPositive(cfg, sid);
    var s := states[i];
    AverageTimes(s.servers[sid].busy - s.servers[sid].busyAtWindow, cfg.servers[sid].capacity as real,
                 s.now - s.windowStart);
  }

  lemma RunLength(cfg: Config, states: seq<State>, moves: seq<Move>)
    requires IsRun(cfg, states, moves)
    ensures |states| == |moves| + 1
  {
  }

  lemma CapacityPositive(cfg: Config, sid: int)
    requires GoodConfig(cfg) && sid in cfg.servers
    ensures cfg.servers[sid].capacity > 0
  {
    assert GoodServer(cfg, cfg.servers[sid]);
  }

  lemma AverageTimes(work: real, capacity: real, span: real)
    requires capacity > 0.0 && span > 0.0
    ensures capacity * span * AverageOver(work, capacity, span) == work
  {
    PositiveProduct(capacity, span);
    var whole := capacity * span;
    assert whole * (work / whole) == work;
  }

  // ------------------------------------------------------------------
  // Extra readings anywhere
  // ------------------------------------------------------------------

  /** Reading the meters at each of these times in turn. */
  ghost function AdvanceThrough(cfg: Config, s: State, times: seq<real>): (r: State)
    requires GoodConfig(cfg) && Linked(cfg, s)
    ensures Linked(cfg, r)
    decreases |times|
  {
    if times == [] then s
    else Advance(cfg, AdvanceThrough(cfg, s, times[..|times| - 1]), times[|times| - 1])
  }

  predicate Ascends(from: real, times: seq<real>) {
    Ascending(times) && forall i :: 0 <= i < |times| ==> from <= times[i]
  }

  /** However many readings, only the last one counts. */
  lemma {:induction false} OnlyTheLastCounts(cfg: Config, s: State, until: real, times: seq<real>)
    requires GoodConfig(cfg) && Linked(cfg, s) && QueuesOk(s) && MetersOk(cfg, s) && Quiet(s, until)
    requires times != [] && Ascends(s.now, times) && times[|times| - 1] <= until
    ensures AdvanceThrough(cfg, s, times) == Advance(cfg, s, times[|times| - 1])
    decreases |times|
  {
    hide Advance, GoodConfig, Linked, QueuesOk, MetersOk, Quiet;
    var n := |times| - 1;
    if n == 0 {
      assert times[..0] == [];
    } else {
      assert times[n - 1] <= times[n];
      assert Ascends(s.now, times[..n]);
      OnlyTheLastCounts(cfg, s, until, times[..n]);
      ExtraSyncUnobservable(cfg, s, until, times[n - 1], times[n]);
    }
  }

  /** In every run, readings inserted before any event leave the state in which that
      event is handled, and so all later states, as they are. */
  lemma SyncsChangeNothing(cfg: Config, rows: seq<Row>, selected: seq<int>, homes: seq<Slot>,
                           states: seq<State>, moves: seq<Move>, i: nat, times: seq<real>)
    requires IsHistory(cfg, rows, selected, homes, states, moves) && i < |moves| && i < |states|
    requires GoodConfig(cfg) && Linked(cfg, states[i]) && moves[i].event in states[i].heap
    requires var t := states[i].heap[moves[i].event].time;
             Ascends(states[i].now, times) && (times != [] ==> times[|times| - 1] <= t)
    ensures Pop(AdvanceThrough(cfg, states[i], times + [states[i].heap[moves[i].event].time]), moves[i].event)
            == Popped(cfg, states[i], moves[i].event)
  {
    hide Prime, IsStep, Core, CoverOk, GoodStart, Advance, Popped, GoodConfig, Linked, Quiet, QueuesOk, MetersOk,
      EngineModel.Pop, AdvanceThrough;
    var s, k := states[i], moves[i].event;
    InvAlways(cfg, rows, selected, homes, states, moves, i);
    var tau :| Core(cfg, s, tau, {});
    assert IsStep(cfg, s, k, moves[i].choice, states[i + 1]);
    StepIsQuiet(cfg, s, tau, k, moves[i].choice, states[i + 1]);
    CoreParts(cfg, s, tau, {});
    var t := s.heap[k].time;
    var all := times + [t];
    assert s.now <= t by {
      QuietNow(s, t);
    }
    assert Ascends(s.now, all) by {
      forall a, b | 0 <= a < b < |all| ensures all[a] <= all[b] {
        assert times != [] ==> times[a] <= times[|times| - 1];
      }
    }
    OnlyTheLastCounts(cfg, s, t, all);
    PopCommutes(cfg, s, k);
  }

  lemma QuietNow(s: State, until: real)
    requires Quiet(s, until)
    ensures s.now <= until
  {
  }
}
