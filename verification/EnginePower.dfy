/** What power is: over each step of a run a server's energy grows as the linear power
    model of its phase and its busy replicas says, and a whole boot has a fixed price. */
module EnginePower {
  import opened Collections
  import opened Settings
  import opened ReplicaQueues
  import opened EngineModel
  import opened EngineInvariants
  import opened EngineClock
  import opened EngineDrain
  import opened EngineRuns
  import opened EnginePrime
  import opened EngineLedger
  import opened EngineAccounts
  import opened EngineLifecycle
  import opened EngineFrames
  import opened EngineDecisions

  /** The host serves v by a READY or leaving copy with a departure in the future. */
  ghost predicate IsBusy(s: State, sid: int, v: int) {
    && InSlot(s, sid, v) && At(s, sid, v) < |s.objects|
    && var r := s.objects[At(s, sid, v)];
       && (r.phase == Ready || r.phase == Leaving)
       && exists i :: 0 <= i < |r.queue.departures| && r.queue.departures[i] > s.now
  }

  /** The deque after popping is empty exactly when no departure is in the future. */
  lemma IdleWhenAllLeft(q: Queue, now: real)
    requires Consistent(q)
    ensures Occupancy(q, now) != 0 <==> exists i :: 0 <= i < |q.departures| && q.departures[i] > now
  {
    PendingIsTheFuture(q.departures, now);
    var n := |q.departures|;
    if Occupancy(q, now) != 0 {
      assert q.departures[n - 1] > now;
    }
  }

  lemma BusyAreBusy(cfg: Config, s: State, sid: int, v: int)
    requires Linked(cfg, s) && QueuesOk(s) && InStore(s, sid)
    ensures v in BusyServices(s, sid, s.now) <==> IsBusy(s, sid, v)
    ensures IsBusy(s, sid, v) ==> v in cfg.services
  {
    if v in s.servers[sid].hosted {
      var o := s.servers[sid].hosted[v];
      assert QueueOk(s, o) && HostLinked(cfg, s.servers[sid].hosted, |s.objects|);
      IdleWhenAllLeft(s.objects[o].queue, s.now);
    }
  }

  /** The busy services of a server, listed in any order. */
  ghost predicate ListsBusy(s: State, sid: int, busy: seq<int>) {
    Distinct(busy) && forall v :: v in busy <==> IsBusy(s, sid, v)
  }

  lemma BusyDemand(cfg: Config, s: State, sid: int, busy: seq<int>)
    requires GoodConfig(cfg) && Linked(cfg, s) && QueuesOk(s) && InStore(s, sid) && sid in cfg.servers
    requires ListsBusy(s, sid, busy)
    ensures forall v :: v in busy ==> v in cfg.services
    ensures CpuSum(cfg, sid, BusyServices(s, sid, s.now)) == Demand(cfg, sid, busy)
  {
    hide Linked, GoodConfig, QueuesOk, IsBusy, BusyServices;
    forall v
      ensures v in busy <==> v in BusyServices(s, sid, s.now)
      ensures v in busy ==> v in cfg.services
    {
      BusyAreBusy(cfg, s, sid, v);
    }
    CpuSumIsDemand(cfg, sid, BusyServices(s, sid, s.now), busy);
  }

  /** The energy that is not the price of boots and pod creations. */
  function OverTime(cfg: Config, s: State, sid: int): real
    requires sid in s.servers
  {
    s.servers[sid].energy - cfg.bootJoule * s.servers[sid].boots as real
    - cfg.podJoule * CreatedOn(s.objects, sid) as real
  }

  lemma PowerOf(cfg: Config, s: State, sid: int, busy: seq<int>)
    requires GoodConfig(cfg) && Linked(cfg, s) && QueuesOk(s) && InStore(s, sid) && sid in cfg.servers
    requires ListsBusy(s, sid, busy)
    ensures cfg.servers[sid].capacity > 0 && (forall v :: v in busy ==> v in cfg.services)
    ensures var spec, work := cfg.servers[sid], Demand(cfg, sid, busy) as real;
            && PowerNow(cfg, s, sid)
               == (match s.servers[sid].phase
                   case Off => 0.0
                   case Booting => spec.pIdle
                   case _ => spec.pIdle + (spec.pMax - spec.pIdle) * (work / spec.capacity as real))
            && LoadNow(cfg, s, sid) == work
  {
    BusyDemand(cfg, s, sid, busy);
    assert GoodServer(cfg, cfg.servers[sid]);
    hide Linked, QueuesOk, CpuSum, BusyServices, ListsBusy, Demand, Fraction, LoadAt, GoodConfig, PowerAt;
    var part, whole := Demand(cfg, sid, busy), cfg.servers[sid].capacity;
    assert Utilization(cfg, s, sid, s.now) == Fraction(part, whole);
    LoadOf(part, whole);
    PowerAtMeans(cfg.servers[sid], s.servers[sid].phase, part);
  }

  lemma LoadOf(part: int, whole: int)
    requires whole > 0
    ensures LoadAt(Fraction(part, whole), whole) == part as real
  {
  }

  lemma PowerAtMeans(spec: ServerSpec, phase: ServerPhase, part: int)
    requires spec.capacity > 0
    ensures PowerAt(spec, phase, Fraction(part, spec.capacity))
            == match phase
               case Off => 0.0
               case Booting => spec.pIdle
               case _ => spec.pIdle + (spec.pMax - spec.pIdle) * (part as real / spec.capacity as real)
  {
  }

  /** Over any step of any run, boots and pod creations apart, a server's energy grows
      by nothing while it is OFF, by idle power times the time while BOOTING, and while
      ACTIVE or DRAINING by idle power plus the busy part of its capacity of the way to
      full power; its CPU-seconds grow by the MIPS that are busy. */
  lemma EnergyOverAStep(cfg: Config, rows: seq<Row>, selected: seq<int>, homes: seq<Slot>,
                        states: seq<State>, moves: seq<Move>, i: nat, sid: int, busy: seq<int>)
    requires IsHistory(cfg, rows, selected, homes, states, moves) && i < |moves| && |states| == |moves| + 1
    requires sid in cfg.servers && ListsBusy(states[i], sid, busy)
    ensures sid in states[i].servers && sid in states[i + 1].servers
    ensures cfg.servers[sid].capacity > 0 && cfg.referenceMips > 0.0 && (forall v :: v in busy ==> v in cfg.services)
    ensures var s, r, spec := states[i], states[i + 1], cfg.servers[sid];
            var span, work := r.now - s.now, Demand(cfg, sid, busy) as real;
            && span >= 0.0
            && OverTime(cfg, r, sid) - OverTime(cfg, s, sid)
               == (match s.servers[sid].phase
                   case Off => 0.0
                   case Booting => spec.pIdle * span
                   case _ => (spec.pIdle + (spec.pMax - spec.pIdle) * (work / spec.capacity as real)) * span)
            && r.servers[sid].busy - s.servers[sid].busy == work * span
  {
    hide IsHistory, IsRun, Prime, GoodStart, IsStep, Core, CoverOk, Linked, GoodConfig, QueuesOk, ListsBusy, PowerNow,
      LoadNow, CreatedOn, Demand, SlotsOk, PhasesOk, MetersOk, BooksOk;
    var s, r, move := states[i], states[i + 1], moves[i];
    HistoryStep(cfg, rows, selected, homes, states, moves, i);
    InvAlways(cfg, rows, selected, homes, states, moves, i);
    var tau :| Core(cfg, s, tau, {});
    CoreKeys(cfg, s, tau);
    CoreParts(cfg, s, tau, {});
    StoresOk(cfg, s);
    GoodReference(cfg);
    PowerOf(cfg, s, sid, busy);
    StepAccounts(cfg, s, tau, move.event, move.choice, r, sid);
  }

  lemma GoodReference(cfg: Config)
    requires GoodConfig(cfg)
    ensures cfg.referenceMips > 0.0
  {
  }

  // ------------------------------------------------------------------
  // The price of a boot
  // ------------------------------------------------------------------

  /** Some listing of a set. */
  lemma {:induction false} Listing(members: set<int>) returns (list: seq<int>)
    ensures Distinct(list) && forall v :: v in list <==> v in members
    decreases |members|
  {
    if members == {} {
      list := [];
    } else {
      var v := Pick(members);
      list := Listing(members - {v});
      list := list + [v];
    }
  }

  lemma BusyListing(cfg: Config, s: State, sid: int) returns (busy: seq<int>)
    requires Linked(cfg, s) && QueuesOk(s) && InStore(s, sid)
    ensures ListsBusy(s, sid, busy)
  {
    hide Linked, QueuesOk, IsBusy, BusyServices;
    busy := Listing(BusyServices(s, sid, s.now));
    forall v ensures v in busy <==> IsBusy(s, sid, v) {
      BusyAreBusy(cfg, s, sid, v);
    }
  }

  /** A step out of OFF draws nothing, one out of BOOTING idle power. */
  lemma IdleStep(cfg: Config, rows: seq<Row>, selected: seq<int>, homes: seq<Slot>,
                 states: seq<State>, moves: seq<Move>, i: nat, sid: int)
    requires IsHistory(cfg, rows, selected, homes, states, moves) && i < |moves| && |states| == |moves| + 1
    requires sid in cfg.servers
    ensures sid in states[i].servers && sid in states[i + 1].servers
    ensures var a, b := states[i].servers[sid], states[i + 1].servers[sid];
            var now, span := states[i + 1].now, states[i + 1].now - states[i].now;
            var drawn := OverTime(cfg, states[i + 1], sid) - OverTime(cfg, states[i], sid);
            && (a.phase == Off ==>
                  drawn == 0.0 && (b.phase == Booting ==> b.boots == a.boots + 1 && b.lastTransition == now))
            && (a.phase == Booting ==>
                  && drawn == cfg.servers[sid].pIdle * span && b.boots == a.boots
                  && (if b.phase == Booting then b.lastTransition == a.lastTransition
                      else b.phase == Active && now == a.lastTransition + cfg.delays.boot))
  {
    hide IsHistory, IsRun, Prime, GoodStart, IsStep, Core, CoverOk, Linked, GoodConfig, QueuesOk, ListsBusy,
      Demand, OverTime, AliveAt, TurnsOn, Aborts, MarksFit, Stops, DueOnlyAt, HasEvent, SlotsOk, PhasesOk, MetersOk;
    var s := states[i];
    HistoryStep(cfg, rows, selected, homes, states, moves, i);
    InvAlways(cfg, rows, selected, homes, states, moves, i);
    var tau :| Core(cfg, s, tau, {});
    CoreKeys(cfg, s, tau);
    CoreParts(cfg, s, tau, {});
    StoresOk(cfg, s);
    var busy := BusyListing(cfg, s, sid);
    EnergyOverAStep(cfg, rows, selected, homes, states, moves, i, sid, busy);
    StepTime(cfg, s, tau, moves[i].event, moves[i].choice, states[i + 1]);
    if s.heap[moves[i].event].kind.DecisionTick? {
      var kept, taken := ServersAtATick(cfg, rows, selected, homes, states, moves, i, sid);
    } else {
      ServersBetweenTicks(cfg, rows, selected, homes, states, moves, i, sid);
    }
  }

  /** While BOOTING: no further boot is counted, and idle power is drawn. */
  lemma {:induction false} BootingDraws(cfg: Config, rows: seq<Row>, selected: seq<int>, homes: seq<Slot>,
                                        states: seq<State>, moves: seq<Move>, sid: int, i: nat, j: nat)
    requires IsHistory(cfg, rows, selected, homes, states, moves) && |states| == |moves| + 1 && sid in cfg.servers
    requires PhaseThroughout(states, sid, Booting, i, j)
    ensures states[j].servers[sid].boots == states[i].servers[sid].boots
    ensures states[j].servers[sid].lastTransition == states[i].servers[sid].lastTransition
    ensures OverTime(cfg, states[j], sid) - OverTime(cfg, states[i], sid)
            == cfg.servers[sid].pIdle * (states[j].now - states[i].now)
    decreases j
  {
    hide IsHistory, IsRun, OverTime;
    if i < j {
      assert PhaseThroughout(states, sid, Booting, i, j - 1);
      BootingDraws(cfg, rows, selected, homes, states, moves, sid, i, j - 1);
      IdleStep(cfg, rows, selected, homes, states, moves, j - 1, sid);
      SplitProduct(cfg.servers[sid].pIdle, states[j - 1].now - states[i].now, states[j].now - states[j - 1].now,
                   states[j].now - states[i].now);
    } else {
      assert cfg.servers[sid].pIdle * 0.0 == 0.0;
    }
  }

  lemma SplitProduct(p: real, a: real, b: real, c: real)
    requires c == a + b
    ensures p * c == p * a + p * b
  {
  }

  /** In every run a whole boot, from the last OFF state to the first that is not
      BOOTING, takes one boot delay, and costs one boot and idle power for that long,
      besides the pods created meanwhile. */
  lemma BootCosts(cfg: Config, rows: seq<Row>, selected: seq<int>, homes: seq<Slot>,
                  states: seq<State>, moves: seq<Move>, sid: int, i: nat, j: nat)
    requires IsHistory(cfg, rows, selected, homes, states, moves) && |states| == |moves| + 1 && sid in cfg.servers
    requires i < j && j + 1 < |states| && sid in states[i].servers && states[i].servers[sid].phase == Off
    requires PhaseThroughout(states, sid, Booting, i + 1, j)
    requires sid in states[j + 1].servers && states[j + 1].servers[sid].phase != Booting
    ensures states[j + 1].servers[sid].phase == Active && states[j + 1].now == states[i + 1].now + cfg.delays.boot
    ensures states[j + 1].servers[sid].boots == states[i].servers[sid].boots + 1
    ensures states[j + 1].servers[sid].energy - states[i].servers[sid].energy
            == cfg.bootJoule + cfg.servers[sid].pIdle * cfg.delays.boot
               + cfg.podJoule * (CreatedOn(states[j + 1].objects, sid) - CreatedOn(states[i].objects, sid)) as real
  {
    hide IsHistory, IsRun, CreatedOn;
    IdleStep(cfg, rows, selected, homes, states, moves, i, sid);
    BootingDraws(cfg, rows, selected, homes, states, moves, sid, i + 1, j);
    IdleStep(cfg, rows, selected, homes, states, moves, j, sid);
    SplitProduct(cfg.servers[sid].pIdle, states[j].now - states[i + 1].now, states[j + 1].now - states[j].now,
                 cfg.delays.boot);
    OneMore(cfg.bootJoule, states[i].servers[sid].boots);
    CountProduct(cfg.podJoule, CreatedOn(states[j + 1].objects, sid), CreatedOn(states[i].objects, sid));
  }

  lemma CountProduct(price: real, m: nat, n: nat)
    ensures price * (m - n) as real == price * m as real - price * n as real
  {
    assert (m - n) as real == m as real - n as real;
  }
}
