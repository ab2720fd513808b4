/** The state of simulator/engine.py and what each event handler does to it, as
    functions. `SimulationEngine` (Engine.dfy) carries these steps out in place. */
module EngineModel {
  import opened Collections
  import opened Settings
  import opened ReplicaQueues

  datatype ServerPhase = Off | Booting | Active | Draining

  /** `Leaving` is the replica state DRAINING of the source. */
  datatype ReplicaPhase = Starting | Ready | Leaving | Terminated

  datatype Slot = Slot(server: int, service: int)

  datatype Replica = Replica(
    server: int, service: int, phase: ReplicaPhase,
    createdAt: real, readySince: Option<real>, queue: Queue)

  /** `hosted` maps a service to the replica object serving it on this host. */
  datatype Server = Server(
    phase: ServerPhase, lastTransition: real, emergency: bool, hosted: map<int, nat>,
    boots: nat, shutdowns: nat,
    energy: real, busy: real, synced: real, busyAtWindow: real)

  datatype Request = Request(id: nat, service: int, at: Position, routing: real)

  datatype Outcome =
    | Completed(req: Request, response: real, late: bool)
    | QueueFull(req: Request)
    | NoReplica(req: Request)

  /** The payload of a replica event is its slot alone: `owner` records, for the
      specification, which object the event was scheduled for. No handler reads it. */
  datatype Kind =
    | Arrival(at: Position, service: int)
    | Routed(req: Request)
    | DecisionTick
    | BootDone(server: int)
    | DrainDone(server: int)
    | ReplicaReady(slot: Slot, owner: nat)
    | ReplicaGone(slot: Slot, owner: nat)
    | EnergyResync

  datatype Event = Event(time: real, kind: Kind)

  datatype Metrics = Metrics(
    total: nat, completed: nat, queueFull: nat, noReplica: nat, violations: nat,
    boots: nat, shutdowns: nat, podCreates: nat, podDeletes: nat)

  /** `heap` is keyed by the sequence number that breaks ties; `objects` is the
      store of replica objects, shared by `hosted` and `byService`. */
  datatype State = State(
    now: real, lastSeq: nat, heap: map<nat, Event>, cutoff: real,
    servers: map<int, Server>, objects: seq<Replica>, byService: map<int, seq<nat>>,
    pending: map<Slot, int>, rescue: map<int, int>, lastScale: map<int, real>,
    windowStart: real, ticks: nat, arrived: nat,
    metrics: Metrics, log: seq<Outcome>)

  datatype MigrationStep = MigrationStep(service: int, target: int)

  datatype Provision =
    | NoProvision
    | TurnOn(server: int)
    | TurnOff(server: int, plan: DrainPlan)

  /** What a drain asks of its surroundings: the algorithm's migration steps, the
      iteration order of the host's replicas, and the server picked for each
      service that must be rescued by an emergency boot. */
  datatype DrainPlan = DrainPlan(steps: seq<MigrationStep>, order: seq<int>, picks: seq<MigrationStep>)

  datatype Scaling =
    | NoScaling
    | ScaleUp(service: int, target: Option<int>)
    | ScaleDown(service: int, victim: nat)

  /** Everything the algorithm (and a dictionary's iteration order) may answer in one step. */
  datatype Choice = Choice(selected: Option<nat>, order: seq<int>, provision: Provision, scaling: seq<Scaling>)

  // ------------------------------------------------------------------
  // Well-formed states: every reference leads somewhere.
  // ------------------------------------------------------------------

  predicate HostLinked(cfg: Config, hosted: map<int, nat>, limit: nat) {
    forall v :: v in hosted ==> v in cfg.services && hosted[v] < limit
  }

  predicate ListLinked(list: seq<nat>, limit: nat) {
    forall i :: 0 <= i < |list| ==> list[i] < limit
  }

  predicate ObjectLinked(cfg: Config, r: Replica) {
    r.server in cfg.servers && r.service in cfg.services
  }

  ghost predicate Linked(cfg: Config, s: State) {
    && s.servers.Keys == cfg.servers.Keys
    && s.byService.Keys == cfg.services.Keys
    && s.lastScale.Keys == cfg.services.Keys
    && (forall sid :: sid in s.servers ==> HostLinked(cfg, s.servers[sid].hosted, |s.objects|))
    && (forall v :: v in s.byService ==> ListLinked(s.byService[v], |s.objects|))
    && (forall o :: 0 <= o < |s.objects| ==> ObjectLinked(cfg, s.objects[o]))
    && (forall slot :: slot in s.pending ==> s.pending[slot] in cfg.servers)
  }

  /** Every slot of a host refers to an allocated object. */
  predicate InStore(s: State, sid: int) {
    sid in s.servers && forall v :: v in s.servers[sid].hosted ==> s.servers[sid].hosted[v] < |s.objects|
  }

  // ------------------------------------------------------------------
  // Capacity
  // ------------------------------------------------------------------

  ghost function CpuOf(cfg: Config, sid: int, svc: int): int
    requires GoodConfig(cfg)
  {
    if sid in cfg.servers && svc in cfg.services then EffectiveCpu(cfg, sid, svc) else 0
  }

  ghost function CpuSum(cfg: Config, sid: int, svcs: set<int>): int
    requires GoodConfig(cfg)
  {
    if svcs == {} then 0
    else
      var v := Pick(svcs);
      CpuOf(cfg, sid, v) + CpuSum(cfg, sid, svcs - {v})
  }

  ghost function UsedCpu(cfg: Config, s: State, sid: int): int
    requires GoodConfig(cfg) && sid in s.servers
  {
    CpuSum(cfg, sid, s.servers[sid].hosted.Keys)
  }

  ghost function FreeCapacity(cfg: Config, s: State, sid: int): int
    requires GoodConfig(cfg) && Linked(cfg, s) && sid in s.servers
  {
    cfg.servers[sid].capacity - UsedCpu(cfg, s, sid)
  }

  ghost predicate CanHost(cfg: Config, s: State, sid: int, svc: int)
    requires GoodConfig(cfg) && Linked(cfg, s) && sid in s.servers
  {
    svc !in s.servers[sid].hosted && FreeCapacity(cfg, s, sid) >= CpuOf(cfg, sid, svc)
  }

  // ------------------------------------------------------------------
  // Small updates
  // ------------------------------------------------------------------

  function Push(s: State, time: real, kind: Kind): State {
    s.(lastSeq := s.lastSeq + 1, heap := s.heap[s.lastSeq + 1 := Event(time, kind)])
  }

  function WithServer(s: State, sid: int, sv: Server): State {
    s.(servers := s.servers[sid := sv])
  }

  function WithObject(s: State, o: nat, r: Replica): State
    requires o < |s.objects|
  {
    s.(objects := s.objects[o := r])
  }

  function SlotOf(s: State, o: nat): Slot
    requires o < |s.objects|
  {
    Slot(s.objects[o].server, s.objects[o].service)
  }

  /** The replica object in a slot. */
  function At(s: State, sid: int, svc: int): nat
    requires sid in s.servers && svc in s.servers[sid].hosted
  {
    s.servers[sid].hosted[svc]
  }

  // ------------------------------------------------------------------
  // Lifecycle operations
  // ------------------------------------------------------------------

  /** `_start_server_boot`. */
  function StartBoot(cfg: Config, s: State, sid: int, emergency: bool): State
    requires sid in s.servers
  {
    var sv := s.servers[sid];
    if sv.phase != Off then s
    else
      var booting := sv.(phase := Booting, emergency := emergency, lastTransition := s.now,
                         boots := sv.boots + 1, energy := sv.energy + cfg.bootJoule);
      Push(WithServer(s, sid, booting).(metrics := s.metrics.(boots := s.metrics.boots + 1)),
           s.now + cfg.delays.boot, BootDone(sid))
  }

  /** `_schedule_replica_ready`. */
  function ScheduleReady(cfg: Config, s: State, o: nat): State
    requires o < |s.objects|
  {
    Push(s, s.now + cfg.delays.startup, ReplicaReady(SlotOf(s, o), o))
  }

  ghost function FreshReplica(cfg: Config, sid: int, svc: int, now: real): Replica
    requires GoodConfig(cfg) && sid in cfg.servers && svc in cfg.services
  {
    assert GoodServer(cfg, cfg.servers[sid]) && GoodService(cfg.services[svc]);
    Replica(sid, svc, Starting, now, None,
            Queue(cfg.services[svc].queueLen, ExecTime(cfg, sid, svc), 0.0, []))
  }

  /** The bookkeeping of a placement that `can_host` allows. */
  ghost function Create(cfg: Config, s: State, sid: int, svc: int): (r: State)
    requires GoodConfig(cfg) && Linked(cfg, s) && sid in s.servers && svc in cfg.services
    ensures Linked(cfg, r)
  {
    var sv := s.servers[sid];
    var o := |s.objects|;
    s.(objects := s.objects + [FreshReplica(cfg, sid, svc, s.now)],
       servers := s.servers[sid := sv.(hosted := sv.hosted[svc := o], energy := sv.energy + cfg.podJoule)],
       byService := s.byService[svc := s.byService[svc] + [o]],
       metrics := s.metrics.(podCreates := s.metrics.podCreates + 1))
  }

  /** `_place_replica`: the new state and the new object, or None. */
  ghost function Place(cfg: Config, s: State, sid: int, svc: int): (r: (State, Option<nat>))
    requires GoodConfig(cfg) && Linked(cfg, s) && sid in s.servers && svc in cfg.services
    ensures Linked(cfg, r.0)
  {
    if !CanHost(cfg, s, sid, svc) then (s, None)
    else
      var s1 := Create(cfg, s, sid, svc);
      (if s.servers[sid].phase == Active then ScheduleReady(cfg, s1, |s.objects|) else s1, Some(|s.objects|))
  }

  /** `_start_replica_drain`. */
  function Retire(cfg: Config, s: State, o: nat): (r: State)
    requires o < |s.objects|
    ensures r == s.(heap := r.heap, lastSeq := r.lastSeq, objects := r.objects)
    ensures |r.objects| == |s.objects|
    ensures forall i :: 0 <= i < |s.objects| ==> SlotOf(r, i) == SlotOf(s, i)
  {
    var r := s.objects[o];
    if r.phase == Terminated then s
    else
      Push(WithObject(s, o, r.(phase := Leaving)),
           s.now + Later(cfg.delays.graceful, r.queue.availableAt - s.now),
           ReplicaGone(SlotOf(s, o), o))
  }

  // ------------------------------------------------------------------
  // Event handlers
  // ------------------------------------------------------------------

  /** The loop of `_handle_boot_done` over the host's replicas. */
  function ScheduleAll(cfg: Config, s: State, sid: int, order: seq<int>): State
    requires InStore(s, sid)
    ensures var r := ScheduleAll(cfg, s, sid, order);
            r == s.(heap := r.heap, lastSeq := r.lastSeq)
    decreases |order|
  {
    if order == [] then s
    else
      var v := order[|order| - 1];
      var s1 := ScheduleAll(cfg, s, sid, order[..|order| - 1]);
      if v in s.servers[sid].hosted then
        var o := At(s, sid, v);
        var r := s.objects[o];
        if r.phase == Starting && r.readySince == None && r.createdAt <= s.now then ScheduleReady(cfg, s1, o) else s1
      else s1
  }

  function RescuedBy(rescue: map<int, int>, sid: int): set<int> {
    set v | v in rescue && rescue[v] == sid
  }

  function HandleBootDone(cfg: Config, s: State, sid: int, order: seq<int>): State
    requires InStore(s, sid)
  {
    var s1 := WithServer(s, sid, s.servers[sid].(phase := Active, lastTransition := s.now));
    var s2 := ScheduleAll(cfg, s1, sid, order);
    var rescued := RescuedBy(s2.rescue, sid);
    var s3 := s2.(rescue := s2.rescue - rescued);
    if rescued != {} then WithServer(s3, sid, s3.servers[sid].(emergency := false)) else s3
  }

  function HandleReady(cfg: Config, s: State, slot: Slot): State
    requires slot.server in s.servers
    requires forall sid :: sid in s.servers ==> InStore(s, sid)
  {
    if slot.service !in s.servers[slot.server].hosted then s
    else
      assert InStore(s, slot.server);
      var o := At(s, slot.server, slot.service);
      var r := s.objects[o];
      if r.phase != Starting then s
      else
        var s1 := WithObject(s, o, r.(phase := Ready, readySince := Some(s.now)));
        if slot !in s1.pending then s1
        else
          var source := s1.pending[slot];
          var s2 := s1.(pending := s1.pending - {slot});
          assert source in s2.servers ==> InStore(s, source);
          if source in s2.servers && slot.service in s2.servers[source].hosted
             && s2.objects[At(s2, source, slot.service)].phase !in {Terminated, Leaving}
          then Retire(cfg, s2, At(s2, source, slot.service))
          else s2
  }

  /** `[x for x in list if x is not r]`. */
  function Without(list: seq<nat>, o: nat): (r: seq<nat>)
    ensures forall x :: x in r ==> x in list && x != o
    ensures forall x :: x in list && x != o ==> x in r
    ensures o !in list ==> r == list
    ensures Distinct(list) ==> Distinct(r)
  {
    if list == [] then []
    else
      var rest := Without(list[1..], o);
      assert list == [list[0]] + list[1..];
      assert Distinct(list) ==> Distinct(list[1..]) && list[0] !in list[1..];
      if list[0] == o then rest else [list[0]] + rest
  }

  function HandleGone(s: State, slot: Slot): State
    requires slot.server in s.servers
    requires slot.service in s.servers[slot.server].hosted ==>
               At(s, slot.server, slot.service) < |s.objects| && slot.service in s.byService
  {
    var sv := s.servers[slot.server];
    if slot.service !in sv.hosted then s
    else
      var o := sv.hosted[slot.service];
      s.(objects := s.objects[o := s.objects[o].(phase := Terminated)],
         metrics := s.metrics.(podDeletes := s.metrics.podDeletes + 1),
         servers := s.servers[slot.server := sv.(hosted := sv.hosted - {slot.service})],
         byService := s.byService[slot.service := Without(s.byService[slot.service], o)])
  }

  predicate AllTerminated(s: State, sid: int)
    requires InStore(s, sid)
  {
    forall v :: v in s.servers[sid].hosted ==> s.objects[s.servers[sid].hosted[v]].phase == Terminated
  }

  function HandleDrainDone(cfg: Config, s: State, sid: int): State
    requires InStore(s, sid)
  {
    if !AllTerminated(s, sid) then Push(s, s.now + cfg.delays.grace, DrainDone(sid))
    else
      var sv := s.servers[sid];
      var left := map v | v in sv.hosted && s.objects[sv.hosted[v]].phase != Terminated :: sv.hosted[v];
      WithServer(s, sid, sv.(hosted := left, phase := Off, lastTransition := s.now, shutdowns := sv.shutdowns + 1))
        .(metrics := s.metrics.(shutdowns := s.metrics.shutdowns + 1))
  }

  function HandleArrival(cfg: Config, s: State, at: Position, svc: int): State {
    var delay := RoutingDelay(cfg, at);
    Push(s.(arrived := s.arrived + 1), s.now + delay, Routed(Request(s.arrived + 1, svc, at, delay)))
  }

  /** `MetricsCollector.record_request`. */
  function RecordRequest(m: Metrics, outcome: Outcome): Metrics {
    match outcome
    case Completed(_, _, late) =>
      m.(total := m.total + 1, completed := m.completed + 1,
         violations := if late then m.violations + 1 else m.violations)
    case QueueFull(_) => m.(total := m.total + 1, queueFull := m.queueFull + 1, violations := m.violations + 1)
    case NoReplica(_) => m.(total := m.total + 1, noReplica := m.noReplica + 1, violations := m.violations + 1)
  }

  function Finalize(s: State, outcome: Outcome): State {
    s.(log := s.log + [outcome], metrics := RecordRequest(s.metrics, outcome))
  }

  ghost predicate Candidate(s: State, svc: int, o: nat) {
    svc in s.byService && o in s.byService[svc] && o < |s.objects| && s.objects[o].phase == Ready
  }

  /** The cold-start surcharge of a replica that became ready a moment ago. */
  ghost function ColdStartExtra(cfg: Config, r: Replica, now: real): real
    requires r.service in cfg.services
  {
    match r.readySince
    case None => 0.0
    case Some(since) =>
      if now - since <= ColdStartWindow(r.queue.exec)
      then ColdStartPenalty(cfg.services[r.service].deadline, r.queue.exec) else 0.0
  }

  /** Routing, the network there and back, waiting and service. */
  function ResponseTime(req: Request, delayMs: real, wait: real, service: real): real {
    req.routing + 2.0 * delayMs / 1000.0 + wait + service
  }

  ghost function HandleRouted(cfg: Config, s: State, req: Request, selected: Option<nat>): State
    requires selected.Some? ==> selected.value < |s.objects|
    requires selected.Some? ==> s.objects[selected.value].server in cfg.servers
    requires selected.Some? ==> s.objects[selected.value].service in cfg.services
    requires req.service in cfg.services
  {
    match selected
    case None =>
      Finalize(s, if exists o :: Candidate(s, req.service, o) then QueueFull(req) else NoReplica(req))
    case Some(o) =>
      var r := s.objects[o];
      var delay := NetworkDelayMs(cfg, cfg.distance(req.at, cfg.servers[r.server].site));
      var (queue, admission) := Admit(r.queue, s.now, ColdStartExtra(cfg, r, s.now));
      var s1 := WithObject(s, o, r.(queue := queue));
      match admission
      case Rejected => Finalize(s1, QueueFull(req))
      case Admitted(start, finish) =>
        var response := ResponseTime(req, delay, start - s.now, finish - start);
        Finalize(Push(s1, finish, EnergyResync),
                 Completed(req, response, response > cfg.services[req.service].deadline))
  }

  // ------------------------------------------------------------------
  // Draining a server
  // ------------------------------------------------------------------

  function Reserved(reserved: map<int, int>, sid: int): int {
    if sid in reserved then reserved[sid] else 0
  }

  ghost predicate StepsInBounds(cfg: Config, s: State, steps: seq<MigrationStep>) {
    forall i :: 0 <= i < |steps| ==> steps[i].target in s.servers && steps[i].service in cfg.services
  }

  /** The joint reservation check: the steps kept, and what they reserve per target. */
  ghost function KeepSteps(cfg: Config, s: State, steps: seq<MigrationStep>): (r: (seq<MigrationStep>, map<int, int>))
    requires GoodConfig(cfg) && Linked(cfg, s) && StepsInBounds(cfg, s, steps)
    ensures StepsInBounds(cfg, s, r.0)
    decreases |steps|
  {
    if steps == [] then ([], map[])
    else
      var step := steps[|steps| - 1];
      var (kept, reserved) := KeepSteps(cfg, s, steps[..|steps| - 1]);
      var raw := cfg.services[step.service].resource;
      if FreeCapacity(cfg, s, step.target) - Reserved(reserved, step.target) >= raw
      then (kept + [step], reserved[step.target := Reserved(reserved, step.target) + raw])
      else (kept, reserved)
  }

  function ServicesOf(steps: seq<MigrationStep>): set<int> {
    set i | 0 <= i < |steps| :: steps[i].service
  }

  /** No other host holds a copy that is not terminated. */
  ghost predicate OnlyCopy(s: State, sid: int, svc: int) {
    forall other :: other in s.servers && other != sid && svc in s.servers[other].hosted
                    && At(s, other, svc) < |s.objects| ==>
                      s.objects[At(s, other, svc)].phase == Terminated
  }

  ghost function SoleHosted(s: State, sid: int): set<int>
    requires sid in s.servers
  {
    set v | v in s.servers[sid].hosted && At(s, sid, v) < |s.objects|
            && s.objects[At(s, sid, v)].phase != Terminated && OnlyCopy(s, sid, v)
  }

  /** One service of `_trigger_emergency_boot`; `s` is the state at its start, which
      says the servers that were off. */
  function RescueOne(cfg: Config, s: State, m: State, reserved: map<int, int>, pick: MigrationStep)
    : (State, map<int, int>)
    requires s.servers.Keys == cfg.servers.Keys == m.servers.Keys && pick.service in cfg.services
  {
    var raw := cfg.services[pick.service].resource;
    if pick.service in m.rescue then (m, reserved)
    else if pick.target in s.servers && s.servers[pick.target].phase == Off
            && cfg.servers[pick.target].capacity - Reserved(reserved, pick.target) >= raw then
      (StartBoot(cfg, m.(rescue := m.rescue[pick.service := pick.target]), pick.target, true),
       reserved[pick.target := Reserved(reserved, pick.target) + raw])
    else (m, reserved)
  }

  /** `_trigger_emergency_boot`, over the picked servers in order. */
  function RescueAll(cfg: Config, s: State, picks: seq<MigrationStep>): (State, map<int, int>)
    requires s.servers.Keys == cfg.servers.Keys
    requires forall i :: 0 <= i < |picks| ==> picks[i].service in cfg.services
    ensures RescueAll(cfg, s, picks).0.servers.Keys == s.servers.Keys
    decreases |picks|
  {
    if picks == [] then (s, map[])
    else
      var (m, reserved) := RescueAll(cfg, s, picks[..|picks| - 1]);
      RescueOne(cfg, s, m, reserved, picks[|picks| - 1])
  }

  /** One kept step: place the replica and record the pending migration. */
  ghost function Migrate(cfg: Config, s: State, sid: int, step: MigrationStep): (r: State)
    requires GoodConfig(cfg) && Linked(cfg, s) && sid in s.servers
    requires step.target in s.servers && step.service in cfg.services
    ensures Linked(cfg, r) && r.servers.Keys == s.servers.Keys
  {
    var (s1, placed) := Place(cfg, s, step.target, step.service);
    if placed == None then s1
    else s1.(pending := s1.pending[Slot(step.target, step.service) := sid])
  }

  /** Placing the kept steps in order. */
  ghost function MigrateAll(cfg: Config, s: State, sid: int, steps: seq<MigrationStep>): (r: State)
    requires GoodConfig(cfg) && Linked(cfg, s) && sid in s.servers && StepsInBounds(cfg, s, steps)
    ensures Linked(cfg, r) && r.servers.Keys == s.servers.Keys && InStore(r, sid)
    decreases |steps|
  {
    if steps == [] then s
    else
      Migrate(cfg, MigrateAll(cfg, s, sid, steps[..|steps| - 1]), sid, steps[|steps| - 1])
  }

  /** Retiring the replicas that are not migrated. */
  function RetireAll(cfg: Config, s: State, sid: int, order: seq<int>, migrated: set<int>): State
    requires InStore(s, sid)
    ensures var r := RetireAll(cfg, s, sid, order, migrated);
            && r == s.(heap := r.heap, lastSeq := r.lastSeq, objects := r.objects)
            && |r.objects| == |s.objects|
            && forall i :: 0 <= i < |s.objects| ==> SlotOf(r, i) == SlotOf(s, i)
    decreases |order|
  {
    if order == [] then s
    else
      var v := order[|order| - 1];
      var s1 := RetireAll(cfg, s, sid, order[..|order| - 1], migrated);
      if v in migrated || v !in s.servers[sid].hosted then s1
      else Retire(cfg, s1, At(s, sid, v))
  }

  ghost predicate PlanInBounds(cfg: Config, s: State, plan: DrainPlan) {
    && StepsInBounds(cfg, s, plan.steps)
    && (forall i :: 0 <= i < |plan.picks| ==> plan.picks[i].service in cfg.services)
  }

  /** The services a drain cannot move: it is aborted when there are any. */
  ghost function Unmigrated(cfg: Config, s: State, sid: int, plan: DrainPlan): set<int>
    requires GoodConfig(cfg) && Linked(cfg, s) && sid in s.servers && PlanInBounds(cfg, s, plan)
  {
    SoleHosted(s, sid) - ServicesOf(KeepSteps(cfg, s, plan.steps).0)
  }

  /** The server stops being ACTIVE. */
  ghost function MarkDraining(cfg: Config, s: State, sid: int): (r: State)
    requires Linked(cfg, s) && sid in s.servers
    ensures Linked(cfg, r) && r.servers.Keys == s.servers.Keys
  {
    WithServer(s, sid, s.servers[sid].(phase := Draining, lastTransition := s.now))
  }

  /** The host is DRAINING and the replicas that take over are placed. */
  ghost function Moved(cfg: Config, s: State, sid: int, steps: seq<MigrationStep>): (r: State)
    requires GoodConfig(cfg) && Linked(cfg, s) && sid in s.servers && StepsInBounds(cfg, s, steps)
    ensures Linked(cfg, r) && r.servers.Keys == s.servers.Keys && InStore(r, sid)
  {
    MigrateAll(cfg, MarkDraining(cfg, s, sid), sid, steps)
  }

  lemma StillLinked(cfg: Config, s: State, r: State)
    requires Linked(cfg, s) && |r.objects| == |s.objects|
    requires r == s.(heap := r.heap, lastSeq := r.lastSeq, objects := r.objects)
    requires forall i :: 0 <= i < |s.objects| ==> SlotOf(r, i) == SlotOf(s, i)
    ensures Linked(cfg, r)
  {
    forall o | 0 <= o < |r.objects| ensures ObjectLinked(cfg, r.objects[o]) {
      assert SlotOf(r, o) == SlotOf(s, o) && ObjectLinked(cfg, s.objects[o]);
    }
  }

  lemma RescueAllLinked(cfg: Config, s: State, picks: seq<MigrationStep>)
    requires Linked(cfg, s)
    requires forall i :: 0 <= i < |picks| ==> picks[i].service in cfg.services
    ensures Linked(cfg, RescueAll(cfg, s, picks).0)
  {
    if picks != [] {
      RescueAllLinked(cfg, s, picks[..|picks| - 1]);
    }
  }

  /** `_start_server_drain` past its abort check. */
  ghost function Drain(cfg: Config, s: State, sid: int, plan: DrainPlan): (r: State)
    requires GoodConfig(cfg) && Linked(cfg, s) && sid in s.servers && PlanInBounds(cfg, s, plan)
    ensures Linked(cfg, r)
  {
    var steps := KeepSteps(cfg, s, plan.steps).0;
    var s3 := RetireAll(cfg, Moved(cfg, s, sid, steps), sid, plan.order, ServicesOf(steps));
    StillLinked(cfg, Moved(cfg, s, sid, steps), s3);
    Push(s3, s.now + cfg.delays.grace, DrainDone(sid))
  }

  /** `_start_server_drain`. */
  ghost function StartDrain(cfg: Config, s: State, sid: int, plan: DrainPlan): (r: (State, bool))
    requires GoodConfig(cfg) && Linked(cfg, s) && sid in s.servers && PlanInBounds(cfg, s, plan)
    ensures Linked(cfg, r.0)
  {
    RescueAllLinked(cfg, s, plan.picks);
    if s.servers[sid].phase != Active then (s, false)
    else if Unmigrated(cfg, s, sid, plan) != {} then (RescueAll(cfg, s, plan.picks).0, false)
    else (Drain(cfg, s, sid, plan), true)
  }

  // ------------------------------------------------------------------
  // The decision tick
  // ------------------------------------------------------------------

  ghost function ActiveServers(s: State): set<int> {
    set sid | sid in s.servers && s.servers[sid].phase == Active
  }

  /** The gates a TURN_OFF has to pass. */
  ghost predicate MayTurnOff(cfg: Config, s: State, sid: int) {
    && sid in s.servers && s.servers[sid].phase == Active
    && |ActiveServers(s)| > 1
    && s.now - s.servers[sid].lastTransition >= cfg.delays.cooldown
    && (s.servers[sid].emergency || s.now - s.servers[sid].lastTransition >= cfg.delays.minActive)
  }

  /** `_apply_provisioning`. */
  ghost function ApplyProvision(cfg: Config, s: State, action: Provision): (r: State)
    requires GoodConfig(cfg) && Linked(cfg, s)
    requires action.TurnOff? ==> PlanInBounds(cfg, s, action.plan)
    ensures Linked(cfg, r)
  {
    match action
    case NoProvision => s
    case TurnOn(sid) => // a BOOTING or already running server is skipped, as is one in cooldown
      if sid in s.servers && s.servers[sid].phase == Off
         && s.now - s.servers[sid].lastTransition >= cfg.delays.cooldown
      then StartBoot(cfg, s, sid, false) else s
    case TurnOff(sid, plan) =>
      if MayTurnOff(cfg, s, sid) then StartDrain(cfg, s, sid, plan).0 else s
  }

  ghost function ReadyOf(s: State, svc: int): set<nat> {
    set o | 0 <= o < |s.objects| && Candidate(s, svc, o)
  }

  /** `_apply_scale_decision`: the target of a SCALE_UP is an ACTIVE server, the
      victim of a SCALE_DOWN one of the mature ready replicas. */
  ghost function ApplyScaling(cfg: Config, s: State, decision: Scaling): (r: State)
    requires GoodConfig(cfg) && Linked(cfg, s)
    ensures Linked(cfg, r)
  {
    match decision
    case NoScaling => s
    case ScaleUp(svc, target) =>
      if svc !in cfg.services || s.now - s.lastScale[svc] < cfg.delays.cooldown then s
      else if target.None? || target.value !in s.servers || s.servers[target.value].phase != Active then s
      else
        var (s1, placed) := Place(cfg, s, target.value, svc);
        if placed == None then s1 else s1.(lastScale := s1.lastScale[svc := s.now])
    case ScaleDown(svc, victim) =>
      if svc !in cfg.services || s.now - s.lastScale[svc] < cfg.delays.cooldown then s
      else if |ReadyOf(s, svc)| > 1 && victim in ReadyOf(s, svc)
              && s.now - s.objects[victim].createdAt >= cfg.delays.minAge then
        Retire(cfg, s, victim).(lastScale := s.lastScale[svc := s.now])
      else s
  }

  ghost function ScaleAll(cfg: Config, s: State, decisions: seq<Scaling>): State
    requires GoodConfig(cfg) && Linked(cfg, s)
    ensures Linked(cfg, ScaleAll(cfg, s, decisions))
    decreases |decisions|
  {
    if decisions == [] then s
    else ApplyScaling(cfg, ScaleAll(cfg, s, decisions[..|decisions| - 1]), decisions[|decisions| - 1])
  }

  /** Starting the next utilisation window. */
  function ResetWindow(s: State): State {
    s.(servers := map sid | sid in s.servers :: s.servers[sid].(busyAtWindow := s.servers[sid].busy),
       windowStart := s.now)
  }

  // ------------------------------------------------------------------
  // Energy
  // ------------------------------------------------------------------

  /** The hosted services whose replica has work at time t. */
  ghost function BusyServices(s: State, sid: int, t: real): set<int>
    requires InStore(s, sid)
  {
    set v | v in s.servers[sid].hosted && Working(s.objects[s.servers[sid].hosted[v]], t)
  }

  predicate Working(r: Replica, t: real) {
    r.phase in {Ready, Leaving} && Occupancy(r.queue, t) != 0
  }

  function Fraction(part: int, whole: int): real
    requires whole > 0
  {
    part as real / whole as real
  }

  /** `instantaneous_utilization`. */
  ghost function Utilization(cfg: Config, s: State, sid: int, t: real): real
    requires GoodConfig(cfg) && InStore(s, sid) && sid in cfg.servers
  {
    assert GoodServer(cfg, cfg.servers[sid]);
    Fraction(CpuSum(cfg, sid, BusyServices(s, sid, t)), cfg.servers[sid].capacity)
  }

  /** The linear power model of a host in a phase. */
  function PowerAt(spec: ServerSpec, phase: ServerPhase, utilization: real): real {
    match phase
    case Off => 0.0
    case Booting => spec.pIdle
    case _ => spec.pIdle + (spec.pMax - spec.pIdle) * utilization
  }

  /** `instantaneous_power_w`. */
  ghost function Power(cfg: Config, s: State, sid: int, t: real): real
    requires GoodConfig(cfg) && InStore(s, sid) && sid in cfg.servers
  {
    PowerAt(cfg.servers[sid], s.servers[sid].phase, Utilization(cfg, s, sid, t))
  }

  /** The meters of a server that drew `power` and worked at `rate` since the last reading. */
  function ReadMeters(sv: Server, power: real, rate: real, t: real): (r: Server)
    ensures r == sv.(energy := r.energy, busy := r.busy, synced := r.synced)
  {
    if t > sv.synced then
      sv.(energy := sv.energy + power * (t - sv.synced), busy := sv.busy + rate * (t - sv.synced), synced := t)
    else sv
  }

  /** The MIPS in use. */
  ghost function Load(cfg: Config, s: State, sid: int, t: real): real
    requires GoodConfig(cfg) && InStore(s, sid) && sid in cfg.servers
  {
    LoadAt(Utilization(cfg, s, sid, t), cfg.servers[sid].capacity)
  }

  function LoadAt(utilization: real, capacity: int): real {
    utilization * capacity as real
  }

  /** One server's share of `_advance_energy_to`. */
  ghost function Metered(cfg: Config, s: State, sid: int, t: real): (sv: Server)
    requires GoodConfig(cfg) && InStore(s, sid) && sid in cfg.servers
    ensures sv == s.servers[sid].(energy := sv.energy, busy := sv.busy, synced := sv.synced)
  {
    var last := s.servers[sid].synced;
    ReadMeters(s.servers[sid], Power(cfg, s, sid, last), Load(cfg, s, sid, last), t)
  }

  /** `_advance_energy_to`, then the clock. */
  ghost function Advance(cfg: Config, s: State, t: real): (r: State)
    requires GoodConfig(cfg) && Linked(cfg, s)
    ensures Linked(cfg, r)
    ensures forall sid :: sid in s.servers ==> r.servers[sid].hosted == s.servers[sid].hosted
  {
    assert forall sid :: sid in s.servers ==> InStore(s, sid) && sid in cfg.servers;
    s.(servers := map sid | sid in s.servers :: Metered(cfg, s, sid, t), now := t)
  }

  // ------------------------------------------------------------------
  // One step of the run
  // ------------------------------------------------------------------

  /** Earlier in the heap: by time, ties by sequence number. */
  predicate Before(heap: map<nat, Event>, j: nat, k: nat)
    requires j in heap && k in heap
  {
    heap[j].time < heap[k].time || (heap[j].time == heap[k].time && j <= k)
  }

  ghost predicate IsMin(heap: map<nat, Event>, k: nat) {
    k in heap && forall j :: j in heap ==> Before(heap, k, j)
  }

  /** References inside event payloads lead somewhere. */
  predicate KindLinked(cfg: Config, kind: Kind) {
    match kind
    case Arrival(_, svc) => svc in cfg.services
    case Routed(req) => req.service in cfg.services
    case BootDone(sid) => sid in cfg.servers
    case DrainDone(sid) => sid in cfg.servers
    case ReplicaReady(slot, _) => slot.server in cfg.servers && slot.service in cfg.services
    case ReplicaGone(slot, _) => slot.server in cfg.servers && slot.service in cfg.services
    case _ => true
  }

  predicate ChoiceLinked(cfg: Config, s: State, choice: Choice) {
    && (choice.selected.Some? ==> choice.selected.value < |s.objects|)
    && (choice.provision.TurnOff? ==>
          && (forall i :: 0 <= i < |choice.provision.plan.steps| ==>
                            && choice.provision.plan.steps[i].target in cfg.servers
                            && choice.provision.plan.steps[i].service in cfg.services)
          && (forall i :: 0 <= i < |choice.provision.plan.picks| ==>
                            choice.provision.plan.picks[i].service in cfg.services))
  }

  /** `_handle_decision_tick`; the snapshot it records counts the tick. */
  ghost function HandleTick(cfg: Config, s: State, choice: Choice): State
    requires GoodConfig(cfg) && Linked(cfg, s) && ChoiceLinked(cfg, s, choice)
  {
    var s1 := ApplyProvision(cfg, s.(ticks := s.ticks + 1), choice.provision);
    var s2 := ScaleAll(cfg, s1, choice.scaling);
    ResetWindow(s2)
  }

  /** The dispatch of `step` once the event is popped. */
  ghost function Handle(cfg: Config, s: State, kind: Kind, choice: Choice): State
    requires GoodConfig(cfg) && Linked(cfg, s) && KindLinked(cfg, kind) && ChoiceLinked(cfg, s, choice)
  {
    match kind
    case Arrival(at, svc) => HandleArrival(cfg, s, at, svc)
    case Routed(req) => HandleRouted(cfg, s, req, choice.selected)
    case DecisionTick => Push(HandleTick(cfg, s, choice), s.now + cfg.delays.interval, DecisionTick)
    case BootDone(sid) => assert InStore(s, sid); HandleBootDone(cfg, s, sid, choice.order)
    case DrainDone(sid) => assert InStore(s, sid); HandleDrainDone(cfg, s, sid)
    case ReplicaReady(slot, _) => assert forall sid :: sid in s.servers ==> InStore(s, sid); HandleReady(cfg, s, slot)
    case ReplicaGone(slot, _) => assert InStore(s, slot.server); HandleGone(s, slot)
    case EnergyResync => s
  }

  function Pop(s: State, k: nat): State {
    s.(heap := s.heap - {k})
  }

  /** `step`: pop, account for the energy, move the clock, dispatch. */
  ghost function Step(cfg: Config, s: State, k: nat, choice: Choice): State
    requires GoodConfig(cfg) && Linked(cfg, s) && k in s.heap
    requires KindLinked(cfg, s.heap[k].kind) && ChoiceLinked(cfg, s, choice)
  {
    Handle(cfg, Advance(cfg, Pop(s, k), s.heap[k].time), s.heap[k].kind, choice)
  }

  // ------------------------------------------------------------------
  // Prime
  // ------------------------------------------------------------------

  /** One row of the event table. */
  datatype Row = Row(time: real, at: Position, service: int)

  function EarliestTime(rows: seq<Row>): real {
    if rows == [] then 0.0
    else if |rows| == 1 then rows[0].time
    else Least(EarliestTime(rows[..|rows| - 1]), rows[|rows| - 1].time)
  }

  function LatestTime(rows: seq<Row>): real {
    if rows == [] then 0.0
    else if |rows| == 1 then rows[0].time
    else Later(LatestTime(rows[..|rows| - 1]), rows[|rows| - 1].time)
  }

  /** How long after the last arrival a run goes on. */
  function CutoffSlack(cfg: Config): real {
    2.0 * cfg.overheadMs / 1000.0 + cfg.delays.interval + cfg.delays.grace
  }

  const LONG_AGO := -1000000000000000000.0

  function Blank(cfg: Config, rows: seq<Row>): State {
    var start := EarliestTime(rows);
    State(start, 0, map[],
          LatestTime(rows) + CutoffSlack(cfg),
          map sid | sid in cfg.servers :: Server(Off, LONG_AGO, false, map[], 0, 0, 0.0, 0.0, start, 0.0),
          [], map svc | svc in cfg.services :: [],
          map[], map[], map svc | svc in cfg.services :: LONG_AGO,
          start, 0, 0, Metrics(0, 0, 0, 0, 0, 0, 0, 0, 0), [])
  }

  function PushArrivals(s: State, rows: seq<Row>): State
    decreases |rows|
  {
    if rows == [] then s
    else
      var row := rows[|rows| - 1];
      Push(PushArrivals(s, rows[..|rows| - 1]), row.time, Arrival(row.at, row.service))
  }

  function BootAll(cfg: Config, s: State, selected: seq<int>): (r: State)
    requires forall i :: 0 <= i < |selected| ==> selected[i] in s.servers
    ensures r.servers.Keys == s.servers.Keys
    decreases |selected|
  {
    if selected == [] then s
    else StartBoot(cfg, BootAll(cfg, s, selected[..|selected| - 1]), selected[|selected| - 1], false)
  }

  ghost predicate HomesInBounds(cfg: Config, homes: seq<Slot>) {
    forall i :: 0 <= i < |homes| ==> homes[i].server in cfg.servers && homes[i].service in cfg.services
  }

  ghost function HomeAll(cfg: Config, s: State, homes: seq<Slot>): (r: State)
    requires GoodConfig(cfg) && Linked(cfg, s) && HomesInBounds(cfg, homes)
    ensures Linked(cfg, r)
    decreases |homes|
  {
    if homes == [] then s
    else
      var home := homes[|homes| - 1];
      Place(cfg, HomeAll(cfg, s, homes[..|homes| - 1]), home.server, home.service).0
  }

  /** The event table is served by known services from nonnegative times on. */
  predicate GoodRows(cfg: Config, rows: seq<Row>) {
    forall i :: 0 <= i < |rows| ==> rows[i].service in cfg.services && rows[i].time >= 0.0
  }

  /** `selected` comes from `initial_placement`, `homes` pairs each service with
      the nearest capable selected server. */
  ghost predicate GoodStart(cfg: Config, rows: seq<Row>, selected: seq<int>, homes: seq<Slot>) {
    && GoodConfig(cfg) && GoodRows(cfg, rows)
    && (forall i :: 0 <= i < |selected| ==> selected[i] in cfg.servers)
    && HomesInBounds(cfg, homes)
    && (forall i :: 0 <= i < |homes| ==> homes[i].server in selected)
  }

  lemma BootAllLinked(cfg: Config, s: State, selected: seq<int>)
    requires Linked(cfg, s)
    requires forall i :: 0 <= i < |selected| ==> selected[i] in s.servers
    ensures Linked(cfg, BootAll(cfg, s, selected))
  {
    if selected != [] {
      BootAllLinked(cfg, s, selected[..|selected| - 1]);
    }
  }

  lemma PushArrivalsFrame(s: State, rows: seq<Row>)
    ensures var r := PushArrivals(s, rows); r == s.(heap := r.heap, lastSeq := r.lastSeq)
  {
    if rows != [] {
      PushArrivalsFrame(s, rows[..|rows| - 1]);
    }
  }

  /** `prime`. */
  ghost function Prime(cfg: Config, rows: seq<Row>, selected: seq<int>, homes: seq<Slot>): (r: State)
    requires GoodStart(cfg, rows, selected, homes)
    ensures Linked(cfg, r)
  {
    var s1 := PushArrivals(Blank(cfg, rows), rows);
    PushArrivalsFrame(Blank(cfg, rows), rows);
    BootAllLinked(cfg, s1, selected);
    Push(HomeAll(cfg, BootAll(cfg, s1, selected), homes), EarliestTime(rows), DecisionTick)
  }
}
