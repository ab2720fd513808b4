/** Routing a request. Every `select_replica` that tries the READY replicas in some
    order, leaving out only full ones, meets the engine's contract, because it looks
    at the same reading of the queues as `try_admit` does right after it. */
module EngineRouting {
  import opened Settings
  import opened ReplicaQueues
  import opened EngineModel
  import opened EngineRuns
  import Selection = ReplicaSelection

  // ------------------------------------------------------------------
  // Trying the READY replicas in some order
  // ------------------------------------------------------------------

  /** The k-th replica of the order is the first with room. */
  ghost predicate FirstWithRoom(s: State, order: seq<nat>, k: int)
    requires ListLinked(order, |s.objects|)
  {
    0 <= k < |order| && HasRoom(s, order[k]) && forall j :: 0 <= j < k ==> !HasRoom(s, order[j])
  }

  /** What a `select_replica` returns that tries READY replicas of the service in
      this order, each admitted if its queue has room now; only full ones may be
      left out of the order. */
  ghost predicate Tried(s: State, svc: int, order: seq<nat>, selected: Option<nat>) {
    && ListLinked(order, |s.objects|)
    && (forall o :: o in order ==> Candidate(s, svc, o))
    && (forall o: nat :: Candidate(s, svc, o) && HasRoom(s, o) ==> o in order)
    && match selected
       case None => forall k :: 0 <= k < |order| ==> !HasRoom(s, order[k])
       case Some(o) => exists k :: FirstWithRoom(s, order, k) && order[k] == o
  }

  /** Such a selection meets the engine's contract. */
  lemma TryingMeetsContract(s: State, svc: int, order: seq<nat>, selected: Option<nat>)
    requires Tried(s, svc, order, selected)
    ensures SelectionOk(s, svc, selected)
  {
    match selected
    case None =>
      forall o: nat | Candidate(s, svc, o) && o in order ensures !HasRoom(s, o) {
        var k :| 0 <= k < |order| && order[k] == o;
        assert !HasRoom(s, order[k]);
      }
    case Some(o) =>
      var k :| FirstWithRoom(s, order, k) && order[k] == o;
      assert order[k] in order;
  }

  /** Some READY replica of the service can take one more job. */
  ghost predicate SomeRoom(s: State, svc: int) {
    exists o: nat :: Candidate(s, svc, o) && HasRoom(s, o)
  }

  /** Whatever the order, the replica selected admits the request, also when the
      ranking has already popped its deque: the branch for a lost race is
      unreachable. The request completes exactly when some READY replica has room,
      and otherwise is rejected for the right reason. */
  lemma RoutingDecidesByRoom(cfg: Config, s: State, req: Request, order: seq<nat>, selected: Option<nat>)
    requires GoodConfig(cfg) && Linked(cfg, s) && req.service in cfg.services
    requires Tried(s, req.service, order, selected)
    ensures selected.Some? ==>
              && selected.value < |s.objects|
              && s.objects[selected.value].server in cfg.servers && s.objects[selected.value].service in cfg.services
              && var r := s.objects[selected.value];
                 var popped := r.queue.(departures := Pending(r.queue.departures, s.now));
                 && Admit(r.queue, s.now, ColdStartExtra(cfg, r, s.now)).1.Admitted?
                 && Admit(popped, s.now, ColdStartExtra(cfg, r, s.now))
                    == Admit(r.queue, s.now, ColdStartExtra(cfg, r, s.now))
    ensures var outcome := HandleRouted(cfg, s, req, selected).log[|s.log|];
            && (outcome.Completed? <==> SomeRoom(s, req.service))
            && (outcome.QueueFull? <==> !SomeRoom(s, req.service) && exists o: nat :: Candidate(s, req.service, o))
            && (outcome.NoReplica? <==> !exists o: nat :: Candidate(s, req.service, o))
  {
    hide NetworkDelayMs, ColdStartExtra, ResponseTime, RecordRequest, Tried;
    TryingMeetsContract(s, req.service, order, selected);
    if selected.Some? {
      var r := s.objects[selected.value];
      assert ObjectLinked(cfg, r);
      assert SomeRoom(s, req.service);
      ReadingBeforeAdmission(r.queue, s.now, ColdStartExtra(cfg, r, s.now));
    }
  }

  // ------------------------------------------------------------------
  // The candidates as selection sees them
  // ------------------------------------------------------------------

  /** The replicas of a list that are READY, in its order. */
  function Selectable(objects: seq<Replica>, list: seq<nat>): (r: seq<nat>)
    requires ListLinked(list, |objects|)
    ensures ListLinked(r, |objects|)
    ensures forall o :: o in r <==> o in list && o < |objects| && objects[o].phase == Ready
  {
    if list == [] then []
    else
      var n := |list| - 1;
      var before := Selectable(objects, list[..n]);
      assert forall o :: o in list <==> o in list[..n] || o == list[n];
      if objects[list[n]].phase == Ready then before + [list[n]] else before
  }

  /** The reading of one replica: `haversine_km`, `queue_occupancy(now)`, `queue_len`. */
  function Reading(cfg: Config, s: State, req: Request, o: nat): Selection.Candidate
    requires o < |s.objects| && s.objects[o].server in cfg.servers
  {
    var r := s.objects[o];
    Selection.Candidate(cfg.distance(req.at, cfg.servers[r.server].site), Occupancy(r.queue, s.now), r.queue.capacity)
  }

  predicate Located(cfg: Config, s: State, list: seq<nat>) {
    ListLinked(list, |s.objects|) && forall i :: 0 <= i < |list| ==> s.objects[list[i]].server in cfg.servers
  }

  function Readings(cfg: Config, s: State, req: Request, list: seq<nat>): (r: seq<Selection.Candidate>)
    requires Located(cfg, s, list)
    ensures |r| == |list| && forall i :: 0 <= i < |list| ==> r[i] == Reading(cfg, s, req, list[i])
  {
    seq(|list|, i requires 0 <= i < |list| => Reading(cfg, s, req, list[i]))
  }

  /** The objects that a ranking of positions stands for. */
  function Objects(list: seq<nat>, ordered: seq<int>): (r: seq<nat>)
    requires forall k :: 0 <= k < |ordered| ==> 0 <= ordered[k] < |list|
    ensures |r| == |ordered| && forall k :: 0 <= k < |ordered| ==> r[k] == list[ordered[k]]
  {
    seq(|ordered|, k requires 0 <= k < |ordered| => list[ordered[k]])
  }

  /** A ranking of positions tried by room is the READY objects tried in that order. */
  lemma RankingIsTried(cfg: Config, s: State, req: Request, list: seq<nat>, ordered: seq<int>, chosen: Option<int>)
    requires Located(cfg, s, list) && Selection.Covers(Readings(cfg, s, req, list), ordered)
    requires forall o: nat :: o in list <==> Candidate(s, req.service, o)
    requires Selection.TriedInOrder(ordered, i => Selection.RoomAt(Readings(cfg, s, req, list), i), chosen)
    ensures chosen.Some? ==> 0 <= chosen.value < |list|
    ensures forall k :: 0 <= k < |ordered| ==> 0 <= ordered[k] < |list|
    ensures Tried(s, req.service, Objects(list, ordered), if chosen.Some? then Some(list[chosen.value]) else None)
  {
    hide Candidate;
    var candidates := Readings(cfg, s, req, list);
    assert forall k :: 0 <= k < |ordered| ==> ordered[k] in ordered;
    var order := Objects(list, ordered);
    forall k | 0 <= k < |order|
      ensures order[k] < |s.objects| && order[k] in list
      ensures HasRoom(s, order[k]) <==> Selection.RoomAt(candidates, ordered[k])
    {
      assert ordered[k] in ordered && candidates[ordered[k]] == Reading(cfg, s, req, list[ordered[k]]);
    }
    forall o: nat | Candidate(s, req.service, o) && o < |s.objects| && HasRoom(s, o) ensures o in order {
      var i :| 0 <= i < |list| && list[i] == o;
      assert candidates[i] == Reading(cfg, s, req, o);
      assert i in ordered;
      var k :| 0 <= k < |ordered| && ordered[k] == i;
      assert order[k] == o;
    }
    if chosen.Some? {
      var k :| Selection.FirstAnswer(ordered, i => Selection.RoomAt(candidates, i), k) && ordered[k] == chosen.value;
      assert FirstWithRoom(s, order, k);
    }
  }

  lemma ListedAreLocated(cfg: Config, s: State, svc: int)
    requires Linked(cfg, s) && svc in cfg.services
    ensures svc in s.byService && ListLinked(s.byService[svc], |s.objects|)
    ensures Located(cfg, s, Selectable(s.objects, s.byService[svc]))
    ensures forall o: nat :: o in Selectable(s.objects, s.byService[svc]) <==> Candidate(s, svc, o)
  {
    var list := Selectable(s.objects, s.byService[svc]);
    forall i | 0 <= i < |list| ensures s.objects[list[i]].server in cfg.servers {
      assert ObjectLinked(cfg, s.objects[list[i]]);
    }
  }

  // ------------------------------------------------------------------
  // The two algorithms
  // ------------------------------------------------------------------

  /** The distance from the request to the host of a replica. */
  function Kilometres(cfg: Config, s: State, req: Request, o: nat): real
    requires Linked(cfg, s) && o < |s.objects|
  {
    assert ObjectLinked(cfg, s.objects[o]);
    cfg.distance(req.at, cfg.servers[s.objects[o].server].site)
  }

  /** A READY replica with room, than which no READY one is more than five kilometres nearer. */
  ghost predicate IsNear(cfg: Config, s: State, req: Request, o: nat)
    requires Linked(cfg, s)
  {
    && Candidate(s, req.service, o) && HasRoom(s, o)
    && forall x: nat :: Candidate(s, req.service, x) ==> Kilometres(cfg, s, req, o) <= Kilometres(cfg, s, req, x) + 5.0
  }

  /** The least full of the near ones, if there are any, else the nearest with room. */
  ghost predicate IsDefault(cfg: Config, s: State, req: Request, o: nat)
    requires Linked(cfg, s)
  {
    && Candidate(s, req.service, o) && HasRoom(s, o)
    && if exists x: nat :: IsNear(cfg, s, req, x) then
         && IsNear(cfg, s, req, o)
         && forall x: nat :: IsNear(cfg, s, req, x) ==>
              Occupancy(s.objects[o].queue, s.now) * s.objects[x].queue.capacity
              <= Occupancy(s.objects[x].queue, s.now) * s.objects[o].queue.capacity
       else
         forall x: nat :: Candidate(s, req.service, x) && HasRoom(s, x) ==>
           Kilometres(cfg, s, req, o) <= Kilometres(cfg, s, req, x)
  }

  lemma NearIsNear(cfg: Config, s: State, req: Request, list: seq<nat>, i: nat)
    requires Linked(cfg, s) && Located(cfg, s, list) && i < |list|
    requires forall o: nat :: o in list <==> Candidate(s, req.service, o)
    ensures Selection.IsNear(Readings(cfg, s, req, list), i) <==> IsNear(cfg, s, req, list[i])
  {
    hide Candidate, Linked;
    var candidates := Readings(cfg, s, req, list);
    assert list[i] in list;
    if Selection.IsNear(candidates, i) {
      forall x: nat | Candidate(s, req.service, x) && x < |s.objects|
        ensures Kilometres(cfg, s, req, list[i]) <= Kilometres(cfg, s, req, x) + 5.0
      {
        var j :| 0 <= j < |list| && list[j] == x;
        assert candidates[i].distance <= candidates[j].distance + 5.0;
      }
      CandidatesStored(s, req.service);
    }
    if IsNear(cfg, s, req, list[i]) {
      forall j | 0 <= j < |candidates| ensures candidates[i].distance <= candidates[j].distance + 5.0 {
        assert list[j] in list;
      }
    }
  }

  lemma CandidatesStored(s: State, svc: int)
    ensures forall x: nat :: Candidate(s, svc, x) ==> x < |s.objects|
  {
  }

  lemma DefaultIsDefault(cfg: Config, s: State, req: Request, list: seq<nat>, i: int)
    requires Linked(cfg, s) && Located(cfg, s, list) && forall o: nat :: o in list <==> Candidate(s, req.service, o)
    requires 0 <= i < |list| && Selection.IsDefaultChoice(Readings(cfg, s, req, list), i)
    ensures IsDefault(cfg, s, req, list[i])
  {
    hide Candidate, Linked, Selection.IsNear, IsNear;
    var candidates := Readings(cfg, s, req, list);
    CandidatesStored(s, req.service);
    NearAreCandidates(cfg, s, req);
    assert list[i] in list;
    NearIsNear(cfg, s, req, list, i);
    forall x: nat | IsNear(cfg, s, req, x)
      ensures exists j :: Selection.IsNear(candidates, j)
      ensures x < |s.objects| && Occupancy(s.objects[list[i]].queue, s.now) * s.objects[x].queue.capacity
                                 <= Occupancy(s.objects[x].queue, s.now) * s.objects[list[i]].queue.capacity
    {
      var j :| 0 <= j < |list| && list[j] == x;
      NearIsNear(cfg, s, req, list, j);
      assert Selection.IsNear(candidates, j);
      assert Selection.NoFuller(candidates[i], candidates[j]);
    }
    if j :| Selection.IsNear(candidates, j) {
      NearPosition(candidates, j);
      NearIsNear(cfg, s, req, list, j);
    }
    forall x: nat | Candidate(s, req.service, x) && HasRoom(s, x) && !(exists j :: Selection.IsNear(candidates, j))
      ensures Kilometres(cfg, s, req, list[i]) <= Kilometres(cfg, s, req, x)
    {
      var j :| 0 <= j < |list| && list[j] == x;
      assert Selection.HasRoom(candidates[j]);
    }
  }

  lemma NearPosition(candidates: seq<Selection.Candidate>, j: int)
    requires Selection.IsNear(candidates, j)
    ensures 0 <= j < |candidates|
  {
  }

  lemma NearAreCandidates(cfg: Config, s: State, req: Request)
    requires Linked(cfg, s)
    ensures forall x: nat :: IsNear(cfg, s, req, x) ==> Candidate(s, req.service, x)
  {
  }

  /** `select_replica` of the base class, as `_handle_routed` calls it. */
  method SelectReplica(cfg: Config, s: State, req: Request) returns (selected: Option<nat>, ghost order: seq<nat>)
    requires GoodConfig(cfg) && Linked(cfg, s) && req.service in cfg.services
    ensures Tried(s, req.service, order, selected) && SelectionOk(s, req.service, selected)
    ensures selected.Some? ==> IsDefault(cfg, s, req, selected.value)
  {
    ListedAreLocated(cfg, s, req.service);
    hide Candidate, Linked, GoodConfig, IsDefault, Selection.IsDefaultChoice;
    var list := Selectable(s.objects, s.byService[req.service]);
    var chosen: Option<int>;
    ghost var ordered;
    chosen, ordered := Selection.SelectByDefault(Readings(cfg, s, req, list));
    RankingIsTried(cfg, s, req, list, ordered, chosen);
    order := Objects(list, ordered);
    selected := if chosen.Some? then Some(list[chosen.value]) else None;
    TryingMeetsContract(s, req.service, order, selected);
    if chosen.Some? {
      DefaultIsDefault(cfg, s, req, list, chosen.value);
    }
  }

  /** What PPO's latency-aware selection expects of a replica: the network there
      and back, the queue at one execution per job, and the execution. */
  function EstimatedLatency(cfg: Config, s: State, req: Request, o: nat): real
    requires o < |s.objects| && s.objects[o].server in cfg.servers
  {
    var r := s.objects[o];
    2.0 * NetworkDelayMs(cfg, cfg.distance(req.at, cfg.servers[r.server].site)) / 1000.0
    + Occupancy(r.queue, s.now) as real * r.queue.exec + r.queue.exec
  }

  /** The jobs in the queue leave one execution apart, the first within one from now:
      none of them carries a cold-start penalty. */
  ghost predicate Warm(q: Queue, now: real) {
    var left := Pending(q.departures, now);
    if left == [] then q.availableAt <= now
    else
      && left[0] <= now + q.exec && q.availableAt == left[|left| - 1]
      && forall i :: 0 <= i < |left| ==> left[i] == left[0] + i as real * q.exec
  }

  lemma {:induction false} PendingIsLater(departures: seq<real>, now: real)
    requires Pending(departures, now) != []
    ensures Pending(departures, now)[0] > now
  {
    if departures[0] <= now {
      PendingIsLater(departures[1..], now);
    }
  }

  /** The work left is all executions but the first, and the rest of that. */
  lemma WarmBacklog(q: Queue, now: real)
    requires q.exec > 0.0 && Warm(q, now)
    ensures var work := Occupancy(q, now) as real * q.exec;
            if Occupancy(q, now) == 0 then work == 0.0 && q.availableAt <= now
            else now < q.availableAt && work - q.exec < q.availableAt - now <= work
  {
    var left := Pending(q.departures, now);
    if left == [] {
      assert Occupancy(q, now) as real * q.exec == 0.0;
    } else {
      PendingIsLater(q.departures, now);
      OneMoreExecution(|left|, q.exec);
    }
  }

  /** One execution per job in the queue is at least the wait, and less than one more. */
  lemma WarmWait(q: Queue, now: real, extra: real)
    requires q.exec > 0.0 && Warm(q, now) && Occupancy(q, now) < q.capacity
    ensures var admission := Admit(q, now, extra).1;
            && admission.Admitted? && admission.finish - admission.start == q.exec + extra
            && var above := Occupancy(q, now) as real * q.exec - (admission.start - now);
               0.0 <= above < q.exec && (Occupancy(q, now) == 0 ==> above == 0.0)
  {
    hide Warm;
    WarmBacklog(q, now);
  }

  /** Of a replica without cold starts in its queue, the estimate is never below what
      the response will be, routing apart and its own cold start added, and above it
      by less than one execution; of an idle one it is exact. */
  lemma EstimateMeetsResponse(cfg: Config, s: State, req: Request, o: nat)
    requires GoodConfig(cfg) && Linked(cfg, s) && req.service in cfg.services
    requires Candidate(s, req.service, o) && HasRoom(s, o)
    requires s.objects[o].queue.exec > 0.0 && Warm(s.objects[o].queue, s.now)
    ensures s.objects[o].server in cfg.servers && s.objects[o].service in cfg.services
    ensures var outcome := HandleRouted(cfg, s, req, Some(o)).log[|s.log|];
            && outcome.Completed?
            && var above := EstimatedLatency(cfg, s, req, o) + req.routing
                            + ColdStartExtra(cfg, s.objects[o], s.now) - outcome.response;
               && 0.0 <= above < s.objects[o].queue.exec
               && (Occupancy(s.objects[o].queue, s.now) == 0 ==> above == 0.0)
  {
    hide GoodConfig, Linked, NetworkDelayMs, ColdStartExtra, RecordRequest, Admit, Occupancy, Warm;
    LinkedObject(cfg, s, o);
    WarmWait(s.objects[o].queue, s.now, ColdStartExtra(cfg, s.objects[o], s.now));
  }

  lemma OneMoreExecution(n: nat, exec: real)
    requires n > 0 && exec > 0.0
    ensures n as real * exec == (n - 1) as real * exec + exec && (n - 1) as real * exec >= 0.0
  {
    assert n as real == (n - 1) as real + 1.0;
  }

  lemma LinkedObject(cfg: Config, s: State, o: nat)
    requires Linked(cfg, s) && o < |s.objects|
    ensures s.objects[o].server in cfg.servers && s.objects[o].service in cfg.services
  {
    assert ObjectLinked(cfg, s.objects[o]);
  }

  function LatencyAt(cfg: Config, s: State, req: Request, list: seq<nat>, i: int): real
    requires Located(cfg, s, list)
  {
    if 0 <= i < |list| then EstimatedLatency(cfg, s, req, list[i]) else 0.0
  }

  /** `select_replica` of PPO: the least estimated latency among those with room. */
  method SelectByLatency(cfg: Config, s: State, req: Request) returns (selected: Option<nat>, ghost order: seq<nat>)
    requires GoodConfig(cfg) && Linked(cfg, s) && req.service in cfg.services
    ensures Tried(s, req.service, order, selected) && SelectionOk(s, req.service, selected)
    ensures selected.Some? ==>
              && selected.value < |s.objects| && s.objects[selected.value].server in cfg.servers
              && forall o: nat ::
                   Candidate(s, req.service, o) && HasRoom(s, o) && s.objects[o].server in cfg.servers ==>
                   EstimatedLatency(cfg, s, req, selected.value) <= EstimatedLatency(cfg, s, req, o)
  {
    ListedAreLocated(cfg, s, req.service);
    hide Candidate, Linked, GoodConfig, EstimatedLatency;
    var list := Selectable(s.objects, s.byService[req.service]);
    var candidates := Readings(cfg, s, req, list);
    var chosen: Option<int>;
    ghost var ordered;
    chosen, ordered := Selection.SelectByLatency(candidates, i => LatencyAt(cfg, s, req, list, i));
    RankingIsTried(cfg, s, req, list, ordered, chosen);
    order := Objects(list, ordered);
    selected := if chosen.Some? then Some(list[chosen.value]) else None;
    TryingMeetsContract(s, req.service, order, selected);
    if chosen.Some? {
      forall o: nat | Candidate(s, req.service, o) && o < |s.objects| && HasRoom(s, o)
                      && s.objects[o].server in cfg.servers
        ensures EstimatedLatency(cfg, s, req, selected.value) <= EstimatedLatency(cfg, s, req, o)
      {
        var i :| 0 <= i < |list| && list[i] == o;
        assert candidates[i] == Reading(cfg, s, req, o) && Selection.RoomAt(candidates, i);
      }
    }
  }
}
