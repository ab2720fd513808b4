/** Every run terminates: each step decreases a lexicographic measure of the
    ticks left, the boots under way and the weight of the other events. */
module EngineTermination {
  import opened Collections
  import opened Settings
  import opened ReplicaQueues
  import opened EngineModel
  import opened EngineInvariants
  import opened EngineClock
  import opened EngineServers
  import opened EngineHandlers
  import opened EngineRuns
  import opened EngineLedger
  import opened EngineTraffic

  // ------------------------------------------------------------------
  // The measure
  // ------------------------------------------------------------------

  /** How many periods fit before the cutoff, counting the one that starts at t. */
  function Periods(t: real, cutoff: real, period: real): nat
    requires period > 0.0
  {
    if cutoff < t then 0
    else
      QuotientNonnegative(cutoff - t, period);
      ((cutoff - t) / period).Floor + 1
  }

  lemma QuotientNonnegative(x: real, y: real)
    requires x >= 0.0 && y > 0.0
    ensures x / y >= 0.0
  {
  }

  /** One period later there is one period less. */
  lemma PeriodsDecrease(t: real, cutoff: real, period: real)
    requires period > 0.0 && t <= cutoff
    ensures Periods(t + period, cutoff, period) < Periods(t, cutoff, period)
  {
    QuotientNonnegative(cutoff - t, period);
    var q := (cutoff - t) / period;
    if t + period <= cutoff {
      assert (cutoff - (t + period)) / period == q - 1.0 by {
        QuotientLess(cutoff - t, period);
        assert cutoff - (t + period) == cutoff - t - period;
      }
    }
  }

  lemma QuotientLess(x: real, y: real)
    requires y > 0.0
    ensures (x - y) / y == x / y - 1.0
  {
    assert (x - y) / y * y == x - y;
    assert (x / y - 1.0) * y == x - y;
    Cancel((x - y) / y, x / y - 1.0, y);
  }

  lemma Cancel(a: real, b: real, y: real)
    requires y > 0.0 && a * y == b * y
    ensures a == b
  {
    assert (a - b) * y == 0.0;
  }

  /** An arrival spawns a routed request, which spawns a resync; a ready event at
      most one termination; a drain event itself once more, a grace period later. */
  function Weight(cfg: Config, cutoff: real, ev: Event): nat
    requires cfg.delays.grace > 0.0
  {
    match ev.kind
    case Arrival(_, _) => 3
    case Routed(_) => 2
    case ReplicaReady(_, _) => 2
    case DrainDone(_) => 1 + Periods(ev.time, cutoff, cfg.delays.grace)
    case _ => 1
  }

  ghost function TotalWeight(cfg: Config, cutoff: real, heap: map<nat, Event>): nat
    requires cfg.delays.grace > 0.0
    decreases |heap.Keys|
  {
    if heap.Keys == {} then 0
    else
      var k := Pick(heap.Keys);
      assert (heap - {k}).Keys == heap.Keys - {k};
      Weight(cfg, cutoff, heap[k]) + TotalWeight(cfg, cutoff, heap - {k})
  }

  lemma {:induction false} WeightRemove(cfg: Config, cutoff: real, heap: map<nat, Event>, k: nat)
    requires cfg.delays.grace > 0.0 && k in heap
    ensures TotalWeight(cfg, cutoff, heap) == Weight(cfg, cutoff, heap[k]) + TotalWeight(cfg, cutoff, heap - {k})
    decreases |heap.Keys|
  {
    hide Weight;
    var j := Pick(heap.Keys);
    assert (heap - {j}).Keys == heap.Keys - {j};
    if j != k {
      assert (heap - {k}).Keys == heap.Keys - {k};
      WeightRemove(cfg, cutoff, heap - {j}, k);
      WeightRemove(cfg, cutoff, heap - {k}, j);
      assert heap - {j} - {k} == heap - {k} - {j};
    }
  }

  lemma WeightAdd(cfg: Config, cutoff: real, heap: map<nat, Event>, k: nat, ev: Event)
    requires cfg.delays.grace > 0.0 && k !in heap
    ensures TotalWeight(cfg, cutoff, heap[k := ev]) == TotalWeight(cfg, cutoff, heap) + Weight(cfg, cutoff, ev)
  {
    hide Weight;
    WeightRemove(cfg, cutoff, heap[k := ev], k);
    assert heap[k := ev] - {k} == heap;
  }

  function BootsIn(heap: map<nat, Event>): set<nat> {
    set k | k in heap && heap[k].kind.BootDone?
  }

  datatype Measure = Measure(ticks: nat, boots: nat, weight: nat)

  predicate Below(m: Measure, n: Measure) {
    m.ticks < n.ticks || (m.ticks == n.ticks && (m.boots < n.boots || (m.boots == n.boots && m.weight < n.weight)))
  }

  ghost function MeasureOf(cfg: Config, s: State, tau: real): Measure
    requires cfg.delays.grace > 0.0 && cfg.delays.interval > 0.0
  {
    Measure(Periods(tau, s.cutoff, cfg.delays.interval), |BootsIn(s.heap)|, TotalWeight(cfg, s.cutoff, s.heap))
  }

  // ------------------------------------------------------------------
  // What each handler pushes
  // ------------------------------------------------------------------

  /** At most one event was pushed, and it is lighter than the one handled. */
  ghost predicate PushesLighter(cfg: Config, p: State, r: State, kind: Kind)
    requires cfg.delays.grace > 0.0
  {
    r.cutoff == p.cutoff &&
    (r.heap == p.heap ||
     exists ev: Event :: PushedOnly(p, r, ev) && !ev.kind.BootDone?
                         && Weight(cfg, p.cutoff, ev) < Weight(cfg, p.cutoff, Event(p.now, kind)))
  }

  ghost predicate PushedOnly(p: State, r: State, ev: Event) {
    r.heap == p.heap[p.lastSeq + 1 := ev]
  }

  lemma ArrivalPushes(cfg: Config, p: State, at: Position, svc: int)
    requires cfg.delays.grace > 0.0
    ensures PushesLighter(cfg, p, HandleArrival(cfg, p, at, svc), Arrival(at, svc))
  {
    hide RoutingDelay;
    var r := HandleArrival(cfg, p, at, svc);
    assert PushedOnly(p, r, r.heap[p.lastSeq + 1]);
  }

  lemma RoutedPushes(cfg: Config, p: State, r: State, req: Request)
    requires cfg.delays.grace > 0.0 && RoutedChange(p, r)
    ensures PushesLighter(cfg, p, r, Routed(req))
  {
    if r.heap != p.heap {
      assert PushedOnly(p, r, r.heap[p.lastSeq + 1]);
    }
  }

  lemma DrainPushes(cfg: Config, p: State, sid: int)
    requires cfg.delays.grace > 0.0 && InStore(p, sid) && p.now <= p.cutoff
    ensures PushesLighter(cfg, p, HandleDrainDone(cfg, p, sid), DrainDone(sid))
  {
    hide Periods;
    var r := HandleDrainDone(cfg, p, sid);
    if !AllTerminated(p, sid) {
      PeriodsDecrease(p.now, p.cutoff, cfg.delays.grace);
      assert PushedOnly(p, r, Event(p.now + cfg.delays.grace, DrainDone(sid)));
    }
  }

  lemma ReadyPushes(cfg: Config, p: State, slot: Slot, o: nat)
    requires cfg.delays.grace > 0.0
    requires slot.server in p.servers && forall sid :: sid in p.servers ==> InStore(p, sid)
    ensures PushesLighter(cfg, p, HandleReady(cfg, p, slot), ReplicaReady(slot, o))
  {
    var r := HandleReady(cfg, p, slot);
    if r.heap != p.heap {
      assert p.lastSeq + 1 in r.heap && r.heap[p.lastSeq + 1].kind.ReplicaGone?;
      assert PushedOnly(p, r, r.heap[p.lastSeq + 1]);
    }
  }

  lemma {:induction false} ScheduleBoots(cfg: Config, s: State, sid: int, order: seq<int>)
    requires InStore(s, sid) && Fresh(s)
    ensures var r := ScheduleAll(cfg, s, sid, order); Fresh(r) && BootsIn(r.heap) == BootsIn(s.heap)
    decreases |order|
  {
    if order != [] {
      var n := |order| - 1;
      ScheduleBoots(cfg, s, sid, order[..n]);
      var m := ScheduleAll(cfg, s, sid, order[..n]);
      assert m.lastSeq + 1 !in m.heap;
    }
  }

  // ------------------------------------------------------------------
  // Each step decreases the measure
  // ------------------------------------------------------------------

  lemma LighterDecreases(cfg: Config, p: State, r: State, kind: Kind)
    requires cfg.delays.grace > 0.0 && Fresh(p) && PushesLighter(cfg, p, r, kind)
    ensures BootsIn(r.heap) == BootsIn(p.heap)
    ensures TotalWeight(cfg, p.cutoff, r.heap)
            < TotalWeight(cfg, p.cutoff, p.heap) + Weight(cfg, p.cutoff, Event(p.now, kind))
  {
    hide Weight, Periods;
    if r.heap == p.heap {
      WeightPositive(cfg, p.cutoff, Event(p.now, kind));
    } else {
      var ev: Event :| PushedOnly(p, r, ev) && !ev.kind.BootDone?
                       && Weight(cfg, p.cutoff, ev) < Weight(cfg, p.cutoff, Event(p.now, kind));
      assert p.lastSeq + 1 !in p.heap;
      WeightAdd(cfg, p.cutoff, p.heap, p.lastSeq + 1, ev);
    }
  }

  lemma WeightPositive(cfg: Config, cutoff: real, ev: Event)
    requires cfg.delays.grace > 0.0
    ensures Weight(cfg, cutoff, ev) >= 1
  {
  }

  lemma OtherPushes(cfg: Config, p: State, kind: Kind, choice: Choice)
    requires GoodConfig(cfg) && Linked(cfg, p) && KindLinked(cfg, kind) && ChoiceLinked(cfg, p, choice)
    requires p.now <= p.cutoff && !kind.DecisionTick? && !kind.BootDone?
    ensures PushesLighter(cfg, p, Handle(cfg, p, kind, choice), kind)
  {
    hide HandleArrival, HandleRouted, HandleReady, Weight, RoutingDelay;
    assert forall sid :: sid in p.servers ==> InStore(p, sid);
    match kind
    case Arrival(at, svc) => ArrivalPushes(cfg, p, at, svc);
    case Routed(req) =>
      RoutedIsChange(cfg, p, req, choice.selected);
      RoutedPushes(cfg, p, HandleRouted(cfg, p, req, choice.selected), req);
    case DrainDone(sid) => DrainPushes(cfg, p, sid);
    case ReplicaReady(slot, o) => ReadyPushes(cfg, p, slot, o);
    case ReplicaGone(slot, o) =>
    case EnergyResync =>
  }

  lemma BootDecreases(cfg: Config, p: State, sid: int, order: seq<int>)
    requires InStore(p, sid) && Fresh(p)
    ensures BootsIn(HandleBootDone(cfg, p, sid, order).heap) == BootsIn(p.heap)
    ensures HandleBootDone(cfg, p, sid, order).cutoff == p.cutoff
  {
    BootDoneShape(cfg, p, sid, order);
    ScheduleBoots(cfg, MarkActive(p, sid), sid, order);
  }

  lemma TickKeepsCutoff(cfg: Config, p: State, choice: Choice)
    requires GoodConfig(cfg) && Linked(cfg, p) && ChoiceLinked(cfg, p, choice)
    ensures Handle(cfg, p, DecisionTick, choice).cutoff == p.cutoff
  {
    hide Handle, Fresh, Traffic;
    TickTraffic(cfg, p, choice);
  }

  /** The heap without the popped event. */
  lemma PoppedMeasure(cfg: Config, s: State, k: nat)
    requires GoodConfig(cfg) && Linked(cfg, s) && k in s.heap && Fresh(s)
    ensures var p := Popped(cfg, s, k);
            && Fresh(p) && p.cutoff == s.cutoff && p.now == s.heap[k].time
            && TotalWeight(cfg, s.cutoff, s.heap)
               == Weight(cfg, s.cutoff, s.heap[k]) + TotalWeight(cfg, s.cutoff, p.heap)
            && (if s.heap[k].kind.BootDone? then |BootsIn(p.heap)| < |BootsIn(s.heap)|
                else BootsIn(p.heap) == BootsIn(s.heap))
  {
    hide Metered, Weight, TotalWeight, Linked;
    var p := Popped(cfg, s, k);
    WeightRemove(cfg, s.cutoff, s.heap, k);
    assert BootsIn(p.heap) == BootsIn(s.heap) - {k};
  }

  /** Every step of every run decreases the measure. */
  lemma StepDecreases(cfg: Config, s: State, tau: real, k: nat, choice: Choice, r: State)
    requires Core(cfg, s, tau, {}) && CoverOk(s) && IsStep(cfg, s, k, choice, r)
    ensures GoodConfig(cfg) && r.cutoff == s.cutoff
    ensures Below(MeasureOf(cfg, r, NextTick(cfg, tau, s.heap[k].kind)), MeasureOf(cfg, s, tau))
  {
    hide CoverOk, IsStep, Handle, Popped, Linked, WasLegitimate, ChoiceLinked, KindLinked, IsMin, Weight,
      TotalWeight, Periods, Core;
    StepParts(cfg, s, k, choice, r);
    PoppedKeeps(cfg, s, tau, k);
    CoreFresh(cfg, s, tau);
    PoppedMeasure(cfg, s, k);
    var p := Popped(cfg, s, k);
    match s.heap[k].kind
    case DecisionTick =>
      TickIsNow(cfg, p, tau);
      TickKeepsCutoff(cfg, p, choice);
      PeriodsDecrease(tau, s.cutoff, cfg.delays.interval);
    case BootDone(sid) =>
      CoreStore(cfg, p, tau, s.heap[k].kind, sid);
      BootDecreases(cfg, p, sid, choice.order);
      BootDoneIsHandled(cfg, p, sid, choice);
    case _ =>
      OtherPushes(cfg, p, s.heap[k].kind, choice);
      LighterDecreases(cfg, p, r, s.heap[k].kind);
  }

  lemma BootDoneIsHandled(cfg: Config, p: State, sid: int, choice: Choice)
    requires GoodConfig(cfg) && Linked(cfg, p) && KindLinked(cfg, BootDone(sid)) && ChoiceLinked(cfg, p, choice)
    requires InStore(p, sid)
    ensures Handle(cfg, p, BootDone(sid), choice) == HandleBootDone(cfg, p, sid, choice.order)
  {
  }

  lemma CoreFresh(cfg: Config, s: State, tau: real)
    requires Core(cfg, s, tau, {})
    ensures Fresh(s)
  {
  }

  lemma CoreStore(cfg: Config, p: State, tau: real, kind: Kind, sid: int)
    requires Core(cfg, p, tau, {kind}) && KindLinked(cfg, BootDone(sid))
    ensures InStore(p, sid)
  {
    assert Linked(cfg, p);
  }
}
