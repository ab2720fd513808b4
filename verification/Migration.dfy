/** The migration decision shared by the greedy, HPA and VOILA algorithms: it
    meets the contract the engine's drain relies on, and agrees with the engine
    on which services are hosted nowhere else. */
module Migration {
  import opened Collections
  import opened Settings
  import opened EngineModel
  import opened EngineDrain
  import opened EngineInvariants
  import opened EngineLedger
  import opened EngineHandlers
  import Engine

  /** An ACTIVE server other than the one being drained that can take the service. */
  ghost predicate IsTarget(cfg: Config, s: State, sid: int, v: int, target: int)
    requires GoodConfig(cfg) && Linked(cfg, s)
  {
    && target in s.servers && target != sid && s.servers[target].phase == Active
    && CanHost(cfg, s, target, v)
  }

  /** A target that no other target beats by the algorithm's key. */
  ghost predicate IsBest(cfg: Config, s: State, sid: int, v: int, key: int -> real, target: int)
    requires GoodConfig(cfg) && Linked(cfg, s)
  {
    && IsTarget(cfg, s, sid, v, target)
    && forall other :: IsTarget(cfg, s, sid, v, other) ==> key(target) <= key(other)
  }

  /** The best target for a service, by the key the algorithm sorts by: distance to
      the drained server or to the demand, or minus the free capacity. */
  method BestTarget(engine: Engine.SimulationEngine, sid: int, v: int, key: int -> real) returns (best: Option<int>)
    requires engine.Valid() && v in engine.cfg.services
    ensures best.Some? ==> IsBest(engine.cfg, engine.View(), sid, v, key, best.value)
    ensures best.None? ==> forall target :: !IsTarget(engine.cfg, engine.View(), sid, v, target)
  {
    best := None;
    var rest := engine.servers.Keys;
    while rest != {}
      invariant rest <= engine.servers.Keys
      invariant best.Some? ==> best.value !in rest && IsTarget(engine.cfg, engine.View(), sid, v, best.value)
      invariant forall other :: other !in rest && IsTarget(engine.cfg, engine.View(), sid, v, other) ==>
                  best.Some? && key(best.value) <= key(other)
      decreases |rest|
    {
      ghost var some := Pick(rest);
      var x: int :| x in rest;
      if x != sid && engine.servers[x].phase == Active {
        var can := engine.CanHost(x, v);
        if can && (best.None? || key(x) < key(best.value)) {
          best := Some(x);
        }
      }
      rest := rest - {x};
    }
  }

  /** The step chosen for one of the services visited. */
  ghost predicate StepFor(cfg: Config, s: State, sid: int, key: int -> (int -> real), steps: seq<MigrationStep>, v: int)
    requires GoodConfig(cfg) && Linked(cfg, s)
  {
    exists i :: 0 <= i < |steps| && steps[i].service == v && IsBest(cfg, s, sid, v, key(v), steps[i].target)
  }

  ghost predicate HasTarget(cfg: Config, s: State, sid: int, v: int)
    requires GoodConfig(cfg) && Linked(cfg, s)
  {
    exists target :: IsTarget(cfg, s, sid, v, target)
  }

  /** `migration_decision`: one step for each service that is hosted nowhere else
      and that some other ACTIVE server can take, to the best such server, and no
      other step; `order` is the order of the host's dictionary. */
  method MigrationDecision(engine: Engine.SimulationEngine, sid: int, order: seq<int>, key: int -> (int -> real))
    returns (steps: seq<MigrationStep>)
    requires engine.Valid() && sid in engine.servers && Enumerates(order, engine.servers[sid].hosted.Keys)
    ensures StepsOk(engine.cfg, engine.View(), sid, steps)
    ensures forall v :: v in SoleHosted(engine.View(), sid) && HasTarget(engine.cfg, engine.View(), sid, v) ==>
              StepFor(engine.cfg, engine.View(), sid, key, steps, v)
  {
    hide GoodConfig, CanHost;
    var sole := engine.SoleHostedServices(sid);
    steps := [];
    HostedAreKnown(engine.cfg, engine.View(), sid, order);
    var i := 0;
    while i < |order|
      invariant 0 <= i <= |order|
      invariant StepsOk(engine.cfg, engine.View(), sid, steps)
      invariant forall j :: 0 <= j < |steps| ==> steps[j].service in order[..i]
      invariant forall v :: v in order[..i] && v in sole && HasTarget(engine.cfg, engine.View(), sid, v) ==>
                  StepFor(engine.cfg, engine.View(), sid, key, steps, v)
    {
      var v := order[i];
      assert order[..i + 1] == order[..i] + [v] && v !in order[..i];
      if v in sole {
        var best := BestTarget(engine, sid, v, key(v));
        if best.Some? {
          StepsGrow(engine.cfg, engine.View(), sid, key, steps, MigrationStep(v, best.value));
          steps := steps + [MigrationStep(v, best.value)];
        }
      }
      i := i + 1;
    }
    assert order[..|order|] == order;
    forall v | v in sole ensures v in order {
    }
  }

  lemma HostedAreKnown(cfg: Config, s: State, sid: int, order: seq<int>)
    requires GoodConfig(cfg) && Linked(cfg, s) && sid in s.servers && Enumerates(order, s.servers[sid].hosted.Keys)
    ensures forall i :: 0 <= i < |order| ==> order[i] in cfg.services
  {
    assert HostLinked(cfg, s.servers[sid].hosted, |s.objects|);
    forall i | 0 <= i < |order| ensures order[i] in cfg.services {
      var v := order[i];
      assert v in order;
    }
  }

  lemma StepsGrow(cfg: Config, s: State, sid: int, key: int -> (int -> real), steps: seq<MigrationStep>,
                  step: MigrationStep)
    requires GoodConfig(cfg) && Linked(cfg, s) && sid in s.servers && StepsOk(cfg, s, sid, steps)
    requires step.service in SoleHosted(s, sid) && step.service in cfg.services
    requires IsBest(cfg, s, sid, step.service, key(step.service), step.target)
    requires forall i :: 0 <= i < |steps| ==> steps[i].service != step.service
    ensures StepsOk(cfg, s, sid, steps + [step])
    ensures StepFor(cfg, s, sid, key, steps + [step], step.service)
    ensures forall v :: StepFor(cfg, s, sid, key, steps, v) ==> StepFor(cfg, s, sid, key, steps + [step], v)
  {
    var more := steps + [step];
    forall i | 0 <= i < |more| ensures StepOk(cfg, s, sid, more[i]) {
      if i < |steps| {
        assert StepOk(cfg, s, sid, steps[i]);
      }
    }
    assert more[|steps|] == step;
    forall v | StepFor(cfg, s, sid, key, steps, v) ensures StepFor(cfg, s, sid, key, more, v) {
      var i :| 0 <= i < |steps| && steps[i].service == v && IsBest(cfg, s, sid, v, key(v), steps[i].target);
      assert more[i] == steps[i];
    }
  }

  /** What `migration_decision` gives for this host. */
  ghost predicate Decided(cfg: Config, s: State, sid: int, plan: DrainPlan, key: int -> (int -> real))
    requires GoodConfig(cfg) && Linked(cfg, s) && sid in s.servers
  {
    && StepsOk(cfg, s, sid, plan.steps)
    && forall v :: v in SoleHosted(s, sid) && HasTarget(cfg, s, sid, v) ==> StepFor(cfg, s, sid, key, plan.steps, v)
  }

  /** The step for this service fits its target beside the steps kept before it. */
  ghost predicate StepFits(cfg: Config, s: State, steps: seq<MigrationStep>, marks: seq<bool>, v: int)
    requires GoodConfig(cfg) && s.servers.Keys == cfg.servers.Keys && StepsInBounds(cfg, s, steps)
    requires |marks| == |steps|
  {
    exists i :: 0 <= i < |steps| && steps[i].service == v && FitsBeside(cfg, s, steps, marks, i)
  }

  /** The services a drain cannot move are those with a live copy only on this host
      that no other ACTIVE server can take, or whose target has less free capacity,
      after the steps kept before on it, than the raw MIPS of the service. */
  lemma UnmigratedHasNoTarget(cfg: Config, s: State, sid: int, plan: DrainPlan, key: int -> (int -> real))
    returns (marks: seq<bool>)
    requires GoodConfig(cfg) && Linked(cfg, s) && sid in s.servers && PlanInBounds(cfg, s, plan)
    requires Decided(cfg, s, sid, plan, key)
    ensures s.servers.Keys == cfg.servers.Keys && StepsInBounds(cfg, s, plan.steps) && |marks| == |plan.steps|
    ensures forall i :: 0 <= i < |marks| ==> (marks[i] <==> FitsBeside(cfg, s, plan.steps, marks, i))
    ensures forall v :: v in Unmigrated(cfg, s, sid, plan) <==>
              && HostedOnlyOn(s, sid, v)
              && (!HasTarget(cfg, s, sid, v) || !StepFits(cfg, s, plan.steps, marks, v))
  {
    hide GoodConfig, KeepSteps, IsBest, SoleHosted, ServicesOf, FitsBeside, StepFor, HasTarget, HostedOnlyOn;
    marks := KeptIffFits(cfg, s, plan.steps);
    forall v
      ensures v in Unmigrated(cfg, s, sid, plan) <==>
                && HostedOnlyOn(s, sid, v)
                && (!HasTarget(cfg, s, sid, v) || !StepFits(cfg, s, plan.steps, marks, v))
    {
      SoleIsHostedOnly(s, sid, v);
      ChosenServices(plan.steps, marks, v);
      if MarkedFor(plan.steps, marks, v) {
        MarkedHasTarget(cfg, s, sid, plan.steps, marks, v);
      }
    }
  }

  lemma MarkedHasTarget(cfg: Config, s: State, sid: int, steps: seq<MigrationStep>, marks: seq<bool>, v: int)
    requires GoodConfig(cfg) && Linked(cfg, s) && sid in s.servers && StepsOk(cfg, s, sid, steps)
    requires MarkedFor(steps, marks, v)
    ensures HasTarget(cfg, s, sid, v)
  {
    hide GoodConfig, Linked, CanHost, SoleHosted;
    var i :| 0 <= i < |steps| && steps[i].service == v && marks[i];
    assert StepOk(cfg, s, sid, steps[i]);
    assert IsTarget(cfg, s, sid, v, steps[i].target);
  }

  /** The drain of an ACTIVE host begins exactly when every service with a live copy
      only there has a target and its step fits; the host is then DRAINING. */
  lemma DrainBegins(cfg: Config, s: State, sid: int, plan: DrainPlan, key: int -> (int -> real))
    returns (marks: seq<bool>)
    requires GoodConfig(cfg) && Linked(cfg, s) && sid in s.servers && PlanInBounds(cfg, s, plan)
    requires Decided(cfg, s, sid, plan, key) && s.servers[sid].phase == Active
    ensures s.servers.Keys == cfg.servers.Keys && StepsInBounds(cfg, s, plan.steps) && |marks| == |plan.steps|
    ensures forall i :: 0 <= i < |marks| ==> (marks[i] <==> FitsBeside(cfg, s, plan.steps, marks, i))
    ensures StartDrain(cfg, s, sid, plan).1 <==>
              forall v :: HostedOnlyOn(s, sid, v) ==>
                HasTarget(cfg, s, sid, v) && StepFits(cfg, s, plan.steps, marks, v)
    ensures StartDrain(cfg, s, sid, plan).1 ==>
              sid in StartDrain(cfg, s, sid, plan).0.servers
              && StartDrain(cfg, s, sid, plan).0.servers[sid].phase == Draining
  {
    hide GoodConfig, HasTarget, StepFits, HostedOnlyOn, Unmigrated, Drain, FitsBeside, RescueAll, Decided, Linked,
      PlanInBounds, StepsInBounds;
    marks := UnmigratedHasNoTarget(cfg, s, sid, plan, key);
    var left := Unmigrated(cfg, s, sid, plan);
    if left != {} {
      var v := Pick(left);
      assert HostedOnlyOn(s, sid, v);
    } else {
      forall v | HostedOnlyOn(s, sid, v)
        ensures HasTarget(cfg, s, sid, v) && StepFits(cfg, s, plan.steps, marks, v)
      {
        assert v !in left;
      }
    }
    DrainIsDraining(cfg, s, sid, plan);
  }

  lemma DrainIsDraining(cfg: Config, s: State, sid: int, plan: DrainPlan)
    requires GoodConfig(cfg) && Linked(cfg, s) && sid in s.servers && PlanInBounds(cfg, s, plan)
    ensures sid in Drain(cfg, s, sid, plan).servers && Drain(cfg, s, sid, plan).servers[sid].phase == Draining
  {
    hide GoodConfig, Linked, PlanInBounds, Drain, Balanced, SameTraffic;
    var d, r := MarkDraining(cfg, s, sid), Drain(cfg, s, sid, plan);
    DrainWorks(cfg, s, sid, plan);
    WorksKeys(cfg, d, r);
    assert SamePhase(d, r, sid) || BegunBoot(d, r, sid);
  }

  /** In particular it begins when each has a target and on every server the raw MIPS
      of all steps fit what is free. */
  lemma RoomyDrainBegins(cfg: Config, s: State, sid: int, plan: DrainPlan, key: int -> (int -> real))
    requires GoodConfig(cfg) && Linked(cfg, s) && sid in s.servers && PlanInBounds(cfg, s, plan)
    requires Decided(cfg, s, sid, plan, key) && s.servers[sid].phase == Active
    requires forall v :: HostedOnlyOn(s, sid, v) ==> HasTarget(cfg, s, sid, v)
    requires forall t :: t in s.servers && t in cfg.servers ==>
               UsedCpu(cfg, s, t) + RawOn(cfg, plan.steps, t) <= cfg.servers[t].capacity
    ensures StartDrain(cfg, s, sid, plan).1
  {
    hide GoodConfig, HasTarget, HostedOnlyOn, Drain, RescueAll, UsedCpu, KeepSteps, SoleHosted, IsBest;
    AllKept(cfg, s, plan.steps);
    forall v | v in SoleHosted(s, sid) ensures v in ServicesOf(plan.steps) {
      SoleIsHostedOnly(s, sid, v);
      var i :| 0 <= i < |plan.steps| && plan.steps[i].service == v;
    }
    assert Unmigrated(cfg, s, sid, plan) == {};
  }
}
