/** Draining a server: every migration that is kept is also placed, every other
    replica is told to leave, and the invariant holds afterwards. */
module EngineDrain {
  import opened Settings
  import opened ReplicaQueues
  import opened EngineModel
  import opened EngineInvariants
  import opened EngineClock
  import opened EngineOps
  import opened EngineBoot
  import opened EnginePlace
  import opened EngineRetire
  import opened EngineServers
  import opened EngineHandlers
  import opened EngineTick

  // ------------------------------------------------------------------
  // What a migration decision promises
  // ------------------------------------------------------------------

  /** One migration step moves a service hosted only here to another ACTIVE
      server that can host it. */
  ghost predicate StepOk(cfg: Config, s: State, sid: int, step: MigrationStep)
    requires GoodConfig(cfg) && Linked(cfg, s) && sid in s.servers
  {
    && step.service in SoleHosted(s, sid) && step.service in cfg.services
    && step.target in s.servers && step.target != sid
    && s.servers[step.target].phase == Active && CanHost(cfg, s, step.target, step.service)
  }

  ghost predicate StepsOk(cfg: Config, s: State, sid: int, steps: seq<MigrationStep>)
    requires GoodConfig(cfg) && Linked(cfg, s) && sid in s.servers
  {
    && (forall i :: 0 <= i < |steps| ==> StepOk(cfg, s, sid, steps[i]))
    && (forall i, j :: 0 <= i < j < |steps| ==> steps[i].service != steps[j].service)
  }

  /** `steps` as every algorithm's `migration_decision` gives them, `order` the
      replicas of the host, `picks` services the drain could not move. */
  ghost predicate PlanOk(cfg: Config, s: State, sid: int, plan: DrainPlan)
    requires GoodConfig(cfg) && Linked(cfg, s) && sid in s.servers
  {
    && StepsOk(cfg, s, sid, plan.steps)
    && Enumerates(plan.order, s.servers[sid].hosted.Keys)
    && (forall i :: 0 <= i < |plan.picks| ==> plan.picks[i].service in cfg.services)
  }

  lemma PlanIsInBounds(cfg: Config, s: State, sid: int, plan: DrainPlan)
    requires GoodConfig(cfg) && Linked(cfg, s) && sid in s.servers && PlanOk(cfg, s, sid, plan)
    ensures PlanInBounds(cfg, s, plan)
  {
    forall i | 0 <= i < |plan.steps|
      ensures plan.steps[i].target in s.servers && plan.steps[i].service in cfg.services
    {
      assert StepOk(cfg, s, sid, plan.steps[i]);
    }
  }

  // ------------------------------------------------------------------
  // The joint reservation check
  // ------------------------------------------------------------------

  /** What the steps ask for on one target, in raw MIPS. */
  function RawOn(cfg: Config, steps: seq<MigrationStep>, target: int): int
    decreases |steps|
  {
    if steps == [] then 0
    else
      var step := steps[|steps| - 1];
      RawOn(cfg, steps[..|steps| - 1], target)
      + (if step.target == target && step.service in cfg.services then cfg.services[step.service].resource else 0)
  }

  /** Each step fits what its target has free after the steps before it. */
  ghost predicate Fits(cfg: Config, s: State, steps: seq<MigrationStep>)
    requires GoodConfig(cfg) && Linked(cfg, s) && StepsInBounds(cfg, s, steps)
    decreases |steps|
  {
    steps == [] ||
    var n := |steps| - 1;
    && Fits(cfg, s, steps[..n])
    && FreeCapacity(cfg, s, steps[n].target) - RawOn(cfg, steps[..n], steps[n].target)
       >= cfg.services[steps[n].service].resource
  }

  /** The kept steps are a sub-list of the given ones. */
  ghost predicate Sublist(part: seq<MigrationStep>, whole: seq<MigrationStep>)
    decreases |whole|
  {
    if whole == [] then part == []
    else
      var n := |whole| - 1;
      || Sublist(part, whole[..n])
      || (part != [] && part[|part| - 1] == whole[n] && Sublist(part[..|part| - 1], whole[..n]))
  }

  lemma {:induction false} SublistMembers(part: seq<MigrationStep>, whole: seq<MigrationStep>)
    requires Sublist(part, whole)
    ensures forall i :: 0 <= i < |part| ==> part[i] in whole
    ensures (forall i, j :: 0 <= i < j < |whole| ==> whole[i].service != whole[j].service) ==>
              (forall i, j :: 0 <= i < j < |part| ==> part[i].service != part[j].service)
    decreases |whole|
  {
    if whole != [] {
      var n := |whole| - 1;
      if Sublist(part, whole[..n]) {
        SublistMembers(part, whole[..n]);
      } else {
        var m := |part| - 1;
        SublistMembers(part[..m], whole[..n]);
        forall i | 0 <= i < m ensures part[i] in whole[..n] {
          assert part[..m][i] == part[i];
        }
      }
    }
  }

  lemma RawOnAppend(cfg: Config, steps: seq<MigrationStep>, step: MigrationStep, target: int)
    ensures RawOn(cfg, steps + [step], target)
            == RawOn(cfg, steps, target)
               + if step.target == target && step.service in cfg.services
                 then cfg.services[step.service].resource else 0
  {
    assert (steps + [step])[..|steps|] == steps;
  }

  lemma FitsAppend(cfg: Config, s: State, kept: seq<MigrationStep>, step: MigrationStep)
    requires GoodConfig(cfg) && Linked(cfg, s) && StepsInBounds(cfg, s, kept) && Fits(cfg, s, kept)
    requires step.target in s.servers && step.service in cfg.services
    requires FreeCapacity(cfg, s, step.target) - RawOn(cfg, kept, step.target) >= cfg.services[step.service].resource
    ensures StepsInBounds(cfg, s, kept + [step]) && Fits(cfg, s, kept + [step])
  {
    hide GoodConfig, Linked, FreeCapacity, RawOn;
    assert (kept + [step])[..|kept|] == kept;
  }

  lemma SublistAppend(part: seq<MigrationStep>, whole: seq<MigrationStep>, step: MigrationStep)
    requires Sublist(part, whole)
    ensures Sublist(part, whole + [step]) && Sublist(part + [step], whole + [step])
  {
    assert (whole + [step])[..|whole|] == whole && (part + [step])[..|part|] == part;
  }

  lemma {:induction false} KeptFit(cfg: Config, s: State, steps: seq<MigrationStep>)
    requires GoodConfig(cfg) && Linked(cfg, s) && StepsInBounds(cfg, s, steps)
    ensures var (kept, reserved) := KeepSteps(cfg, s, steps);
            && Sublist(kept, steps) && Fits(cfg, s, kept)
            && forall t :: Reserved(reserved, t) == RawOn(cfg, kept, t)
    decreases |steps|
  {
    if steps != [] {
      var n := |steps| - 1;
      KeptFit(cfg, s, steps[..n]);
      var (kept, reserved) := KeepSteps(cfg, s, steps[..n]);
      var (more, promised) := KeepSteps(cfg, s, steps);
      hide GoodConfig, FreeCapacity, RawOn, Sublist, Fits;
      assert steps == steps[..n] + [steps[n]];
      SublistAppend(kept, steps[..n], steps[n]);
      if more != kept {
        FitsAppend(cfg, s, kept, steps[n]);
        forall t ensures Reserved(promised, t) == RawOn(cfg, more, t) {
          RawOnAppend(cfg, kept, steps[n], t);
        }
      }
    }
  }

  /** The given steps that are marked. */
  function Chosen(steps: seq<MigrationStep>, marks: seq<bool>): seq<MigrationStep>
    requires |marks| == |steps|
  {
    if steps == [] then []
    else
      var n := |steps| - 1;
      Chosen(steps[..n], marks[..n]) + if marks[n] then [steps[n]] else []
  }

  /** What the marked steps before the i-th ask for on its target, in raw MIPS. */
  function AskedBefore(cfg: Config, steps: seq<MigrationStep>, marks: seq<bool>, i: nat, target: int): int
    requires |marks| == |steps| && i <= |steps|
  {
    if i == 0 then 0
    else
      var step := steps[i - 1];
      AskedBefore(cfg, steps, marks, i - 1, target)
      + if marks[i - 1] && step.target == target && step.service in cfg.services
        then cfg.services[step.service].resource else 0
  }

  /** The i-th step still fits its target beside the marked steps before it. */
  ghost predicate FitsBeside(cfg: Config, s: State, steps: seq<MigrationStep>, marks: seq<bool>, i: nat)
    requires GoodConfig(cfg) && s.servers.Keys == cfg.servers.Keys && StepsInBounds(cfg, s, steps)
    requires |marks| == |steps| && i < |steps|
  {
    cfg.servers[steps[i].target].capacity - UsedCpu(cfg, s, steps[i].target)
    - AskedBefore(cfg, steps, marks, i, steps[i].target)
    >= cfg.services[steps[i].service].resource
  }

  lemma {:induction false} AskedIsRaw(cfg: Config, steps: seq<MigrationStep>, marks: seq<bool>, target: int)
    requires |marks| == |steps|
    ensures AskedBefore(cfg, steps, marks, |steps|, target) == RawOn(cfg, Chosen(steps, marks), target)
    decreases |steps|
  {
    if steps != [] {
      var n := |steps| - 1;
      AskedIsRaw(cfg, steps[..n], marks[..n], target);
      AskedOfPrefix(cfg, steps, marks, n, n, target);
      if marks[n] {
        var before := Chosen(steps[..n], marks[..n]);
        var all := before + [steps[n]];
        assert Chosen(steps, marks) == all;
        RawOnAppend(cfg, before, steps[n], target);
      } else {
        assert Chosen(steps, marks) == Chosen(steps[..n], marks[..n]);
      }
    }
  }

  lemma {:induction false} AskedOfPrefix(cfg: Config, steps: seq<MigrationStep>, marks: seq<bool>, n: nat, i: nat,
                                         target: int)
    requires |marks| == |steps| && i <= n <= |steps|
    ensures AskedBefore(cfg, steps[..n], marks[..n], i, target) == AskedBefore(cfg, steps, marks, i, target)
  {
    if i > 0 {
      AskedOfPrefix(cfg, steps, marks, n, i - 1, target);
    }
  }

  /** A step is kept if and only if its target's free capacity, less the raw MIPS of
      the kept steps before it on the same target, is at least its own raw MIPS. */
  lemma {:induction false} KeptIffFits(cfg: Config, s: State, steps: seq<MigrationStep>) returns (marks: seq<bool>)
    requires GoodConfig(cfg) && Linked(cfg, s) && StepsInBounds(cfg, s, steps)
    ensures |marks| == |steps| && KeepSteps(cfg, s, steps).0 == Chosen(steps, marks)
    ensures forall i :: 0 <= i < |steps| ==> (marks[i] <==> FitsBeside(cfg, s, steps, marks, i))
    decreases |steps|
  {
    if steps == [] {
      marks := [];
    } else {
      hide GoodConfig, FreeCapacity, UsedCpu, FitsBeside, KeepSteps, Chosen;
      var n := |steps| - 1;
      var before := KeptIffFits(cfg, s, steps[..n]);
      var last := KeptLast(cfg, s, steps, before);
      marks := before + [last];
      assert marks[..n] == before;
      forall i | 0 <= i < n ensures marks[i] <==> FitsBeside(cfg, s, steps, marks, i) {
        assert before[i] <==> FitsBeside(cfg, s, steps[..n], before, i);
        FitsInPrefix(cfg, s, steps, marks, n, i);
      }
    }
  }

  lemma FitsInPrefix(cfg: Config, s: State, steps: seq<MigrationStep>, marks: seq<bool>, n: nat, i: nat)
    requires GoodConfig(cfg) && s.servers.Keys == cfg.servers.Keys && StepsInBounds(cfg, s, steps)
    requires |marks| == |steps| && i < n <= |steps|
    ensures StepsInBounds(cfg, s, steps[..n])
    ensures FitsBeside(cfg, s, steps, marks, i) <==> FitsBeside(cfg, s, steps[..n], marks[..n], i)
  {
    hide GoodConfig, UsedCpu;
    AskedOfPrefix(cfg, steps, marks, n, i, steps[i].target);
  }

  /** Whether the last step is kept. */
  lemma KeptLast(cfg: Config, s: State, steps: seq<MigrationStep>, before: seq<bool>) returns (last: bool)
    requires GoodConfig(cfg) && Linked(cfg, s) && StepsInBounds(cfg, s, steps) && steps != []
    requires |before| == |steps| - 1 && KeepSteps(cfg, s, steps[..|before|]).0 == Chosen(steps[..|before|], before)
    ensures s.servers.Keys == cfg.servers.Keys
    ensures var marks := before + [last];
            && KeepSteps(cfg, s, steps).0 == Chosen(steps, marks)
            && (last <==> FitsBeside(cfg, s, steps, marks, |before|))
  {
    hide GoodConfig, UsedCpu, RawOn, Fits, Sublist;
    var n := |before|;
    var t := steps[n].target;
    KeptFit(cfg, s, steps[..n]);
    AskedIsRaw(cfg, steps[..n], before, t);
    last := FreeCapacity(cfg, s, t) - AskedBefore(cfg, steps[..n], before, n, t)
            >= cfg.services[steps[n].service].resource;
    var marks := before + [last];
    assert marks[..n] == before;
    AskedOfPrefix(cfg, steps, marks, n, n, t);
  }

  /** A marked step moves this service. */
  ghost predicate MarkedFor(steps: seq<MigrationStep>, marks: seq<bool>, v: int) {
    |marks| == |steps| && exists i :: 0 <= i < |steps| && steps[i].service == v && marks[i]
  }

  lemma {:induction false} ChosenServices(steps: seq<MigrationStep>, marks: seq<bool>, v: int)
    requires |marks| == |steps|
    ensures v in ServicesOf(Chosen(steps, marks)) <==> MarkedFor(steps, marks, v)
    decreases |steps|
  {
    if steps != [] {
      var n := |steps| - 1;
      ChosenServices(steps[..n], marks[..n], v);
      var before := Chosen(steps[..n], marks[..n]);
      ServicesAppend(before, steps[n], v);
      assert Chosen(steps, marks) == if marks[n] then before + [steps[n]] else before;
      if i :| 0 <= i < n && steps[i].service == v && marks[i] {
        assert steps[..n][i].service == v && marks[..n][i];
      }
      if MarkedFor(steps[..n], marks[..n], v) {
        var i :| 0 <= i < n && steps[..n][i].service == v && marks[..n][i];
        assert steps[i].service == v && marks[i];
      }
    }
  }

  lemma ServicesAppend(steps: seq<MigrationStep>, step: MigrationStep, v: int)
    ensures v in ServicesOf(steps + [step]) <==> v in ServicesOf(steps) || v == step.service
  {
    var more := steps + [step];
    if v in ServicesOf(steps) {
      var i :| 0 <= i < |steps| && steps[i].service == v;
      assert more[i].service == v;
    }
    assert more[|steps|] == step;
  }

  /** A copy on this server that is not terminated. */
  ghost predicate AliveAt(s: State, x: int, v: int) {
    InSlot(s, x, v) && At(s, x, v) < |s.objects| && s.objects[At(s, x, v)].phase != Terminated
  }

  ghost predicate HostedOnlyOn(s: State, sid: int, v: int) {
    AliveAt(s, sid, v) && forall x :: AliveAt(s, x, v) ==> x == sid
  }

  /** The sole-hosted services are those with a live copy here and nowhere else. */
  lemma SoleIsHostedOnly(s: State, sid: int, v: int)
    requires sid in s.servers
    ensures v in SoleHosted(s, sid) <==> HostedOnlyOn(s, sid, v)
  {
    if v in SoleHosted(s, sid) {
      forall x | AliveAt(s, x, v) ensures x == sid {
        assert InSlot(s, x, v);
      }
    }
    if HostedOnlyOn(s, sid, v) {
      forall x | x in s.servers && x != sid && v in s.servers[x].hosted && At(s, x, v) < |s.objects|
        ensures s.objects[At(s, x, v)].phase == Terminated
      {
        assert !AliveAt(s, x, v);
      }
    }
  }

  /** If on every target the raw MIPS of all steps fit what is free, all are kept. */
  lemma {:induction false} AllKept(cfg: Config, s: State, steps: seq<MigrationStep>)
    requires GoodConfig(cfg) && Linked(cfg, s) && StepsInBounds(cfg, s, steps)
    requires forall t :: t in s.servers ==> UsedCpu(cfg, s, t) + RawOn(cfg, steps, t) <= cfg.servers[t].capacity
    ensures KeepSteps(cfg, s, steps).0 == steps
    decreases |steps|
  {
    hide GoodConfig, UsedCpu;
    if steps != [] {
      var n := |steps| - 1;
      RawIsPositive(cfg, steps[n].service);
      assert forall t :: RawOn(cfg, steps[..n], t) <= RawOn(cfg, steps, t);
      AllKept(cfg, s, steps[..n]);
      KeptFit(cfg, s, steps[..n]);
    }
  }

  lemma RawIsPositive(cfg: Config, svc: int)
    requires GoodConfig(cfg) && svc in cfg.services
    ensures cfg.services[svc].resource > 0
  {
    assert GoodService(cfg.services[svc]);
  }

  lemma KeptStepsOk(cfg: Config, s: State, sid: int, plan: DrainPlan)
    requires GoodConfig(cfg) && Linked(cfg, s) && sid in s.servers && PlanOk(cfg, s, sid, plan)
    ensures PlanInBounds(cfg, s, plan)
    ensures var kept := KeepSteps(cfg, s, plan.steps).0; StepsOk(cfg, s, sid, kept) && Fits(cfg, s, kept)
  {
    PlanIsInBounds(cfg, s, sid, plan);
    KeptFit(cfg, s, plan.steps);
    var kept := KeepSteps(cfg, s, plan.steps).0;
    SublistMembers(kept, plan.steps);
    forall i | 0 <= i < |kept| ensures StepOk(cfg, s, sid, kept[i]) {
      var j :| 0 <= j < |plan.steps| && plan.steps[j] == kept[i];
      assert StepOk(cfg, s, sid, plan.steps[j]);
    }
  }

  // ------------------------------------------------------------------
  // Placing the migrations
  // ------------------------------------------------------------------

  /** What placing migrations changes besides the events: old replicas stay as
      and where they are, new ones appear on the targets. */
  ghost predicate MovedFrom(cfg: Config, s: State, m: State, sid: int, steps: seq<MigrationStep>)
    requires GoodConfig(cfg)
  {
    && m.servers.Keys == s.servers.Keys && m.now == s.now && m.ticks == s.ticks && m.rescue == s.rescue
    && |s.objects| <= |m.objects| && (forall o :: 0 <= o < |s.objects| ==> m.objects[o] == s.objects[o])
    && (forall x :: x in s.servers ==>
          && m.servers[x].phase == s.servers[x].phase
          && m.servers[x].lastTransition == s.servers[x].lastTransition
          && UsedCpu(cfg, m, x) <= UsedCpu(cfg, s, x) + RawOn(cfg, steps, x))
    && (forall x, v :: InSlot(s, x, v) ==> InSlot(m, x, v) && At(m, x, v) == At(s, x, v))
    && (forall x, v :: InSlot(m, x, v) && !InSlot(s, x, v) ==> Targeted(steps, x, v) && At(m, x, v) >= |s.objects|)
    && (forall o :: |s.objects| <= o < |m.objects| ==> m.objects[o].phase == Starting)
    && (forall i :: 0 <= i < |steps| ==> MigratesTo(m, sid, steps[i].service, steps[i].target))
  }

  ghost predicate Targeted(steps: seq<MigrationStep>, x: int, v: int) {
    exists i :: 0 <= i < |steps| && steps[i] == MigrationStep(v, x)
  }

  /** The placement of a kept step cannot fail: what was reserved for it in raw
      MIPS is still free, and its effective demand is no larger. */
  lemma KeptStepIsHosted(cfg: Config, s: State, m: State, sid: int, steps: seq<MigrationStep>)
    requires GoodConfig(cfg) && Linked(cfg, s) && Linked(cfg, m) && sid in s.servers && steps != []
    requires StepsOk(cfg, s, sid, steps) && StepsInBounds(cfg, s, steps) && Fits(cfg, s, steps)
    requires MovedFrom(cfg, s, m, sid, steps[..|steps| - 1])
    ensures CanHost(cfg, m, steps[|steps| - 1].target, steps[|steps| - 1].service)
    ensures !InSlot(m, steps[|steps| - 1].target, steps[|steps| - 1].service)
  {
    var n := |steps| - 1;
    var t, v := steps[n].target, steps[n].service;
    assert StepOk(cfg, s, sid, steps[n]);
    EffectiveAtMostRaw(cfg, t, v);
    assert !InSlot(s, t, v);
    forall i | 0 <= i < n ensures steps[..n][i] != MigrationStep(v, t) {
      assert steps[..n][i] == steps[i];
    }
    assert !Targeted(steps[..n], t, v);
  }

  /** What one placed migration changes. */
  ghost predicate OneMoved(m: State, r: State, t: int, v: int, sid: int) {
    && t in m.servers && r.servers.Keys == m.servers.Keys
    && r.now == m.now && r.ticks == m.ticks && r.rescue == m.rescue
    && |r.objects| == |m.objects| + 1 && (forall o :: 0 <= o < |m.objects| ==> r.objects[o] == m.objects[o])
    && r.objects[|m.objects|].phase == Starting
    && (forall x :: x in m.servers && x != t ==> r.servers[x] == m.servers[x])
    && r.servers[t].phase == m.servers[t].phase && r.servers[t].lastTransition == m.servers[t].lastTransition
    && r.servers[t].hosted == m.servers[t].hosted[v := |m.objects|]
    && r.pending == m.pending[Slot(t, v) := sid]
  }

  lemma MigrateShape(cfg: Config, m: State, sid: int, step: MigrationStep)
    requires GoodConfig(cfg) && Linked(cfg, m) && sid in m.servers && step.service in cfg.services
    requires step.target in m.servers && CanHost(cfg, m, step.target, step.service)
    ensures OneMoved(m, Migrate(cfg, m, sid, step), step.target, step.service, sid)
  {
    hide Linked, FreeCapacity, UsedCpu, CanHost;
    var s1 := Create(cfg, m, step.target, step.service);
    assert forall o :: 0 <= o < |m.objects| ==> s1.objects[o] == m.objects[o];
  }

  lemma MovedSlots(cfg: Config, s: State, m: State, r: State, sid: int, steps: seq<MigrationStep>)
    requires GoodConfig(cfg) && steps != [] && MovedFrom(cfg, s, m, sid, steps[..|steps| - 1])
    requires var step := steps[|steps| - 1];
             OneMoved(m, r, step.target, step.service, sid) && !InSlot(m, step.target, step.service)
    ensures forall x, w :: InSlot(r, x, w) && !InSlot(s, x, w) ==> Targeted(steps, x, w) && At(r, x, w) >= |s.objects|
    ensures forall x, w :: InSlot(s, x, w) ==> InSlot(r, x, w) && At(r, x, w) == At(s, x, w)
    ensures forall i :: 0 <= i < |steps| ==> MigratesTo(r, sid, steps[i].service, steps[i].target)
  {
    var n := |steps| - 1;
    var t, v := steps[n].target, steps[n].service;
    forall x, w | InSlot(r, x, w) && !InSlot(s, x, w) ensures Targeted(steps, x, w) && At(r, x, w) >= |s.objects| {
      if x == t && w == v {
        assert steps[n] == MigrationStep(w, x);
      } else {
        assert InSlot(m, x, w) && Targeted(steps[..n], x, w);
        var i :| 0 <= i < n && steps[..n][i] == MigrationStep(w, x);
        assert steps[i] == MigrationStep(w, x);
      }
    }
    forall x, w | InSlot(s, x, w) ensures InSlot(r, x, w) && At(r, x, w) == At(s, x, w) {
      assert InSlot(m, x, w) && At(m, x, w) == At(s, x, w);
    }
    forall i | 0 <= i < |steps| ensures MigratesTo(r, sid, steps[i].service, steps[i].target) {
      if i < n {
        assert MigratesTo(m, sid, steps[..n][i].service, steps[..n][i].target);
      }
    }
  }

  lemma PlaceMoves(cfg: Config, s: State, m: State, sid: int, steps: seq<MigrationStep>)
    requires GoodConfig(cfg) && Linked(cfg, s) && Linked(cfg, m) && sid in s.servers && steps != []
    requires s.servers.Keys == cfg.servers.Keys
    requires StepsInBounds(cfg, s, steps)
    requires MovedFrom(cfg, s, m, sid, steps[..|steps| - 1])
    requires CanHost(cfg, m, steps[|steps| - 1].target, steps[|steps| - 1].service)
    requires !InSlot(m, steps[|steps| - 1].target, steps[|steps| - 1].service)
    ensures MovedFrom(cfg, s, Migrate(cfg, m, sid, steps[|steps| - 1]), sid, steps)
  {
    hide Migrate, UsedCpu, CanHost, RawOn, MigratesTo, Targeted, Linked;
    var step := steps[|steps| - 1];
    var r := Migrate(cfg, m, sid, step);
    MigrateShape(cfg, m, sid, step);
    MovedSlots(cfg, s, m, r, sid, steps);
    PlaceCpu(cfg, s, m, r, step.target, step.service, steps);
  }

  lemma PlaceCpu(cfg: Config, s: State, m: State, r: State, t: int, v: int, steps: seq<MigrationStep>)
    requires GoodConfig(cfg) && s.servers.Keys == cfg.servers.Keys == m.servers.Keys == r.servers.Keys
    requires steps != [] && steps[|steps| - 1] == MigrationStep(v, t) && t in s.servers && v in cfg.services
    requires forall x :: x in s.servers ==>
               UsedCpu(cfg, m, x) <= UsedCpu(cfg, s, x) + RawOn(cfg, steps[..|steps| - 1], x)
    requires forall x :: x in s.servers && x != t ==> r.servers[x].hosted == m.servers[x].hosted
    requires v !in m.servers[t].hosted && r.servers[t].hosted.Keys == m.servers[t].hosted.Keys + {v}
    ensures forall x :: x in s.servers ==> UsedCpu(cfg, r, x) <= UsedCpu(cfg, s, x) + RawOn(cfg, steps, x)
  {
    CpuSumAdd(cfg, t, m.servers[t].hosted.Keys, v);
    EffectiveAtMostRaw(cfg, t, v);
    forall x | x in s.servers ensures UsedCpu(cfg, r, x) <= UsedCpu(cfg, s, x) + RawOn(cfg, steps, x) {
      if x != t {
        assert UsedCpu(cfg, r, x) == UsedCpu(cfg, m, x);
      }
    }
  }

  /** Recording a pending migration whose destination becomes ready in time. */
  ghost predicate MayPend(cfg: Config, s: State, slot: Slot, source: int) {
    && slot !in s.pending
    && InSlot(s, slot.server, slot.service) && At(s, slot.server, slot.service) < |s.objects|
    && s.objects[At(s, slot.server, slot.service)].phase == Starting
    && s.servers[slot.server].phase == Active
    && source in s.servers && s.servers[source].phase == Draining
    && forall k :: k in s.heap && s.heap[k].kind.ReplicaReady? && s.heap[k].kind.slot == slot ==>
                     s.heap[k].time == s.servers[source].lastTransition + cfg.delays.startup
  }

  lemma PendEvents(cfg: Config, s: State, r: State, tau: real)
    requires r == s.(pending := r.pending) && EventsOk(cfg, s, tau) && GonePairsOk(cfg, s)
    ensures EventsOk(cfg, r, tau) && GonePairsOk(cfg, r)
  {
    forall k | k in r.heap ensures k <= r.lastSeq && EventOk(cfg, r, tau, r.heap[k]) {
      assert EventOk(cfg, s, tau, s.heap[k]);
      if s.heap[k].kind.ReplicaGone? || s.heap[k].kind.ReplicaReady? {
        var slot := s.heap[k].kind.slot;
        assert InSlot(r, slot.server, slot.service) <==> InSlot(s, slot.server, slot.service);
      }
    }
    forall i, j | i in r.heap && j in r.heap ensures GonePairOk(cfg, r, i, j) {
      assert GonePairOk(cfg, s, i, j);
    }
  }

  lemma PendArmed(s: State, r: State, handled: set<Kind>)
    requires r == s.(pending := r.pending) && SlotsOk(s) && SlotsOk(r)
    requires ServersArmed(s, handled) && SlotsArmed(s, handled)
    ensures ServersArmed(r, handled) && SlotsArmed(r, handled)
  {
    forall x, v | InSlot(r, x, v) ensures SlotOk(r, x, v) && SlotArmed(r, x, v, handled) {
      assert InSlot(s, x, v) && SlotOk(s, x, v) && SlotArmed(s, x, v, handled);
    }
    forall x | x in r.servers ensures ServerArmed(r, x, handled) {
      assert ServerArmed(s, x, handled);
    }
  }

  lemma PendRest(cfg: Config, s: State, slot: Slot, source: int)
    requires MayPend(cfg, s, slot, source) && PendingOk(cfg, s) && QueuesOk(s) && DrainBoundOk(cfg, s)
    ensures var r := s.(pending := s.pending[slot := source]); PendingOk(cfg, r) && QueuesOk(r) && DrainBoundOk(cfg, r)
  {
    var r := s.(pending := s.pending[slot := source]);
    forall other | other in r.pending ensures PendingEntryOk(cfg, r, other) {
      if other != slot {
        assert PendingEntryOk(cfg, s, other) && InSlot(s, other.server, other.service);
      }
      assert InSlot(r, other.server, other.service);
    }
    forall o | 0 <= o < |r.objects| ensures QueueOk(r, o) {
      assert QueueOk(s, o);
    }
    forall j | j in r.heap && r.heap[j].kind.DrainDone? && r.heap[j].kind.server in r.servers
      ensures DueInTime(cfg, r, r.heap[j].kind.server, r.heap[j].time - cfg.delays.grace)
    {
      assert DueInTime(cfg, s, s.heap[j].kind.server, s.heap[j].time - cfg.delays.grace);
    }
  }

  lemma PendKeeps(cfg: Config, s: State, tau: real, handled: set<Kind>, slot: Slot, source: int)
    requires Core(cfg, s, tau, handled) && MayPend(cfg, s, slot, source)
    ensures Core(cfg, s.(pending := s.pending[slot := source]), tau, handled)
  {
    hide SlotsOk, IndexOk, CapacityOk, PhasesOk, EventsOk, UniqueOk, GonePairsOk, ServersArmed, SlotsArmed,
      PendingOk, RescueOk, QueuesOk, MetersOk, DrainBoundOk, CoverOk, HandledOk;
    var r := s.(pending := s.pending[slot := source]);
    HostingKept(cfg, s, r);
    PhasesFrame(s, r);
    RescueFrame(s, r);
    MetersFrame(cfg, s, r);
    PendEvents(cfg, s, r, tau);
    PendArmed(s, r, handled);
    PendRest(cfg, s, slot, source);
  }

  /** The one ready event of a fresh placement is due one startup delay from now. */
  lemma PlacedMayPend(cfg: Config, s: State, tau: real, t: int, v: int, source: int)
    requires GoodConfig(cfg) && Linked(cfg, s) && EventsOk(cfg, s, tau) && PendingOk(cfg, s)
    requires v in cfg.services && Vacant(s, t, v) && CanHost(cfg, s, t, v) && s.servers[t].phase == Active
    requires source in s.servers && source != t && s.servers[source].phase == Draining
    requires s.servers[source].lastTransition == s.now
    ensures MayPend(cfg, Place(cfg, s, t, v).0, Slot(t, v), source)
  {
    var r := Place(cfg, s, t, v).0;
    assert Slot(t, v) in s.pending ==> PendingEntryOk(cfg, s, Slot(t, v));
    assert InSlot(r, t, v) && At(r, t, v) == |s.objects|;
    forall k | k in s.heap ensures !(s.heap[k].kind.ReplicaReady? && s.heap[k].kind.slot == Slot(t, v)) {
      assert EventOk(cfg, s, tau, s.heap[k]);
      assert !InSlot(s, t, v);
    }
  }

  lemma MigrateKeeps(cfg: Config, m: State, tau: real, handled: set<Kind>, sid: int, step: MigrationStep)
    requires Core(cfg, m, tau, handled) && step.service in cfg.services && sid in m.servers && step.target != sid
    requires step.target in m.servers && m.servers[step.target].phase == Active
    requires CanHost(cfg, m, step.target, step.service)
    requires m.servers[sid].phase == Draining && m.servers[sid].lastTransition == m.now
    requires m.now + cfg.delays.startup < tau
    requires forall kind :: kind in handled ==> !kind.ReplicaReady?
    ensures Core(cfg, Migrate(cfg, m, sid, step), tau, handled)
  {
    hide SlotsOk, IndexOk, CapacityOk, PhasesOk, EventsOk, UniqueOk, GonePairsOk, ServersArmed, SlotsArmed,
      PendingOk, RescueOk, QueuesOk, MetersOk, DrainBoundOk, CoverOk, HandledOk, MayPend;
    var t, v := step.target, step.service;
    ActiveIsVacant(cfg, m, tau, t, v);
    PlaceKeeps(cfg, m, tau, handled, t, v);
    PlacedMayPend(cfg, m, tau, t, v, sid);
    PendKeeps(cfg, Place(cfg, m, t, v).0, tau, handled, Slot(t, v), sid);
  }

  /** Every kept migration step is placed. */
  lemma {:induction false} MigrateAllKeeps(cfg: Config, s: State, tau: real, handled: set<Kind>,
                                           sid: int, steps: seq<MigrationStep>)
    requires Core(cfg, s, tau, handled) && sid in s.servers && StepsInBounds(cfg, s, steps)
    requires StepsOk(cfg, s, sid, steps) && Fits(cfg, s, steps)
    requires s.servers[sid].phase == Draining && s.servers[sid].lastTransition == s.now
    requires s.now + cfg.delays.startup < tau
    requires forall kind :: kind in handled ==> !kind.ReplicaReady?
    ensures Core(cfg, MigrateAll(cfg, s, sid, steps), tau, handled)
    ensures MovedFrom(cfg, s, MigrateAll(cfg, s, sid, steps), sid, steps)
    decreases |steps|
  {
    hide SlotsOk, IndexOk, CapacityOk, PhasesOk, EventsOk, UniqueOk, GonePairsOk, ServersArmed, SlotsArmed,
      PendingOk, RescueOk, QueuesOk, MetersOk, DrainBoundOk, CoverOk, HandledOk;
    if steps != [] {
      var n := |steps| - 1;
      MigrateAllKeeps(cfg, s, tau, handled, sid, steps[..n]);
      var m := MigrateAll(cfg, s, sid, steps[..n]);
      assert StepOk(cfg, s, sid, steps[n]);
      KeptStepIsHosted(cfg, s, m, sid, steps);
      MigrateKeeps(cfg, m, tau, handled, sid, steps[n]);
      assert s.servers.Keys == cfg.servers.Keys;
      PlaceMoves(cfg, s, m, sid, steps);
    }
  }

  // ------------------------------------------------------------------
  // Retiring the others
  // ------------------------------------------------------------------

  /** The terminations due on this host are within the bound of a drain begun now. */
  ghost predicate GoneWithin(cfg: Config, s: State, sid: int) {
    forall k :: k in s.heap && s.heap[k].kind.ReplicaGone? && s.heap[k].kind.slot.server == sid
                && s.heap[k].kind.owner < |s.objects| ==>
                  s.heap[k].time <= Later(s.now + cfg.delays.graceful,
                                          s.objects[s.heap[k].kind.owner].queue.availableAt)
  }

  lemma ActiveGoneWithin(cfg: Config, s: State, tau: real, sid: int)
    requires EventsOk(cfg, s, tau) && sid in s.servers && s.servers[sid].phase == Active
    ensures GoneWithin(cfg, s, sid)
  {
    forall k | k in s.heap && s.heap[k].kind.ReplicaGone? && s.heap[k].kind.slot.server == sid
               && s.heap[k].kind.owner < |s.objects|
      ensures s.heap[k].time <= Later(s.now + cfg.delays.graceful,
                                      s.objects[s.heap[k].kind.owner].queue.availableAt)
    {
      assert EventOk(cfg, s, tau, s.heap[k]);
    }
  }

  /** Only new ready events were added. */
  ghost predicate OnlyNewReady(s: State, m: State) {
    && m.now == s.now && |s.objects| <= |m.objects|
    && (forall o :: 0 <= o < |s.objects| ==> m.objects[o] == s.objects[o])
    && forall k :: k in m.heap && m.heap[k].kind.ReplicaGone? ==>
         k in s.heap && s.heap[k] == m.heap[k]
  }

  lemma {:induction false} MigrateAllEvents(cfg: Config, s: State, sid: int, steps: seq<MigrationStep>)
    requires GoodConfig(cfg) && Linked(cfg, s) && sid in s.servers && StepsInBounds(cfg, s, steps)
    ensures OnlyNewReady(s, MigrateAll(cfg, s, sid, steps))
    decreases |steps|
  {
    hide Linked, CanHost, GoodConfig, Create;
    if steps != [] {
      var n := |steps| - 1;
      MigrateAllEvents(cfg, s, sid, steps[..n]);
      MigrateEvents(cfg, MigrateAll(cfg, s, sid, steps[..n]), sid, steps[n]);
    }
  }

  lemma MigrateEvents(cfg: Config, m: State, sid: int, step: MigrationStep)
    requires GoodConfig(cfg) && Linked(cfg, m) && sid in m.servers
    requires step.target in m.servers && step.service in cfg.services
    ensures OnlyNewReady(m, Migrate(cfg, m, sid, step))
  {
    hide Linked, CanHost, FreeCapacity, UsedCpu;
    var s1 := Create(cfg, m, step.target, step.service);
    assert forall o :: 0 <= o < |m.objects| ==> s1.objects[o] == m.objects[o];
  }

  lemma StillWithin(cfg: Config, s: State, m: State, tau: real, sid: int)
    requires EventsOk(cfg, s, tau) && GoneWithin(cfg, s, sid) && OnlyNewReady(s, m)
    ensures GoneWithin(cfg, m, sid)
  {
    forall k | k in m.heap && m.heap[k].kind.ReplicaGone? && m.heap[k].kind.slot.server == sid
               && m.heap[k].kind.owner < |m.objects|
      ensures m.heap[k].time <= Later(m.now + cfg.delays.graceful,
                                      m.objects[m.heap[k].kind.owner].queue.availableAt)
    {
      assert EventOk(cfg, s, tau, s.heap[k]);
    }
  }

  lemma RetireWithin(cfg: Config, s: State, sid: int, o: nat)
    requires GoneWithin(cfg, s, sid) && o < |s.objects|
    ensures GoneWithin(cfg, Retire(cfg, s, o), sid)
  {
    var r := Retire(cfg, s, o);
    forall k | k in r.heap && r.heap[k].kind.ReplicaGone? && r.heap[k].kind.slot.server == sid
               && r.heap[k].kind.owner < |r.objects|
      ensures r.heap[k].time <= Later(r.now + cfg.delays.graceful,
                                      r.objects[r.heap[k].kind.owner].queue.availableAt)
    {
      if k != r.lastSeq {
        assert k in s.heap && s.heap[k] == r.heap[k];
      }
    }
  }

  /** A host that has just begun to drain, all of its replicas ready or leaving. */
  ghost predicate DrainBegun(cfg: Config, s: State, sid: int) {
    && sid in s.servers && s.servers[sid].phase == Draining && s.servers[sid].lastTransition == s.now
    && Settled(s, sid) && GoneWithin(cfg, s, sid)
  }

  /** Retiring one replica leaves the others as they are, and it leaving. */
  ghost predicate OneRetired(s: State, r: State, o: nat) {
    && r == s.(heap := r.heap, lastSeq := r.lastSeq, objects := r.objects)
    && o < |s.objects| && |r.objects| == |s.objects|
    && r.objects == s.objects[o := s.objects[o].(phase := Leaving)]
  }

  lemma RetireOne(cfg: Config, s: State, sid: int, v: int)
    requires DrainBegun(cfg, s, sid) && InSlot(s, sid, v)
    ensures At(s, sid, v) < |s.objects| && MayLeave(s, sid, v, At(s, sid, v))
    ensures StaleGoneBounded(cfg, s, sid, v, At(s, sid, v))
    ensures OneRetired(s, Retire(cfg, s, At(s, sid, v)), At(s, sid, v))
    ensures DrainBegun(cfg, Retire(cfg, s, At(s, sid, v)), sid)
  {
    var o := At(s, sid, v);
    var r := Retire(cfg, s, o);
    assert s.objects[o].phase in {Ready, Leaving};
    RetireWithin(cfg, s, sid, o);
    forall w | InSlot(r, sid, w)
      ensures At(r, sid, w) < |r.objects| && r.objects[At(r, sid, w)].phase in {Ready, Leaving}
    {
      assert InSlot(s, sid, w);
    }
  }

  /** The replicas visited and not migrated are leaving; the rest are as they were. */
  ghost predicate Retired(s: State, r: State, sid: int, order: seq<int>, migrated: set<int>) {
    && r == s.(heap := r.heap, lastSeq := r.lastSeq, objects := r.objects) && |r.objects| == |s.objects|
    && (forall v :: InSlot(s, sid, v) && v in order && v !in migrated && At(s, sid, v) < |s.objects| ==>
          r.objects[At(s, sid, v)].phase == Leaving)
    && (forall o :: 0 <= o < |s.objects| && r.objects[o] != s.objects[o] ==>
          r.objects[o].phase == Leaving && IsLeftBehind(s, sid, migrated, o))
  }

  /** The object is hosted here and not migrated. */
  ghost predicate IsLeftBehind(s: State, sid: int, migrated: set<int>, o: nat) {
    exists v :: InSlot(s, sid, v) && At(s, sid, v) == o && v !in migrated
  }

  lemma {:induction false} RetireAllKeeps(cfg: Config, s: State, tau: real, handled: set<Kind>,
                                          sid: int, order: seq<int>, migrated: set<int>)
    requires Core(cfg, s, tau, handled) && DrainBegun(cfg, s, sid) && InStore(s, sid)
    requires forall kind :: kind in handled ==> !kind.ReplicaGone?
    requires cfg.delays.startup > 0.0
    ensures Core(cfg, RetireAll(cfg, s, sid, order, migrated), tau, handled)
    ensures DrainBegun(cfg, RetireAll(cfg, s, sid, order, migrated), sid)
    ensures Retired(s, RetireAll(cfg, s, sid, order, migrated), sid, order, migrated)
    decreases |order|
  {
    hide Core, DrainBegun, Retired;
    if order == [] {
      NoneRetired(s, sid, migrated);
    } else {
      var n := |order| - 1;
      RetireAllKeeps(cfg, s, tau, handled, sid, order[..n], migrated);
      RetireNext(cfg, s, tau, handled, sid, order, migrated);
    }
  }

  lemma NoneRetired(s: State, sid: int, migrated: set<int>)
    ensures Retired(s, s, sid, [], migrated)
  {
  }

  lemma RetireNext(cfg: Config, s: State, tau: real, handled: set<Kind>, sid: int, order: seq<int>, migrated: set<int>)
    requires InStore(s, sid) && order != []
    requires var m := RetireAll(cfg, s, sid, order[..|order| - 1], migrated);
             Core(cfg, m, tau, handled) && DrainBegun(cfg, m, sid)
             && Retired(s, m, sid, order[..|order| - 1], migrated)
    requires forall kind :: kind in handled ==> !kind.ReplicaGone?
    requires cfg.delays.startup > 0.0
    ensures Core(cfg, RetireAll(cfg, s, sid, order, migrated), tau, handled)
    ensures DrainBegun(cfg, RetireAll(cfg, s, sid, order, migrated), sid)
    ensures Retired(s, RetireAll(cfg, s, sid, order, migrated), sid, order, migrated)
  {
    hide Core, Retired, StaleGoneBounded, OneRetired;
    var n := |order| - 1;
    var v := order[n];
    var m := RetireAll(cfg, s, sid, order[..n], migrated);
    var r := RetireAll(cfg, s, sid, order, migrated);
    RetiredHosting(s, m, sid, order[..n], migrated);
    if v in migrated || v !in s.servers[sid].hosted {
      RetiredMore(s, m, m, sid, order, migrated);
    } else {
      assert InSlot(m, sid, v);
      RetireOne(cfg, m, sid, v);
      RetireKeeps(cfg, m, tau, handled, sid, v, At(m, sid, v));
      RetiredMore(s, m, r, sid, order, migrated);
    }
  }

  lemma RetiredHosting(s: State, m: State, sid: int, order: seq<int>, migrated: set<int>)
    requires Retired(s, m, sid, order, migrated)
    ensures m.servers == s.servers && |m.objects| == |s.objects| && m.now == s.now
  {
  }

  lemma RetiredMore(s: State, m: State, r: State, sid: int, order: seq<int>, migrated: set<int>)
    requires order != [] && Retired(s, m, sid, order[..|order| - 1], migrated)
    requires var v := order[|order| - 1];
             if v in migrated || !InSlot(s, sid, v) then r == m else OneRetired(m, r, At(s, sid, v))
    ensures Retired(s, r, sid, order, migrated)
  {
    var n := |order| - 1;
    forall w | InSlot(s, sid, w) && w in order && w !in migrated && At(s, sid, w) < |s.objects|
      ensures r.objects[At(s, sid, w)].phase == Leaving
    {
      assert order == order[..n] + [order[n]];
      if w != order[n] {
        assert w in order[..n];
      }
    }
    forall o | 0 <= o < |s.objects| && r.objects[o] != s.objects[o]
      ensures r.objects[o].phase == Leaving && IsLeftBehind(s, sid, migrated, o)
    {
      if m.objects[o] == s.objects[o] {
        assert o == At(s, sid, order[n]);
      }
    }
  }

  // ------------------------------------------------------------------
  // The whole drain
  // ------------------------------------------------------------------

  lemma DrainingBegins(cfg: Config, s: State, tau: real, sid: int)
    requires Linked(cfg, s) && EventsOk(cfg, s, tau) && sid in s.servers && s.servers[sid].phase == Active
    requires Settled(s, sid)
    ensures DrainBegun(cfg, MarkDraining(cfg, s, sid), sid)
  {
    var d := MarkDraining(cfg, s, sid);
    ActiveGoneWithin(cfg, s, tau, sid);
    forall v | InSlot(d, sid, v)
      ensures At(d, sid, v) < |d.objects| && d.objects[At(d, sid, v)].phase in {Ready, Leaving}
    {
      assert InSlot(s, sid, v);
    }
  }

  /** Placing the migrations does not disturb the host. */
  lemma MovedStillBegun(cfg: Config, d: State, m: State, tau: real, sid: int, steps: seq<MigrationStep>)
    requires GoodConfig(cfg) && DrainBegun(cfg, d, sid) && EventsOk(cfg, d, tau)
    requires MovedFrom(cfg, d, m, sid, steps) && OnlyNewReady(d, m)
    requires forall i :: 0 <= i < |steps| ==> steps[i].target != sid
    ensures DrainBegun(cfg, m, sid)
  {
    StillWithin(cfg, d, m, tau, sid);
    forall v | InSlot(m, sid, v)
      ensures At(m, sid, v) < |m.objects| && m.objects[At(m, sid, v)].phase in {Ready, Leaving}
    {
      assert !Targeted(steps, sid, v);
      assert InSlot(d, sid, v);
    }
  }

  /** At a tick, a draining server hosts no READY replica: none awaits a migration. */
  lemma CalmDrainsNothingReady(s: State, x: int, v: int)
    requires SlotsOk(s) && CoverOk(s) && Calm(s) && InSlot(s, x, v) && s.servers[x].phase == Draining
    ensures At(s, x, v) < |s.objects| && s.objects[At(s, x, v)].phase != Ready
  {
    assert SlotOk(s, x, v) && SlotCovered(s, x, v);
    assert forall t :: !MigratesTo(s, x, v, t);
  }

  /** After the drain has begun, a replica still READY on a draining server is
      one of those being migrated away. */
  lemma DrainCovers(cfg: Config, s: State, d: State, m: State, r: State, sid: int,
                    steps: seq<MigrationStep>, order: seq<int>)
    requires GoodConfig(cfg) && Linked(cfg, s) && SlotsOk(s) && CoverOk(s) && Calm(s) && SlotsOk(r)
    requires sid in s.servers && d == MarkDraining(cfg, s, sid)
    requires MovedFrom(cfg, d, m, sid, steps) && Retired(m, r, sid, order, ServicesOf(steps))
    requires forall i :: 0 <= i < |steps| ==> steps[i].target in s.servers && steps[i].target != sid
                                              && s.servers[steps[i].target].phase == Active
    requires forall v :: v in s.servers[sid].hosted ==> v in order
    ensures CoverOk(r)
  {
    forall x, v | InSlot(r, x, v) ensures SlotOk(r, x, v) && SlotCovered(r, x, v) {
      assert InSlot(m, x, v);
      if r.servers[x].phase == Draining && r.objects[At(r, x, v)].phase == Ready {
        assert d.servers[x].phase == Draining && !Targeted(steps, x, v);
        assert InSlot(s, x, v) && SlotOk(s, x, v);
        if x != sid {
          CalmDrainsNothingReady(s, x, v);
          assert false;
        } else {
          assert v in ServicesOf(steps);
          var i :| 0 <= i < |steps| && steps[i].service == v;
          assert MigratesTo(m, sid, steps[i].service, steps[i].target);
          assert MigratesTo(r, x, v, steps[i].target);
        }
      }
    }
  }

  /** The host's own phase does not matter to its migration steps. */
  lemma StepsStillOk(cfg: Config, s: State, sid: int, steps: seq<MigrationStep>)
    requires GoodConfig(cfg) && Linked(cfg, s) && sid in s.servers && StepsInBounds(cfg, s, steps)
    requires StepsOk(cfg, s, sid, steps)
    ensures StepsOk(cfg, MarkDraining(cfg, s, sid), sid, steps)
  {
    var d := MarkDraining(cfg, s, sid);
    forall i | 0 <= i < |steps| ensures StepOk(cfg, d, sid, steps[i]) {
      assert StepOk(cfg, s, sid, steps[i]);
      assert OnlyCopy(s, sid, steps[i].service);
      forall x | x in d.servers && x != sid && steps[i].service in d.servers[x].hosted
                 && At(d, x, steps[i].service) < |d.objects|
        ensures d.objects[At(d, x, steps[i].service)].phase == Terminated
      {
        assert At(d, x, steps[i].service) == At(s, x, steps[i].service);
      }
      assert FreeCapacity(cfg, d, steps[i].target) == FreeCapacity(cfg, s, steps[i].target);
    }
  }

  lemma {:induction false} StillFits(cfg: Config, s: State, sid: int, steps: seq<MigrationStep>)
    requires GoodConfig(cfg) && Linked(cfg, s) && sid in s.servers && StepsInBounds(cfg, s, steps)
    requires Fits(cfg, s, steps)
    ensures Fits(cfg, MarkDraining(cfg, s, sid), steps)
    decreases |steps|
  {
    if steps != [] {
      var n := |steps| - 1;
      StillFits(cfg, s, sid, steps[..n]);
      assert FreeCapacity(cfg, MarkDraining(cfg, s, sid), steps[n].target) == FreeCapacity(cfg, s, steps[n].target);
    }
  }

  /** The state in which the drain-done event is pushed. */
  ghost function Emptied(cfg: Config, s: State, sid: int, plan: DrainPlan): State
    requires GoodConfig(cfg) && Linked(cfg, s) && sid in s.servers && PlanInBounds(cfg, s, plan)
  {
    var steps := KeepSteps(cfg, s, plan.steps).0;
    RetireAll(cfg, Moved(cfg, s, sid, steps), sid, plan.order, ServicesOf(steps))
  }

  /** What a drain has done, apart from the events: `d` the host marked, `m` the
      migrations placed, the rest retired. */
  ghost predicate Drained(cfg: Config, s: State, r: State, sid: int, plan: DrainPlan)
    requires GoodConfig(cfg) && Linked(cfg, s) && sid in s.servers && PlanInBounds(cfg, s, plan)
  {
    var steps := KeepSteps(cfg, s, plan.steps).0;
    && StepsOk(cfg, s, sid, steps)
    && MovedFrom(cfg, MarkDraining(cfg, s, sid), Moved(cfg, s, sid, steps), sid, steps)
    && Retired(Moved(cfg, s, sid, steps), r, sid, plan.order, ServicesOf(steps))
  }

  lemma MovedKeeps(cfg: Config, s: State, tau: real, sid: int, steps: seq<MigrationStep>)
    requires Core(cfg, s, tau, {DecisionTick}) && sid in s.servers && s.servers[sid].phase == Active && Settled(s, sid)
    requires StepsInBounds(cfg, s, steps) && StepsOk(cfg, s, sid, steps) && Fits(cfg, s, steps)
    requires s.now + cfg.delays.startup < tau
    ensures Core(cfg, Moved(cfg, s, sid, steps), tau, {DecisionTick} + {DrainDone(sid)})
    ensures MovedFrom(cfg, MarkDraining(cfg, s, sid), Moved(cfg, s, sid, steps), sid, steps)
    ensures DrainBegun(cfg, Moved(cfg, s, sid, steps), sid)
  {
    hide SlotsOk, IndexOk, CapacityOk, PhasesOk, EventsOk, UniqueOk, GonePairsOk, ServersArmed, SlotsArmed,
      PendingOk, RescueOk, QueuesOk, MetersOk, DrainBoundOk, CoverOk, HandledOk, MovedFrom, Fits, DrainBegun,
      OnlyNewReady;
    var d := MarkDraining(cfg, s, sid);
    MarkDrainingKeeps(cfg, s, tau, {DecisionTick}, sid);
    StepsStillOk(cfg, s, sid, steps);
    StillFits(cfg, s, sid, steps);
    MigrateAllKeeps(cfg, d, tau, {DecisionTick} + {DrainDone(sid)}, sid, steps);
    MigrateAllEvents(cfg, d, sid, steps);
    DrainingBegins(cfg, s, tau, sid);
    assert forall i :: 0 <= i < |steps| ==> StepOk(cfg, s, sid, steps[i]);
    MovedStillBegun(cfg, d, Moved(cfg, s, sid, steps), tau, sid, steps);
  }

  lemma EmptiedKeeps(cfg: Config, s: State, tau: real, sid: int, plan: DrainPlan)
    requires Core(cfg, s, tau, {DecisionTick}) && sid in s.servers && s.servers[sid].phase == Active && Settled(s, sid)
    requires PlanOk(cfg, s, sid, plan) && s.now + cfg.delays.startup < tau
    ensures PlanInBounds(cfg, s, plan)
    ensures Core(cfg, Emptied(cfg, s, sid, plan), tau, {DecisionTick} + {DrainDone(sid)})
    ensures Drained(cfg, s, Emptied(cfg, s, sid, plan), sid, plan)
    ensures DrainBegun(cfg, Emptied(cfg, s, sid, plan), sid)
  {
    hide SlotsOk, IndexOk, CapacityOk, PhasesOk, EventsOk, UniqueOk, GonePairsOk, ServersArmed, SlotsArmed,
      PendingOk, RescueOk, QueuesOk, MetersOk, DrainBoundOk, CoverOk, HandledOk, MovedFrom, Fits, DrainBegun,
      OnlyNewReady, Retired;
    KeptStepsOk(cfg, s, sid, plan);
    var steps := KeepSteps(cfg, s, plan.steps).0;
    MovedKeeps(cfg, s, tau, sid, steps);
    RetireAllKeeps(cfg, Moved(cfg, s, sid, steps), tau, {DecisionTick} + {DrainDone(sid)},
                   sid, plan.order, ServicesOf(steps));
  }

  lemma EmptiedCovers(cfg: Config, s: State, sid: int, plan: DrainPlan)
    requires GoodConfig(cfg) && Linked(cfg, s) && SlotsOk(s) && CoverOk(s) && Calm(s)
    requires sid in s.servers && PlanOk(cfg, s, sid, plan) && PlanInBounds(cfg, s, plan)
    requires SlotsOk(Emptied(cfg, s, sid, plan)) && Drained(cfg, s, Emptied(cfg, s, sid, plan), sid, plan)
    ensures CoverOk(Emptied(cfg, s, sid, plan))
  {
    hide SlotsOk, IndexOk, CapacityOk, PhasesOk, EventsOk, UniqueOk, GonePairsOk, ServersArmed, SlotsArmed,
      PendingOk, RescueOk, QueuesOk, MetersOk, DrainBoundOk, CoverOk, HandledOk, MovedFrom, Retired;
    var steps := KeepSteps(cfg, s, plan.steps).0;
    assert forall i :: 0 <= i < |steps| ==> StepOk(cfg, s, sid, steps[i]);
    DrainCovers(cfg, s, MarkDraining(cfg, s, sid), Moved(cfg, s, sid, steps), Emptied(cfg, s, sid, plan),
                sid, steps, plan.order);
  }

  lemma PushDrainKeeps(cfg: Config, s: State, tau: real, sid: int)
    requires Core(cfg, s, tau, {DecisionTick} + {DrainDone(sid)}) && DrainBegun(cfg, s, sid) && CoverOk(s)
    ensures Core(cfg, Push(s, s.now + cfg.delays.grace, DrainDone(sid)), tau, {DecisionTick})
    ensures CoverOk(Push(s, s.now + cfg.delays.grace, DrainDone(sid)))
  {
    hide SlotsOk, IndexOk, CapacityOk, PhasesOk, EventsOk, UniqueOk, GonePairsOk, ServersArmed, SlotsArmed,
      PendingOk, RescueOk, QueuesOk, MetersOk, DrainBoundOk, CoverOk, HandledOk, GoneWithin;
    PushKeeps(cfg, s, tau, {DecisionTick} + {DrainDone(sid)}, s.now + cfg.delays.grace, DrainDone(sid));
    assert {DecisionTick} + {DrainDone(sid)} - {DrainDone(sid)} == {DecisionTick};
  }

  /** `_start_server_drain` past its abort check. */
  lemma DrainKeeps(cfg: Config, s: State, tau: real, sid: int, plan: DrainPlan)
    requires Core(cfg, s, tau, {DecisionTick}) && CoverOk(s) && Calm(s)
    requires sid in s.servers && s.servers[sid].phase == Active
    requires PlanOk(cfg, s, sid, plan) && s.now + cfg.delays.startup < tau
    ensures PlanInBounds(cfg, s, plan)
    ensures Core(cfg, Drain(cfg, s, sid, plan), tau, {DecisionTick}) && CoverOk(Drain(cfg, s, sid, plan))
    ensures Drained(cfg, s, Emptied(cfg, s, sid, plan), sid, plan)
    ensures Drain(cfg, s, sid, plan) == Push(Emptied(cfg, s, sid, plan), s.now + cfg.delays.grace, DrainDone(sid))
  {
    hide SlotsOk, IndexOk, CapacityOk, PhasesOk, EventsOk, UniqueOk, GonePairsOk, ServersArmed, SlotsArmed,
      PendingOk, RescueOk, QueuesOk, MetersOk, DrainBoundOk, CoverOk, HandledOk, Drained, DrainBegun;
    assert Settled(s, sid);
    EmptiedKeeps(cfg, s, tau, sid, plan);
    EmptiedCovers(cfg, s, sid, plan);
    EmptiedNow(cfg, s, sid, plan);
    PushDrainKeeps(cfg, Emptied(cfg, s, sid, plan), tau, sid);
  }

  lemma EmptiedNow(cfg: Config, s: State, sid: int, plan: DrainPlan)
    requires GoodConfig(cfg) && Linked(cfg, s) && sid in s.servers && PlanInBounds(cfg, s, plan)
    requires Drained(cfg, s, Emptied(cfg, s, sid, plan), sid, plan)
    ensures Emptied(cfg, s, sid, plan).now == s.now
  {
  }

  // ------------------------------------------------------------------
  // The whole tick
  // ------------------------------------------------------------------

  /** What the algorithm's provisioning answer promises. */
  ghost predicate ProvisionOk(cfg: Config, s: State, action: Provision)
    requires GoodConfig(cfg) && Linked(cfg, s)
  {
    action.TurnOff? && action.server in s.servers && s.servers[action.server].phase == Active ==>
      PlanOk(cfg, s, action.server, action.plan)
  }

  lemma ApplyProvisionKeeps(cfg: Config, s: State, tau: real, action: Provision)
    requires Core(cfg, s, tau, {DecisionTick}) && CoverOk(s) && Calm(s) && ProvisionOk(cfg, s, action)
    requires action.TurnOff? ==> PlanInBounds(cfg, s, action.plan)
    requires s.now + cfg.delays.boot + cfg.delays.startup < tau
    ensures Core(cfg, ApplyProvision(cfg, s, action), tau, {DecisionTick})
    ensures CoverOk(ApplyProvision(cfg, s, action))
  {
    hide SlotsOk, IndexOk, CapacityOk, PhasesOk, EventsOk, UniqueOk, GonePairsOk, ServersArmed, SlotsArmed,
      PendingOk, RescueOk, QueuesOk, MetersOk, DrainBoundOk, CoverOk, HandledOk, Drained, DrainBegun, Calm,
      OnlyBoots;
    match action
    case NoProvision =>
    case TurnOn(sid) =>
      if sid in s.servers && s.servers[sid].phase == Off {
        StartBootKeeps(cfg, s, s, tau, {DecisionTick}, sid, false, 0);
      }
    case TurnOff(sid, plan) =>
      if MayTurnOff(cfg, s, sid) {
        if Unmigrated(cfg, s, sid, plan) != {} {
          RescueAllKeeps(cfg, s, tau, {DecisionTick}, plan.picks);
        } else {
          DrainKeeps(cfg, s, tau, sid, plan);
        }
      }
  }

  lemma ApplyProvisionNow(cfg: Config, s: State, action: Provision)
    requires GoodConfig(cfg) && Linked(cfg, s)
    requires action.TurnOff? ==> PlanInBounds(cfg, s, action.plan)
    ensures ApplyProvision(cfg, s, action).now == s.now
  {
    hide FreeCapacity, UsedCpu, RescueAll, KeepSteps, MigrateAll;
    if action.TurnOff? && MayTurnOff(cfg, s, action.server) {
      RescueAllNow(cfg, s, action.plan.picks);
      var steps := KeepSteps(cfg, s, action.plan.steps).0;
      MigrateAllEvents(cfg, MarkDraining(cfg, s, action.server), action.server, steps);
    }
  }

  lemma {:induction false} RescueAllNow(cfg: Config, s: State, picks: seq<MigrationStep>)
    requires s.servers.Keys == cfg.servers.Keys
    requires forall i :: 0 <= i < |picks| ==> picks[i].service in cfg.services
    ensures RescueAll(cfg, s, picks).0.now == s.now
    decreases |picks|
  {
    if picks != [] {
      RescueAllNow(cfg, s, picks[..|picks| - 1]);
    }
  }

  lemma HandleTickKeeps(cfg: Config, s: State, tau: real, choice: Choice)
    requires Core(cfg, s, tau, {DecisionTick}) && CoverOk(s) && s.now == tau && ChoiceLinked(cfg, s, choice)
    requires ProvisionOk(cfg, s.(ticks := s.ticks + 1), choice.provision)
    ensures Core(cfg, Push(HandleTick(cfg, s, choice), s.now + cfg.delays.interval, DecisionTick),
                 tau + cfg.delays.interval, {})
    ensures CoverOk(Push(HandleTick(cfg, s, choice), s.now + cfg.delays.interval, DecisionTick))
  {
    hide SlotsOk, IndexOk, CapacityOk, PhasesOk, EventsOk, UniqueOk, GonePairsOk, ServersArmed, SlotsArmed,
      PendingOk, RescueOk, QueuesOk, MetersOk, DrainBoundOk, CoverOk, HandledOk, ApplyProvision, ScaleAll,
      Calm, TimesOk, PlanOk;
    var next := tau + cfg.delays.interval;
    var s0 := s.(ticks := s.ticks + 1);
    RetimeKeeps(cfg, s, tau);
    ApplyProvisionKeeps(cfg, s0, next, choice.provision);
    var s1 := ApplyProvision(cfg, s0, choice.provision);
    ApplyProvisionNow(cfg, s0, choice.provision);
    ScaleAllKeeps(cfg, s1, next, choice.scaling);
    var s2 := ScaleAll(cfg, s1, choice.scaling);
    ResetKeeps(cfg, s2, next, {DecisionTick});
    PushTickKeeps(cfg, ResetWindow(s2), next);
  }

  lemma PushTickKeeps(cfg: Config, s: State, next: real)
    requires Core(cfg, s, next, {DecisionTick}) && CoverOk(s)
    ensures Core(cfg, Push(s, next, DecisionTick), next, {}) && CoverOk(Push(s, next, DecisionTick))
  {
    hide SlotsOk, IndexOk, CapacityOk, PhasesOk, EventsOk, UniqueOk, GonePairsOk, ServersArmed, SlotsArmed,
      PendingOk, RescueOk, QueuesOk, MetersOk, DrainBoundOk, CoverOk, HandledOk;
    PushKeeps(cfg, s, next, {DecisionTick}, next, DecisionTick);
    assert {DecisionTick} - {DecisionTick} == {};
  }
}
