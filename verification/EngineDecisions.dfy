/** What a decision tick does to servers and replicas, told from the states before
    and after it: which servers begin to boot or to drain, and which replicas are
    told to leave or are placed by scaling. */
module EngineDecisions {
  import opened Collections
  import opened Settings
  import opened ReplicaQueues
  import opened EngineModel
  import opened EngineInvariants
  import opened EngineClock
  import opened EngineHandlers
  import opened EngineTick
  import opened EngineDrain
  import opened EngineRuns
  import opened EnginePrime
  import opened EngineLedger
  import opened EngineAccounts
  import opened EngineLifecycle
  import opened EngineService
  import opened EngineFrames

  // ------------------------------------------------------------------
  // Emergency boots
  // ------------------------------------------------------------------

  ghost predicate PicksKnown(cfg: Config, s: State, picks: seq<MigrationStep>) {
    s.servers.Keys == cfg.servers.Keys && forall i :: 0 <= i < |picks| ==> picks[i].service in cfg.services
  }

  /** The i-th pick is taken: its service is not being rescued yet, its server is off
      and has room for the service beside the picks it took before. */
  ghost predicate HasRoomFor(cfg: Config, s: State, picks: seq<MigrationStep>, taken: seq<bool>, i: nat)
    requires PicksKnown(cfg, s, picks) && |taken| == |picks| && i < |picks|
  {
    var v, t := picks[i].service, picks[i].target;
    && v !in s.rescue && (forall j :: 0 <= j < i && taken[j] ==> picks[j].service != v)
    && t in s.servers && s.servers[t].phase == Off
    && cfg.servers[t].capacity - AskedBefore(cfg, picks, taken, i, t) >= cfg.services[v].resource
  }

  /** Server x took a pick. */
  ghost predicate Rescuer(picks: seq<MigrationStep>, taken: seq<bool>, x: int) {
    |taken| == |picks| && exists i :: 0 <= i < |picks| && picks[i].target == x && taken[i]
  }

  /** Begins to boot, an emergency or not. */
  predicate Boots(cfg: Config, a: Server, b: Server, now: real, emergency: bool) {
    && b.phase == Booting && b.lastTransition == now && b.emergency == emergency
    && b.boots == a.boots + 1 && b.shutdowns == a.shutdowns
  }

  /** A pick is taken exactly when there is room for it. */
  ghost predicate TakenByRoom(cfg: Config, s: State, picks: seq<MigrationStep>, taken: seq<bool>)
    requires PicksKnown(cfg, s, picks)
  {
    |taken| == |picks| && forall i :: 0 <= i < |picks| ==> (taken[i] <==> HasRoomFor(cfg, s, picks, taken, i))
  }

  /** The servers that took a pick boot, the others are as they were. */
  ghost predicate RescuersBoot(cfg: Config, s: State, m: State, picks: seq<MigrationStep>, taken: seq<bool>) {
    && m.servers.Keys == s.servers.Keys && m.now == s.now
    && forall x :: x in s.servers ==>
         if Rescuer(picks, taken, x)
         then s.servers[x].phase == Off && Boots(cfg, s.servers[x], m.servers[x], s.now, true)
         else m.servers[x] == s.servers[x]
  }

  /** The services rescued, and what has been promised on each server. */
  ghost predicate RescuesNoted(cfg: Config, s: State, m: State, reserved: map<int, int>, picks: seq<MigrationStep>,
                               taken: seq<bool>) {
    && |taken| == |picks|
    && (forall v :: v in m.rescue <==> v in s.rescue || MarkedFor(picks, taken, v))
    && (forall t :: Reserved(reserved, t) == AskedBefore(cfg, picks, taken, |picks|, t))
  }

  lemma {:induction false} RescuedIffRoom(cfg: Config, s: State, picks: seq<MigrationStep>) returns (taken: seq<bool>)
    requires PicksKnown(cfg, s, picks)
    ensures |taken| == |picks|
    ensures var (m, reserved) := RescueAll(cfg, s, picks);
            && TakenByRoom(cfg, s, picks, taken) && RescuersBoot(cfg, s, m, picks, taken)
            && RescuesNoted(cfg, s, m, reserved, picks, taken)
    decreases |picks|
  {
    if picks == [] {
      taken := [];
    } else {
      hide TakenByRoom, RescuersBoot, RescuesNoted, RescueOne;
      var n := |picks| - 1;
      var before := RescuedIffRoom(cfg, s, picks[..n]);
      taken := RescueNext(cfg, s, picks, before);
    }
  }

  lemma RescuerMore(picks: seq<MigrationStep>, taken: seq<bool>, x: int)
    requires picks != [] && |taken| == |picks|
    ensures var n := |picks| - 1;
            Rescuer(picks, taken, x) <==> Rescuer(picks[..n], taken[..n], x) || (taken[n] && picks[n].target == x)
  {
    var n := |picks| - 1;
    if i :| 0 <= i < n && picks[i].target == x && taken[i] {
      assert picks[..n][i].target == x && taken[..n][i];
    }
    if Rescuer(picks[..n], taken[..n], x) {
      var i :| 0 <= i < n && picks[..n][i].target == x && taken[..n][i];
      assert picks[i].target == x && taken[i];
    }
  }

  lemma MarkedMore(picks: seq<MigrationStep>, taken: seq<bool>, v: int)
    requires picks != [] && |taken| == |picks|
    ensures var n := |picks| - 1;
            MarkedFor(picks, taken, v) <==> MarkedFor(picks[..n], taken[..n], v) || (taken[n] && picks[n].service == v)
  {
    var n := |picks| - 1;
    if i :| 0 <= i < n && picks[i].service == v && taken[i] {
      assert picks[..n][i].service == v && taken[..n][i];
    }
    if MarkedFor(picks[..n], taken[..n], v) {
      var i :| 0 <= i < n && picks[..n][i].service == v && taken[..n][i];
      assert picks[i].service == v && taken[i];
    }
  }

  lemma RoomOfPrefix(cfg: Config, s: State, picks: seq<MigrationStep>, taken: seq<bool>, n: nat, i: nat)
    requires PicksKnown(cfg, s, picks) && |taken| == |picks| && i < n <= |picks|
    ensures PicksKnown(cfg, s, picks[..n])
    ensures HasRoomFor(cfg, s, picks, taken, i) <==> HasRoomFor(cfg, s, picks[..n], taken[..n], i)
  {
    AskedOfPrefix(cfg, picks, taken, n, i, picks[i].target);
  }

  lemma StartBootShape(cfg: Config, s: State, sid: int, emergency: bool)
    requires sid in s.servers
    ensures var r := StartBoot(cfg, s, sid, emergency);
            && r.now == s.now && r.servers.Keys == s.servers.Keys && r.rescue == s.rescue && r.lastScale == s.lastScale
            && (forall x :: x in s.servers && (x != sid || s.servers[x].phase != Off) ==> r.servers[x] == s.servers[x])
            && (s.servers[sid].phase == Off ==> Boots(cfg, s.servers[sid], r.servers[sid], s.now, emergency))
  {
  }

  /** One service: whether it is taken, and what that changes. */
  lemma RescueOneShape(cfg: Config, s: State, m: State, reserved: map<int, int>, pick: MigrationStep)
    returns (takes: bool)
    requires s.servers.Keys == cfg.servers.Keys == m.servers.Keys && pick.service in cfg.services
    ensures var (r, more) := RescueOne(cfg, s, m, reserved, pick);
            var v, t := pick.service, pick.target;
            && (takes <==> v !in m.rescue && t in s.servers && s.servers[t].phase == Off
                           && cfg.servers[t].capacity - Reserved(reserved, t) >= cfg.services[v].resource)
            && r.now == m.now && r.servers.Keys == m.servers.Keys
            && r.rescue == (if takes then m.rescue[v := t] else m.rescue)
            && (forall x :: x in m.servers && (x != t || !takes || m.servers[x].phase != Off) ==>
                  r.servers[x] == m.servers[x])
            && (takes && m.servers[t].phase == Off ==> Boots(cfg, m.servers[t], r.servers[t], m.now, true))
            && more == if takes then reserved[t := Reserved(reserved, t) + cfg.services[v].resource] else reserved
  {
    takes := pick.service !in m.rescue && pick.target in s.servers && s.servers[pick.target].phase == Off
             && cfg.servers[pick.target].capacity - Reserved(reserved, pick.target)
                >= cfg.services[pick.service].resource;
    hide Reserved, StartBoot, Boots;
    if takes {
      StartBootShape(cfg, m.(rescue := m.rescue[pick.service := pick.target]), pick.target, true);
    }
  }

  lemma ReservedMore(reserved: map<int, int>, t: int, raw: int)
    ensures forall x :: Reserved(reserved[t := Reserved(reserved, t) + raw], x)
                        == Reserved(reserved, x) + if x == t then raw else 0
  {
  }

  lemma RescueNext(cfg: Config, s: State, picks: seq<MigrationStep>, before: seq<bool>) returns (taken: seq<bool>)
    requires PicksKnown(cfg, s, picks) && picks != [] && |before| == |picks| - 1
    requires var n := |picks| - 1;
             var (m, reserved) := RescueAll(cfg, s, picks[..n]);
             && TakenByRoom(cfg, s, picks[..n], before) && RescuersBoot(cfg, s, m, picks[..n], before)
             && RescuesNoted(cfg, s, m, reserved, picks[..n], before)
    ensures var (m, reserved) := RescueAll(cfg, s, picks);
            && TakenByRoom(cfg, s, picks, taken) && RescuersBoot(cfg, s, m, picks, taken)
            && RescuesNoted(cfg, s, m, reserved, picks, taken) && |taken| == |picks|
  {
    hide RescueOne, TakenByRoom, RescuersBoot, RescuesNoted, Reserved;
    var n := |picks| - 1;
    var (m, reserved) := RescueAll(cfg, s, picks[..n]);
    var takes := RescueOneShape(cfg, s, m, reserved, picks[n]);
    taken := before + [takes];
    assert taken[..n] == before && taken[n] == takes;
    var (r, more) := RescueAll(cfg, s, picks);
    assert (r, more) == RescueOne(cfg, s, m, reserved, picks[n]);
    ReservedMore(reserved, picks[n].target, cfg.services[picks[n].service].resource);
    NotedMore(cfg, s, m, r, reserved, more, picks, taken);
    BootMore(cfg, s, m, r, picks, taken);
    TakenMore(cfg, s, m, reserved, picks, taken);
  }

  lemma NotedMore(cfg: Config, s: State, m: State, r: State, reserved: map<int, int>, more: map<int, int>,
                  picks: seq<MigrationStep>, taken: seq<bool>)
    requires picks != [] && |taken| == |picks|
    requires forall i :: 0 <= i < |picks| ==> picks[i].service in cfg.services
    requires var n := |picks| - 1;
             var v, t := picks[n].service, picks[n].target;
             && RescuesNoted(cfg, s, m, reserved, picks[..n], taken[..n])
             && r.rescue == (if taken[n] then m.rescue[v := t] else m.rescue)
             && (forall x :: Reserved(more, x)
                             == Reserved(reserved, x) + if taken[n] && x == t then cfg.services[v].resource else 0)
    ensures RescuesNoted(cfg, s, r, more, picks, taken)
  {
    hide Reserved, MarkedFor;
    var n := |picks| - 1;
    forall v ensures v in r.rescue <==> v in s.rescue || MarkedFor(picks, taken, v) {
      MarkedMore(picks, taken, v);
    }
    forall t ensures Reserved(more, t) == AskedBefore(cfg, picks, taken, |picks|, t) {
      AskedOfPrefix(cfg, picks, taken, n, n, t);
    }
  }

  lemma BootMore(cfg: Config, s: State, m: State, r: State, picks: seq<MigrationStep>, taken: seq<bool>)
    requires picks != [] && |taken| == |picks|
    requires var n := |picks| - 1;
             var t := picks[n].target;
             && RescuersBoot(cfg, s, m, picks[..n], taken[..n])
             && r.now == m.now && r.servers.Keys == m.servers.Keys
             && (taken[n] ==> t in s.servers && s.servers[t].phase == Off)
             && (forall x :: x in m.servers && (x != t || !taken[n] || m.servers[x].phase != Off) ==>
                   r.servers[x] == m.servers[x])
             && (taken[n] && t in m.servers && m.servers[t].phase == Off ==>
                   Boots(cfg, m.servers[t], r.servers[t], m.now, true))
    ensures RescuersBoot(cfg, s, r, picks, taken)
  {
    hide Rescuer;
    forall x | x in s.servers
      ensures if Rescuer(picks, taken, x)
              then s.servers[x].phase == Off && Boots(cfg, s.servers[x], r.servers[x], s.now, true)
              else r.servers[x] == s.servers[x]
    {
      RescuerMore(picks, taken, x);
    }
  }

  lemma TakenMore(cfg: Config, s: State, m: State, reserved: map<int, int>, picks: seq<MigrationStep>,
                  taken: seq<bool>)
    requires PicksKnown(cfg, s, picks) && picks != [] && |taken| == |picks|
    requires var n := |picks| - 1;
             var v, t := picks[n].service, picks[n].target;
             && PicksKnown(cfg, s, picks[..n]) && TakenByRoom(cfg, s, picks[..n], taken[..n])
             && RescuesNoted(cfg, s, m, reserved, picks[..n], taken[..n])
             && (taken[n] <==> v !in m.rescue && t in s.servers && s.servers[t].phase == Off
                               && cfg.servers[t].capacity - Reserved(reserved, t) >= cfg.services[v].resource)
    ensures TakenByRoom(cfg, s, picks, taken)
  {
    hide Reserved, HasRoomFor, MarkedFor;
    var n := |picks| - 1;
    forall i | 0 <= i < |picks| ensures taken[i] <==> HasRoomFor(cfg, s, picks, taken, i) {
      if i < n {
        RoomOfPrefix(cfg, s, picks, taken, n, i);
        assert taken[..n][i] == taken[i];
      } else {
        LastHasRoom(cfg, s, m, reserved, picks, taken);
      }
    }
  }

  lemma LastHasRoom(cfg: Config, s: State, m: State, reserved: map<int, int>, picks: seq<MigrationStep>,
                    taken: seq<bool>)
    requires PicksKnown(cfg, s, picks) && picks != [] && |taken| == |picks|
    requires RescuesNoted(cfg, s, m, reserved, picks[..|picks| - 1], taken[..|picks| - 1])
    ensures var n := |picks| - 1;
            var v, t := picks[n].service, picks[n].target;
            HasRoomFor(cfg, s, picks, taken, n) <==>
              && v !in m.rescue && t in s.servers && s.servers[t].phase == Off
              && cfg.servers[t].capacity - Reserved(reserved, t) >= cfg.services[v].resource
  {
    hide Reserved;
    var n := |picks| - 1;
    var v, t := picks[n].service, picks[n].target;
    AskedOfPrefix(cfg, picks, taken, n, n, t);
    if j :| 0 <= j < n && taken[j] && picks[j].service == v {
      assert picks[..n][j].service == v && taken[..n][j];
      assert MarkedFor(picks[..n], taken[..n], v);
    }
    if MarkedFor(picks[..n], taken[..n], v) {
      var j :| 0 <= j < n && picks[..n][j].service == v && taken[..n][j];
      assert taken[j] && picks[j].service == v;
    }
  }

  // ------------------------------------------------------------------
  // Provisioning
  // ------------------------------------------------------------------

  /** An ACTIVE server, not the only one, out of cooldown and of its minimum stint. */
  ghost predicate MayStop(cfg: Config, s: State, now: real, d: int) {
    && d in s.servers && s.servers[d].phase == Active
    && (exists y :: y in s.servers && y != d && s.servers[y].phase == Active)
    && now - s.servers[d].lastTransition >= cfg.delays.cooldown
    && (s.servers[d].emergency || now - s.servers[d].lastTransition >= cfg.delays.minActive)
  }

  lemma GatesMean(cfg: Config, s: State, d: int)
    ensures MayTurnOff(cfg, s, d) <==> MayStop(cfg, s, s.now, d)
  {
    if d in s.servers && s.servers[d].phase == Active {
      var others := ActiveServers(s) - {d};
      assert ActiveServers(s) == others + {d};
      if others != {} {
        var y := Pick(others);
        assert y in s.servers && y != d && s.servers[y].phase == Active;
      }
      if y :| y in s.servers && y != d && s.servers[y].phase == Active {
        assert y in others;
      }
    }
  }

  /** A step is kept exactly when it fits beside those kept before. */
  ghost predicate KeptByRoom(cfg: Config, s: State, steps: seq<MigrationStep>, kept: seq<bool>)
    requires GoodConfig(cfg) && s.servers.Keys == cfg.servers.Keys && StepsInBounds(cfg, s, steps)
  {
    |kept| == |steps| && forall i :: 0 <= i < |steps| ==> (kept[i] <==> FitsBeside(cfg, s, steps, kept, i))
  }

  /** A live copy only on d, and no step kept for it. */
  ghost predicate LeftBehind(s: State, d: int, steps: seq<MigrationStep>, kept: seq<bool>, v: int) {
    HostedOnlyOn(s, d, v) && !MarkedFor(steps, kept, v)
  }

  /** The TURN_ON of a server that is off and out of cooldown. */
  predicate TurnsOn(cfg: Config, s: State, now: real, action: Provision, x: int)
    requires x in s.servers
  {
    action == TurnOn(x) && s.servers[x].phase == Off && now - s.servers[x].lastTransition >= cfg.delays.cooldown
  }

  /** A TURN_OFF passes the gates, but some service would be left behind. */
  ghost predicate Aborts(cfg: Config, s: State, now: real, action: Provision, kept: seq<bool>) {
    && action.TurnOff? && MayStop(cfg, s, now, action.server)
    && exists v :: LeftBehind(s, action.server, action.plan.steps, kept, v)
  }

  /** A TURN_OFF passes the gates and no service is left behind. */
  ghost predicate Stops(cfg: Config, s: State, now: real, action: Provision, kept: seq<bool>) {
    && action.TurnOff? && MayStop(cfg, s, now, action.server)
    && forall v :: !LeftBehind(s, action.server, action.plan.steps, kept, v)
  }

  /** What provisioning makes of server x. */
  ghost predicate Provisioned(cfg: Config, s: State, r: State, now: real, action: Provision, kept: seq<bool>,
                              taken: seq<bool>, x: int)
    requires x in s.servers && x in r.servers
  {
    var a, b := s.servers[x], r.servers[x];
    if TurnsOn(cfg, s, now, action, x) then Boots(cfg, a, b, now, false)
    else if Aborts(cfg, s, now, action, kept) && Rescuer(action.plan.picks, taken, x) then
      a.phase == Off && Boots(cfg, a, b, now, true)
    else if Stops(cfg, s, now, action, kept) && action.server == x then
      && b.phase == Draining && b.lastTransition == now && b.emergency == a.emergency
      && b.boots == a.boots && b.shutdowns == a.shutdowns
    else SameSwitch(a, b)
  }

  ghost predicate AllProvisioned(cfg: Config, s: State, r: State, now: real, action: Provision, kept: seq<bool>,
                                 taken: seq<bool>) {
    r.servers.Keys == s.servers.Keys
    && forall x :: x in s.servers ==> Provisioned(cfg, s, r, now, action, kept, taken, x)
  }

  lemma LeftIsUnmigrated(cfg: Config, s: State, d: int, plan: DrainPlan, kept: seq<bool>)
    requires GoodConfig(cfg) && Linked(cfg, s) && d in s.servers && PlanInBounds(cfg, s, plan)
    requires |kept| == |plan.steps| && KeepSteps(cfg, s, plan.steps).0 == Chosen(plan.steps, kept)
    ensures Unmigrated(cfg, s, d, plan) != {} <==> exists v :: LeftBehind(s, d, plan.steps, kept, v)
  {
    hide GoodConfig, Linked, KeepSteps, SoleHosted, ServicesOf, HostedOnlyOn, MarkedFor;
    forall v ensures v in Unmigrated(cfg, s, d, plan) <==> LeftBehind(s, d, plan.steps, kept, v) {
      SoleIsHostedOnly(s, d, v);
      ChosenServices(plan.steps, kept, v);
    }
    var left := Unmigrated(cfg, s, d, plan);
    if left != {} {
      assert LeftBehind(s, d, plan.steps, kept, Pick(left));
    }
  }

  lemma OnSwitches(cfg: Config, s: State, sid: int)
    requires GoodConfig(cfg) && Linked(cfg, s)
    ensures AllProvisioned(cfg, s, ApplyProvision(cfg, s, TurnOn(sid)), s.now, TurnOn(sid), [], [])
  {
    hide GoodConfig, Linked, StartBoot;
    if sid in s.servers {
      StartBootShape(cfg, s, sid, false);
    }
  }

  lemma AbortSwitches(cfg: Config, s: State, action: Provision, kept: seq<bool>, taken: seq<bool>, m: State)
    requires action.TurnOff? && Aborts(cfg, s, s.now, action, kept)
    requires RescuersBoot(cfg, s, m, action.plan.picks, taken)
    ensures AllProvisioned(cfg, s, m, s.now, action, kept, taken)
  {
    hide Aborts, Stops, Rescuer;
    assert !Stops(cfg, s, s.now, action, kept) by {
      AbortsOrStops(cfg, s, s.now, action, kept);
    }
  }

  lemma AbortsOrStops(cfg: Config, s: State, now: real, action: Provision, kept: seq<bool>)
    requires action.TurnOff?
    ensures Aborts(cfg, s, now, action, kept) ==> !Stops(cfg, s, now, action, kept)
    ensures Aborts(cfg, s, now, action, kept) || Stops(cfg, s, now, action, kept) <==>
              MayStop(cfg, s, now, action.server)
  {
    hide MayStop, LeftBehind;
  }

  lemma StopSwitches(cfg: Config, s: State, action: Provision, kept: seq<bool>, taken: seq<bool>, r: State)
    requires action.TurnOff? && Stops(cfg, s, s.now, action, kept) && Linked(cfg, s)
    requires action.server in s.servers && Steady(MarkDraining(cfg, s, action.server), r)
    ensures AllProvisioned(cfg, s, r, s.now, action, kept, taken)
  {
    hide Aborts, Stops, Rescuer, Linked;
    assert !Aborts(cfg, s, s.now, action, kept) by {
      AbortsOrStops(cfg, s, s.now, action, kept);
    }
  }

  lemma NothingSwitches(cfg: Config, s: State, action: Provision, kept: seq<bool>, taken: seq<bool>)
    requires !action.TurnOn? && (action.TurnOff? ==> !MayStop(cfg, s, s.now, action.server))
    ensures AllProvisioned(cfg, s, s, s.now, action, kept, taken)
  {
    hide MayStop, Rescuer, LeftBehind;
  }

  lemma ProvisionSwitches(cfg: Config, s: State, action: Provision) returns (kept: seq<bool>, taken: seq<bool>)
    requires GoodConfig(cfg) && Linked(cfg, s) && (action.TurnOff? ==> PlanInBounds(cfg, s, action.plan))
    ensures action.TurnOff? ==> s.servers.Keys == cfg.servers.Keys && StepsInBounds(cfg, s, action.plan.steps)
    ensures action.TurnOff? ==> KeptByRoom(cfg, s, action.plan.steps, kept)
    ensures action.TurnOff? ==> PicksKnown(cfg, s, action.plan.picks) && TakenByRoom(cfg, s, action.plan.picks, taken)
    ensures AllProvisioned(cfg, s, ApplyProvision(cfg, s, action), s.now, action, kept, taken)
  {
    kept, taken := [], [];
    match action
    case NoProvision => NothingSwitches(cfg, s, action, kept, taken);
    case TurnOn(sid) => OnSwitches(cfg, s, sid);
    case TurnOff(d, plan) =>
      kept := KeptIffFits(cfg, s, plan.steps);
      taken := RescuedIffRoom(cfg, s, plan.picks);
      assert StepsInBounds(cfg, s, plan.steps) && PicksKnown(cfg, s, plan.picks);
      OffSwitches(cfg, s, action, kept, taken);
  }

  lemma OffSwitches(cfg: Config, s: State, action: Provision, kept: seq<bool>, taken: seq<bool>)
    requires action.TurnOff? && GoodConfig(cfg) && Linked(cfg, s) && PlanInBounds(cfg, s, action.plan)
    requires |kept| == |action.plan.steps|
    requires KeepSteps(cfg, s, action.plan.steps).0 == Chosen(action.plan.steps, kept)
    requires s.servers.Keys == cfg.servers.Keys && PicksKnown(cfg, s, action.plan.picks)
    requires RescuersBoot(cfg, s, RescueAll(cfg, s, action.plan.picks).0, action.plan.picks, taken)
    ensures AllProvisioned(cfg, s, ApplyProvision(cfg, s, action), s.now, action, kept, taken)
  {
    hide GoodConfig, Linked, KeepSteps, PlanInBounds, Chosen, RescueAll, MayStop, MayTurnOff, LeftBehind, Unmigrated,
      Drain, AllProvisioned, RescuersBoot, Steady;
    var d, plan := action.server, action.plan;
    GatesMean(cfg, s, d);
    if MayTurnOff(cfg, s, d) {
      GateServer(cfg, s, d);
      LeftIsUnmigrated(cfg, s, d, plan, kept);
      if Unmigrated(cfg, s, d, plan) != {} {
        AbortSwitches(cfg, s, action, kept, taken, RescueAll(cfg, s, plan.picks).0);
      } else {
        DrainSteady(cfg, s, d, plan);
        StopSwitches(cfg, s, action, kept, taken, Drain(cfg, s, d, plan));
      }
    } else {
      NothingSwitches(cfg, s, action, kept, taken);
    }
  }

  lemma GateServer(cfg: Config, s: State, d: int)
    requires MayTurnOff(cfg, s, d)
    ensures d in s.servers && s.servers[d].phase == Active
  {
  }

  // ------------------------------------------------------------------
  // From the state before the tick to the state after it
  // ------------------------------------------------------------------

  /** The same servers apart from their meters, the same replicas and entries. */
  ghost predicate SameView(s: State, p: State) {
    && p.servers.Keys == s.servers.Keys && p.objects == s.objects && p.rescue == s.rescue
    && (forall x :: x in s.servers ==>
          SameSwitch(s.servers[x], p.servers[x]) && p.servers[x].hosted == s.servers[x].hosted)
    && p.lastScale == s.lastScale && p.byService == s.byService
  }

  lemma PoppedView(cfg: Config, s: State, k: nat)
    requires GoodConfig(cfg) && Linked(cfg, s) && k in s.heap
    ensures SameView(s, TickStart(Popped(cfg, s, k)))
  {
    hide GoodConfig, Linked, Popped, SameSwitch;
    PoppedSteady(cfg, s, k);
  }

  lemma ViewSlots(s: State, p: State)
    requires SameView(s, p)
    ensures forall x, v :: InSlot(p, x, v) <==> InSlot(s, x, v)
    ensures forall x, v :: InSlot(s, x, v) ==> At(p, x, v) == At(s, x, v)
    ensures forall x, v :: AliveAt(p, x, v) <==> AliveAt(s, x, v)
    ensures forall x, v :: ReadyAt(p, x, v) <==> ReadyAt(s, x, v)
    ensures forall d, v :: HostedOnlyOn(p, d, v) <==> HostedOnlyOn(s, d, v)
  {
    forall x, v
      ensures InSlot(p, x, v) <==> InSlot(s, x, v)
      ensures InSlot(s, x, v) ==> At(p, x, v) == At(s, x, v)
      ensures AliveAt(p, x, v) <==> AliveAt(s, x, v)
      ensures ReadyAt(p, x, v) <==> ReadyAt(s, x, v)
    {
    }
    forall d, v ensures HostedOnlyOn(p, d, v) <==> HostedOnlyOn(s, d, v) {
      assert AliveAt(p, d, v) <==> AliveAt(s, d, v);
    }
  }

  lemma ViewGates(cfg: Config, s: State, p: State, now: real, action: Provision, kept: seq<bool>)
    requires SameView(s, p)
    ensures Aborts(cfg, p, now, action, kept) <==> Aborts(cfg, s, now, action, kept)
    ensures Stops(cfg, p, now, action, kept) <==> Stops(cfg, s, now, action, kept)
  {
    hide HostedOnlyOn, MarkedFor;
    if action.TurnOff? {
      var d := action.server;
      ViewSlots(s, p);
      assert MayStop(cfg, p, now, d) <==> MayStop(cfg, s, now, d) by {
        if y :| y in s.servers && y != d && s.servers[y].phase == Active {
          assert y in p.servers && p.servers[y].phase == Active;
        }
        if y :| y in p.servers && y != d && p.servers[y].phase == Active {
          assert y in s.servers && s.servers[y].phase == Active;
        }
      }
      forall v
        ensures LeftBehind(p, d, action.plan.steps, kept, v) <==> LeftBehind(s, d, action.plan.steps, kept, v)
      {
      }
    }
  }

  lemma ViewRoom(cfg: Config, s: State, p: State, steps: seq<MigrationStep>, marks: seq<bool>)
    requires GoodConfig(cfg) && SameView(s, p) && s.servers.Keys == cfg.servers.Keys && StepsInBounds(cfg, p, steps)
    requires KeptByRoom(cfg, p, steps, marks)
    ensures StepsInBounds(cfg, s, steps) && KeptByRoom(cfg, s, steps, marks)
  {
    hide GoodConfig, CpuSum, AskedBefore;
    forall i | 0 <= i < |steps| ensures marks[i] <==> FitsBeside(cfg, s, steps, marks, i) {
      assert p.servers[steps[i].target].hosted == s.servers[steps[i].target].hosted;
      assert UsedCpu(cfg, p, steps[i].target) == UsedCpu(cfg, s, steps[i].target);
    }
  }

  lemma ViewTaken(cfg: Config, s: State, p: State, picks: seq<MigrationStep>, marks: seq<bool>)
    requires SameView(s, p) && PicksKnown(cfg, p, picks) && TakenByRoom(cfg, p, picks, marks)
    ensures PicksKnown(cfg, s, picks) && TakenByRoom(cfg, s, picks, marks)
  {
    hide AskedBefore;
    forall i | 0 <= i < |picks| ensures marks[i] <==> HasRoomFor(cfg, s, picks, marks, i) {
      assert marks[i] <==> HasRoomFor(cfg, p, picks, marks, i);
      assert picks[i].target in s.servers ==> SameSwitch(s.servers[picks[i].target], p.servers[picks[i].target]);
    }
  }

  lemma ViewProvisioned(cfg: Config, s: State, p: State, m: State, r: State, now: real, action: Provision,
                        kept: seq<bool>, taken: seq<bool>)
    requires SameView(s, p) && AllProvisioned(cfg, p, m, now, action, kept, taken) && Steady(m, r)
    ensures AllProvisioned(cfg, s, r, now, action, kept, taken)
  {
    hide Aborts, Stops, Rescuer;
    ViewGates(cfg, s, p, now, action, kept);
    forall x | x in s.servers ensures Provisioned(cfg, s, r, now, action, kept, taken, x) {
      assert Provisioned(cfg, p, m, now, action, kept, taken, x);
      assert SameSwitch(m.servers[x], r.servers[x]) && SameSwitch(s.servers[x], p.servers[x]);
    }
  }

  /** The marks that say which migration steps are kept and which picks are taken. */
  ghost predicate MarksFit(cfg: Config, s: State, action: Provision, kept: seq<bool>, taken: seq<bool>) {
    action.TurnOff? ==>
      && GoodConfig(cfg) && s.servers.Keys == cfg.servers.Keys
      && StepsInBounds(cfg, s, action.plan.steps) && KeptByRoom(cfg, s, action.plan.steps, kept)
      && PicksKnown(cfg, s, action.plan.picks) && TakenByRoom(cfg, s, action.plan.picks, taken)
  }

  lemma StepProvisioned(cfg: Config, s: State, k: nat, choice: Choice, r: State)
    returns (kept: seq<bool>, taken: seq<bool>)
    requires IsStep(cfg, s, k, choice, r) && k in s.heap && s.heap[k].kind.DecisionTick?
    ensures MarksFit(cfg, s, choice.provision, kept, taken)
    ensures AllProvisioned(cfg, s, r, s.heap[k].time, choice.provision, kept, taken)
  {
    hide IsStep, GoodConfig, Linked, Popped, ChoiceLinked, Handle, AllProvisioned, PlanInBounds, KeptByRoom,
      TakenByRoom, StepsInBounds, PicksKnown, SameView, ApplyProvision, KindLinked, IsMin, Steady;
    StepParts(cfg, s, k, choice, r);
    var p := Popped(cfg, s, k);
    TickStartLinked(cfg, p);
    if choice.provision.TurnOff? {
      TickPlanInBounds(cfg, p, choice);
    }
    var s0 := TickStart(p);
    kept, taken := ProvisionSwitches(cfg, s0, choice.provision);
    TickSteady(cfg, p, choice);
    PoppedView(cfg, s, k);
    PoppedSteady(cfg, s, k);
    LinkedKeys(cfg, s);
    ViewProvisioned(cfg, s, s0, ApplyProvision(cfg, s0, choice.provision), r, s.heap[k].time, choice.provision,
                    kept, taken);
    if choice.provision.TurnOff? {
      ViewRoom(cfg, s, s0, choice.provision.plan.steps, kept);
      ViewTaken(cfg, s, s0, choice.provision.plan.picks, taken);
    }
  }

  lemma LinkedKeys(cfg: Config, s: State)
    requires Linked(cfg, s)
    ensures s.servers.Keys == cfg.servers.Keys
  {
  }

  /** The one event of this kind is due at this time. */
  ghost predicate DueOnlyAt(heap: map<nat, Event>, kind: Kind, time: real) {
    exists k :: IsTheOnly(heap, kind, k) && heap[k].time == time
  }

  /** The events of a server that has just been switched. */
  lemma SwitchEvents(cfg: Config, s: State, tau: real, x: int)
    requires Core(cfg, s, tau, {}) && x in s.servers
    ensures s.servers[x].phase == Booting ==>
              DueOnlyAt(s.heap, BootDone(x), s.servers[x].lastTransition + cfg.delays.boot)
    ensures s.servers[x].phase == Draining && s.servers[x].lastTransition == s.now ==>
              DueOnlyAt(s.heap, DrainDone(x), s.now + cfg.delays.grace)
    ensures s.servers[x].phase == Off ==> !HasEvent(s.heap, BootDone(x))
  {
    hide SlotsOk, IndexOk, CapacityOk, PhasesOk, UniqueOk, GonePairsOk, ServersArmed, SlotsArmed, PendingOk, RescueOk,
      QueuesOk, MetersOk, DrainBoundOk, HandledOk, Linked, GoodConfig;
    HeapMatchesServers(cfg, s, tau, x);
    if s.servers[x].phase == Booting {
      var k :| IsTheOnly(s.heap, BootDone(x), k);
      assert EventOk(cfg, s, tau, s.heap[k]);
    }
    if s.servers[x].phase == Draining {
      var k :| IsTheOnly(s.heap, DrainDone(x), k);
      assert EventOk(cfg, s, tau, s.heap[k]);
    }
  }

  /** Over a tick of any run, an OFF server begins to boot exactly if a TURN_ON names
      it and it is out of cooldown, or an aborted drain picked it and it had room for
      the service; an ACTIVE one begins to drain exactly if a TURN_OFF names it, the
      gates are passed and no service is left behind; no other is switched. */
  lemma ServersAtATick(cfg: Config, rows: seq<Row>, selected: seq<int>, homes: seq<Slot>,
                       states: seq<State>, moves: seq<Move>, i: nat, x: int)
    returns (kept: seq<bool>, taken: seq<bool>)
    requires IsHistory(cfg, rows, selected, homes, states, moves) && i < |moves| && |states| == |moves| + 1
    requires moves[i].event in states[i].heap && states[i].heap[moves[i].event].kind.DecisionTick?
    requires x in cfg.servers
    ensures x in states[i].servers && x in states[i + 1].servers
    ensures MarksFit(cfg, states[i], moves[i].choice.provision, kept, taken)
    ensures var s, r, action := states[i], states[i + 1], moves[i].choice.provision;
            var a, b, now := s.servers[x], r.servers[x], r.now;
            match a.phase
            case Off =>
              && (b.phase == Booting <==>
                    || TurnsOn(cfg, s, now, action, x)
                    || (Aborts(cfg, s, now, action, kept) && Rescuer(action.plan.picks, taken, x)))
              && (if b.phase == Booting then
                    && b.lastTransition == now && b.boots == a.boots + 1 && b.emergency == action.TurnOff?
                    && DueOnlyAt(r.heap, BootDone(x), now + cfg.delays.boot)
                  else SameSwitch(a, b) && !HasEvent(r.heap, BootDone(x)))
            case Active =>
              && (b.phase == Draining <==> Stops(cfg, s, now, action, kept) && action.server == x)
              && (if b.phase == Draining then
                    && b.lastTransition == now && b.boots == a.boots
                    && DueOnlyAt(r.heap, DrainDone(x), now + cfg.delays.grace)
                  else SameSwitch(a, b))
            case _ => SameSwitch(a, b)
  {
    hide IsHistory, IsRun, Prime, GoodStart, IsStep, Core, CoverOk, Aborts, Stops, TurnsOn, Rescuer, MarksFit,
      DueOnlyAt, WasLegitimate;
    var s, r, move := states[i], states[i + 1], moves[i];
    HistoryStep(cfg, rows, selected, homes, states, moves, i);
    InvAlways(cfg, rows, selected, homes, states, moves, i);
    InvAlways(cfg, rows, selected, homes, states, moves, i + 1);
    var tau :| Core(cfg, s, tau, {});
    var next :| Core(cfg, r, next, {});
    CoreKeys(cfg, s, tau);
    kept, taken := StepProvisioned(cfg, s, move.event, move.choice, r);
    StepTime(cfg, s, tau, move.event, move.choice, r);
    SwitchEvents(cfg, r, next, x);
    Exclusive(cfg, s, r.now, move.choice.provision, kept, x);
    assert Provisioned(cfg, s, r, r.now, move.choice.provision, kept, taken, x);
  }

  lemma HistoryStep(cfg: Config, rows: seq<Row>, selected: seq<int>, homes: seq<Slot>,
                    states: seq<State>, moves: seq<Move>, i: nat)
    requires IsHistory(cfg, rows, selected, homes, states, moves) && i < |moves|
    ensures i + 1 < |states| && IsStep(cfg, states[i], moves[i].event, moves[i].choice, states[i + 1])
  {
    hide IsStep;
  }

  lemma CoreKeys(cfg: Config, s: State, tau: real)
    requires Core(cfg, s, tau, {})
    ensures s.servers.Keys == cfg.servers.Keys
  {
  }

  lemma StepTime(cfg: Config, s: State, tau: real, k: nat, choice: Choice, r: State)
    requires Core(cfg, s, tau, {}) && CoverOk(s) && IsStep(cfg, s, k, choice, r)
    ensures k in s.heap && r.now == s.heap[k].time && s.now <= r.now
  {
    hide Core, CoverOk, IsStep, Handle, Popped, GoodConfig, Linked, ChoiceLinked, KindLinked, WasLegitimate;
    StepParts(cfg, s, k, choice, r);
    PoppedKeeps(cfg, s, tau, k);
    HandleNow(cfg, Popped(cfg, s, k), s.heap[k].kind, choice);
  }

  /** Only an ACTIVE server is stopped. */
  lemma Exclusive(cfg: Config, s: State, now: real, action: Provision, kept: seq<bool>, x: int)
    requires x in s.servers
    ensures TurnsOn(cfg, s, now, action, x) ==> s.servers[x].phase == Off && action.TurnOn?
    ensures Stops(cfg, s, now, action, kept) ==> action.TurnOff? && !Aborts(cfg, s, now, action, kept)
    ensures Stops(cfg, s, now, action, kept) && action.server == x ==> s.servers[x].phase == Active
    ensures Aborts(cfg, s, now, action, kept) ==> action.TurnOff?
  {
    hide LeftBehind;
  }

  // ------------------------------------------------------------------
  // Between ticks
  // ------------------------------------------------------------------

  lemma DrainDoneOff(cfg: Config, p: State, x: int)
    requires InStore(p, x)
    ensures x in HandleDrainDone(cfg, p, x).servers
    ensures (exists v :: AliveAt(p, x, v)) ==> SameSwitch(p.servers[x], HandleDrainDone(cfg, p, x).servers[x])
    ensures (forall v :: !AliveAt(p, x, v)) ==>
              var a, b := p.servers[x], HandleDrainDone(cfg, p, x).servers[x];
              && b.phase == Off && b.lastTransition == p.now && b.boots == a.boots
              && b.shutdowns == a.shutdowns + 1
  {
    if AllTerminated(p, x) {
      forall v ensures !AliveAt(p, x, v) {
        assert v in p.servers[x].hosted ==> p.objects[p.servers[x].hosted[v]].phase == Terminated;
      }
    } else {
      var v :| v in p.servers[x].hosted && p.objects[p.servers[x].hosted[v]].phase != Terminated;
      assert AliveAt(p, x, v);
    }
  }

  /** Over any other step of any run a server is switched only by its own boot event,
      one boot delay after the boot began, and by its own drain event, to OFF exactly
      if no copy there is left alive. */
  lemma ServersBetweenTicks(cfg: Config, rows: seq<Row>, selected: seq<int>, homes: seq<Slot>,
                            states: seq<State>, moves: seq<Move>, i: nat, x: int)
    requires IsHistory(cfg, rows, selected, homes, states, moves) && i < |moves| && |states| == |moves| + 1
    requires moves[i].event in states[i].heap && !states[i].heap[moves[i].event].kind.DecisionTick?
    requires x in cfg.servers
    ensures x in states[i].servers && x in states[i + 1].servers
    ensures var s, r, kind := states[i], states[i + 1], states[i].heap[moves[i].event].kind;
            var a, b := s.servers[x], r.servers[x];
            if kind == BootDone(x) then
              && a.phase == Booting && r.now == a.lastTransition + cfg.delays.boot
              && b.phase == Active && b.lastTransition == r.now && b.boots == a.boots && b.shutdowns == a.shutdowns
            else if kind == DrainDone(x) then
              && a.phase == Draining
              && (b.phase == Off <==> forall v :: !AliveAt(s, x, v))
              && (if b.phase == Off then
                    b.lastTransition == r.now && b.boots == a.boots && b.shutdowns == a.shutdowns + 1
                  else SameSwitch(a, b))
            else SameSwitch(a, b)
  {
    hide IsHistory, IsRun, Prime, GoodStart, IsStep, Core, CoverOk, WasLegitimate, Popped, GoodConfig, ChoiceLinked,
      KindLinked, Handle, SwitchesOnly, SameSwitch, IsMin, AliveAt, Linked;
    var s, r, move := states[i], states[i + 1], moves[i];
    HistoryStep(cfg, rows, selected, homes, states, moves, i);
    InvAlways(cfg, rows, selected, homes, states, moves, i);
    var tau :| Core(cfg, s, tau, {});
    CoreKeys(cfg, s, tau);
    StepSwitches(cfg, s, tau, move.event, move.choice, r, x);
  }

  lemma StepSwitches(cfg: Config, s: State, tau: real, k: nat, choice: Choice, r: State, x: int)
    requires Core(cfg, s, tau, {}) && CoverOk(s) && IsStep(cfg, s, k, choice, r) && k in s.heap && x in s.servers
    requires !s.heap[k].kind.DecisionTick?
    ensures x in r.servers
    ensures var kind, a, b := s.heap[k].kind, s.servers[x], r.servers[x];
            if kind == BootDone(x) then
              && a.phase == Booting && r.now == a.lastTransition + cfg.delays.boot
              && b.phase == Active && b.lastTransition == r.now && b.boots == a.boots && b.shutdowns == a.shutdowns
            else if kind == DrainDone(x) then
              && a.phase == Draining
              && (b.phase == Off <==> forall v :: !AliveAt(s, x, v))
              && (if b.phase == Off then
                    b.lastTransition == r.now && b.boots == a.boots && b.shutdowns == a.shutdowns + 1
                  else SameSwitch(a, b))
            else SameSwitch(a, b)
  {
    hide Core, CoverOk, IsStep, Popped, GoodConfig, ChoiceLinked, KindLinked, Handle, IsMin, AliveAt, Linked,
      WasLegitimate;
    StepParts(cfg, s, k, choice, r);
    PoppedKeeps(cfg, s, tau, k);
    StepTime(cfg, s, tau, k, choice, r);
    var p, kind := Popped(cfg, s, k), s.heap[k].kind;
    PoppedSteady(cfg, s, k);
    PoppedView(cfg, s, k);
    ViewSlots(s, TickStart(p));
    HandleSwitches(cfg, p, kind, choice, x);
    if kind == BootDone(x) {
      BootWasDue(cfg, p, tau, x);
    } else if kind == DrainDone(x) {
      StoresOk(cfg, p);
      DrainWasDue(cfg, p, tau, x);
      forall v ensures AliveAt(p, x, v) <==> AliveAt(s, x, v) {
        assert AliveAt(TickStart(p), x, v) <==> AliveAt(p, x, v) by {
          SameAlive(p, x, v);
        }
      }
      DrainDoneOff(cfg, p, x);
      assert r == HandleDrainDone(cfg, p, x) by {
        DrainDispatch(cfg, p, x, choice);
      }
    }
  }

  lemma SameAlive(p: State, x: int, v: int)
    ensures AliveAt(TickStart(p), x, v) <==> AliveAt(p, x, v)
  {
  }

  lemma DrainDispatch(cfg: Config, p: State, x: int, choice: Choice)
    requires GoodConfig(cfg) && Linked(cfg, p) && ChoiceLinked(cfg, p, choice) && x in cfg.servers && InStore(p, x)
    ensures Handle(cfg, p, DrainDone(x), choice) == HandleDrainDone(cfg, p, x)
  {
    hide GoodConfig, Linked, ChoiceLinked, HandleDrainDone;
  }

  lemma BootWasDue(cfg: Config, p: State, tau: real, x: int)
    requires WasLegitimate(cfg, p, tau, BootDone(x))
    ensures x in p.servers && p.servers[x].phase == Booting && p.now == p.servers[x].lastTransition + cfg.delays.boot
  {
  }

  lemma DrainWasDue(cfg: Config, p: State, tau: real, x: int)
    requires WasLegitimate(cfg, p, tau, DrainDone(x))
    ensures x in p.servers && p.servers[x].phase == Draining && x in cfg.servers
  {
  }
}
