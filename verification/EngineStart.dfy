/** What `prime` sets up: the clock and the cutoff, one arrival per row, the first tick,
    the chosen servers booting and the first replicas on them. */
module EngineStart {
  import opened Settings
  import opened ReplicaQueues
  import opened EngineModel
  import opened EngineInvariants
  import opened EngineClock
  import opened EngineDrain
  import opened EngineRuns
  import opened EnginePrime
  import opened EngineLedger
  import opened EngineAccounts
  import opened EngineTraffic
  import opened EngineLifecycle
  import opened EngineFrames
  import opened EngineDecisions
  import opened EngineReplicas
  import opened EngineResponse
  import opened EngineScaling

  /** The first and the last time of the rows, zero if there are none. */
  ghost predicate IsFirst(rows: seq<Row>, time: real) {
    if rows == [] then time == 0.0
    else (exists i :: 0 <= i < |rows| && rows[i].time == time) && forall i :: 0 <= i < |rows| ==> time <= rows[i].time
  }

  ghost predicate IsLast(rows: seq<Row>, time: real) {
    if rows == [] then time == 0.0
    else (exists i :: 0 <= i < |rows| && rows[i].time == time) && forall i :: 0 <= i < |rows| ==> rows[i].time <= time
  }

  lemma {:induction false} FirstAndLast(rows: seq<Row>)
    ensures IsFirst(rows, EarliestTime(rows)) && IsLast(rows, LatestTime(rows))
    decreases |rows|
  {
    if |rows| == 1 {
      assert rows[0].time == EarliestTime(rows) == LatestTime(rows);
    } else if |rows| > 1 {
      var n := |rows| - 1;
      FirstAndLast(rows[..n]);
      var i :| 0 <= i < n && rows[..n][i].time == EarliestTime(rows[..n]);
      var j :| 0 <= j < n && rows[..n][j].time == LatestTime(rows[..n]);
      assert rows[i].time == EarliestTime(rows[..n]) && rows[j].time == LatestTime(rows[..n]);
      assert rows[n].time == EarliestTime(rows) || rows[i].time == EarliestTime(rows);
      assert rows[n].time == LatestTime(rows) || rows[j].time == LatestTime(rows);
      forall k | 0 <= k < |rows| ensures EarliestTime(rows) <= rows[k].time <= LatestTime(rows) {
        assert k < n ==> rows[..n][k] == rows[k];
      }
    }
  }

  lemma {:induction false} PushedAll(s: State, rows: seq<Row>)
    requires s.heap == map[] && s.lastSeq == 0
    ensures var r := PushArrivals(s, rows);
            r.lastSeq == |rows| && forall k :: k in r.heap <==> 1 <= k <= |rows|
    decreases |rows|
  {
    if rows != [] {
      PushedAll(s, rows[..|rows| - 1]);
    }
  }

  /** The chosen servers boot once, the others stay as they were. */
  ghost predicate ChosenBoot(cfg: Config, s: State, r: State, selected: seq<int>) {
    && r.servers.Keys == s.servers.Keys && r.now == s.now && r.objects == s.objects && r.lastScale == s.lastScale
    && forall x :: x in s.servers ==>
         if x in selected then Boots(cfg, s.servers[x], r.servers[x], s.now, false)
         else SameSwitch(s.servers[x], r.servers[x])
  }

  lemma {:induction false} BootAllBoots(cfg: Config, s: State, selected: seq<int>)
    requires forall x :: x in s.servers ==> s.servers[x].phase == Off
    requires forall i :: 0 <= i < |selected| ==> selected[i] in s.servers
    ensures ChosenBoot(cfg, s, BootAll(cfg, s, selected), selected)
    decreases |selected|
  {
    hide StartBoot;
    BootAllObjects(cfg, s, selected);
    if selected != [] {
      var n := |selected| - 1;
      var m := BootAll(cfg, s, selected[..n]);
      BootAllBoots(cfg, s, selected[..n]);
      StartBootShape(cfg, m, selected[n], false);
      assert selected == selected[..n] + [selected[n]];
      OneMoreBoots(cfg, s, m, BootAll(cfg, s, selected), selected[..n], selected[n]);
    }
  }

  lemma OneMoreBoots(cfg: Config, s: State, m: State, r: State, before: seq<int>, sid: int)
    requires ChosenBoot(cfg, s, m, before) && sid in s.servers && s.servers[sid].phase == Off
    requires r.now == m.now && r.servers.Keys == m.servers.Keys && r.objects == m.objects && r.lastScale == m.lastScale
    requires forall x :: x in m.servers && (x != sid || m.servers[x].phase != Off) ==> r.servers[x] == m.servers[x]
    requires m.servers[sid].phase == Off ==> Boots(cfg, m.servers[sid], r.servers[sid], m.now, false)
    ensures ChosenBoot(cfg, s, r, before + [sid])
  {
    forall x | x in s.servers
      ensures if x in before + [sid] then Boots(cfg, s.servers[x], r.servers[x], s.now, false)
              else SameSwitch(s.servers[x], r.servers[x])
    {
      assert x in before + [sid] <==> x in before || x == sid;
    }
  }

  /** Each home hosts its service, or has no room for it. */
  ghost predicate Homed(cfg: Config, s: State, home: Slot) {
    InSlot(s, home.server, home.service) || NoRoom(cfg, s, home.server, home.service)
  }

  ghost predicate HostsMore(s: State, r: State) {
    && r.servers.Keys == s.servers.Keys
    && forall x :: x in s.servers ==> s.servers[x].hosted.Keys <= r.servers[x].hosted.Keys
  }

  lemma HomedStays(cfg: Config, s: State, r: State, home: Slot)
    requires Homed(cfg, s, home) && HostsMore(s, r)
    ensures Homed(cfg, r, home)
  {
    hide GoodConfig, CpuSum;
    if NoRoom(cfg, s, home.server, home.service) {
      CpuSumMonotone(cfg, home.server, s.servers[home.server].hosted.Keys, r.servers[home.server].hosted.Keys);
    }
  }

  /** What a placement makes of the slots. */
  lemma PlaceHosting(cfg: Config, s: State, sid: int, svc: int)
    requires GoodConfig(cfg) && Linked(cfg, s) && sid in s.servers && svc in cfg.services
    ensures var r := Place(cfg, s, sid, svc).0;
            && r.servers.Keys == s.servers.Keys && r.lastScale == s.lastScale
            && (forall x :: x in s.servers && x != sid ==> r.servers[x].hosted == s.servers[x].hosted)
            && (if CanHost(cfg, s, sid, svc) then r.servers[sid].hosted == s.servers[sid].hosted[svc := |s.objects|]
                else r == s)
  {
    CreateParts(cfg, s, sid, svc);
    hide GoodConfig, Linked, Create, CanHost, FreshReplica;
  }

  lemma PlaceHomes(cfg: Config, s: State, home: Slot)
    requires GoodConfig(cfg) && Linked(cfg, s) && home.server in s.servers && home.service in cfg.services
    ensures var r := Place(cfg, s, home.server, home.service).0;
            Homed(cfg, r, home) && HostsMore(s, r) && r.lastScale == s.lastScale
    ensures var r := Place(cfg, s, home.server, home.service).0;
            forall x, v :: InSlot(r, x, v) ==> InSlot(s, x, v) || Slot(x, v) == home
  {
    LinkedServer(cfg, s, home.server);
    PlaceHosting(cfg, s, home.server, home.service);
    hide GoodConfig, Linked, Place, CpuSum;
  }

  lemma {:induction false} HomeAllHomes(cfg: Config, s: State, homes: seq<Slot>)
    requires GoodConfig(cfg) && Linked(cfg, s) && HomesInBounds(cfg, homes)
    ensures var r := HomeAll(cfg, s, homes);
            && HostsMore(s, r) && Steady(s, r) && r.lastScale == s.lastScale
            && (forall n :: 0 <= n < |homes| ==> Homed(cfg, r, homes[n]))
            && (forall x, v :: InSlot(r, x, v) ==> InSlot(s, x, v) || Slot(x, v) in homes)
    decreases |homes|
  {
    hide GoodConfig, Linked, Place, Homed, InSlot;
    if homes != [] {
      var n := |homes| - 1;
      var m, r := HomeAll(cfg, s, homes[..n]), HomeAll(cfg, s, homes);
      HomeAllHomes(cfg, s, homes[..n]);
      KnownServer(cfg, m, homes, n);
      PlaceHomes(cfg, m, homes[n]);
      PlaceSteady(cfg, m, homes[n].server, homes[n].service);
      SteadyTrans(s, m, r);
      assert homes == homes[..n] + [homes[n]];
      forall j | 0 <= j < |homes| ensures Homed(cfg, r, homes[j]) {
        if j < n {
          assert Homed(cfg, m, homes[..n][j]);
          HomedStays(cfg, m, r, homes[j]);
        }
      }
    }
  }

  /** Runs start with the earliest row and end a fixed time after the latest; each row
      is one arrival and the first tick is at the start; exactly the chosen servers
      boot, done one boot delay later; each service is on its home, where there is
      room, by a replica placed now, and nothing is hosted elsewhere. */
  lemma PrimeSetsUp(cfg: Config, rows: seq<Row>, selected: seq<int>, homes: seq<Slot>)
    returns (last: real)
    requires GoodStart(cfg, rows, selected, homes)
    ensures var s := Prime(cfg, rows, selected, homes);
            && IsFirst(rows, s.now) && IsLast(rows, last)
            && s.cutoff == last + 2.0 * cfg.overheadMs / 1000.0 + cfg.delays.interval + cfg.delays.grace
            && (forall k :: 1 <= k <= |rows| ==> k in s.heap && IsRowAt(rows, s.heap, k))
            && (forall k :: k in s.heap && IsTraffic(s.heap[k].kind) ==> 1 <= k <= |rows|)
            && DueOnlyAt(s.heap, DecisionTick, s.now)
            && s.servers.Keys == cfg.servers.Keys
            && (forall x :: x in s.servers ==>
                  if x in selected then
                    && s.servers[x].phase == Booting && s.servers[x].boots == 1
                    && DueOnlyAt(s.heap, BootDone(x), s.now + cfg.delays.boot)
                  else
                    && s.servers[x].phase == Off && s.servers[x].boots == 0
                    && s.servers[x].lastTransition == -1000000000000000000.0)
            && (forall n :: 0 <= n < |homes| ==> Homed(cfg, s, homes[n]))
            && (forall x, v :: InSlot(s, x, v) ==> Slot(x, v) in homes)
            && (forall v :: v in cfg.services ==> v in s.lastScale && s.lastScale[v] == -1000000000000000000.0)
            && (forall o :: 0 <= o < |s.objects| ==> Newborn(cfg, s.now, s.objects[o]))
  {
    hide Prime, Core, CoverOk, GoodConfig, IsFirst, IsLast, DueOnlyAt, Homed, InSlot, Newborn, IsRowAt, GoodStart;
    last := LatestTime(rows);
    FirstAndLast(rows);
    PrimeEstablishes(cfg, rows, selected, homes);
    PrimeClock(cfg, rows, selected, homes);
    PrimeArrivals(cfg, rows, selected, homes);
    PrimeServers(cfg, rows, selected, homes);
    PrimeNewborn(cfg, rows, selected, homes);
    var s := Prime(cfg, rows, selected, homes);
    CoreKeys(cfg, s, EarliestTime(rows));
    TickEvent(cfg, s, EarliestTime(rows));
    forall x | x in s.servers && x in selected ensures DueOnlyAt(s.heap, BootDone(x), s.now + cfg.delays.boot) {
      SwitchEvents(cfg, s, EarliestTime(rows), x);
    }
  }

  lemma TickEvent(cfg: Config, s: State, tau: real)
    requires Core(cfg, s, tau, {})
    ensures DueOnlyAt(s.heap, DecisionTick, tau)
  {
    hide SlotsOk, IndexOk, CapacityOk, PhasesOk, GonePairsOk, ServersArmed, SlotsArmed, PendingOk, RescueOk, QueuesOk,
      MetersOk, DrainBoundOk, HandledOk, Linked, GoodConfig;
    DueOnce(s.heap, DecisionTick);
    var k :| IsTheOnly(s.heap, DecisionTick, k);
    assert EventOk(cfg, s, tau, s.heap[k]);
  }

  lemma PrimeClock(cfg: Config, rows: seq<Row>, selected: seq<int>, homes: seq<Slot>)
    requires GoodStart(cfg, rows, selected, homes)
    ensures var s := Prime(cfg, rows, selected, homes);
            && s.now == EarliestTime(rows)
            && s.cutoff == LatestTime(rows) + 2.0 * cfg.overheadMs / 1000.0 + cfg.delays.interval + cfg.delays.grace
  {
    hide PushArrivals, BootAll, HomeAll, SameTraffic;
    var s1 := PushArrivals(Blank(cfg, rows), rows);
    PushArrivalsFrame(Blank(cfg, rows), rows);
    PrimeWorks(cfg, rows, selected, homes);
    TrafficCutoff(s1, Prime(cfg, rows, selected, homes));
    BootAllLinked(cfg, s1, selected);
    BootAllObjects(cfg, s1, selected);
    HomeAllHomes(cfg, BootAll(cfg, s1, selected), homes);
  }

  lemma TrafficCutoff(s: State, r: State)
    requires SameTraffic(s, r)
    ensures r.cutoff == s.cutoff
  {
  }

  lemma PrimeArrivals(cfg: Config, rows: seq<Row>, selected: seq<int>, homes: seq<Slot>)
    requires GoodStart(cfg, rows, selected, homes)
    ensures var s := Prime(cfg, rows, selected, homes);
            && (forall k :: 1 <= k <= |rows| ==> k in s.heap && IsRowAt(rows, s.heap, k))
            && (forall k :: k in s.heap && IsTraffic(s.heap[k].kind) ==> 1 <= k <= |rows|)
  {
    hide Prime, PushArrivals, SameTraffic, Fresh;
    var s0 := Blank(cfg, rows);
    var s1, s := PushArrivals(s0, rows), Prime(cfg, rows, selected, homes);
    PushedRows(s0, rows);
    PushedAll(s0, rows);
    PrimeWorks(cfg, rows, selected, homes);
    forall k: nat | 1 <= k <= |rows| ensures k in s.heap && IsRowAt(rows, s.heap, k) {
      assert k in s1.heap && IsRowAt(rows, s1.heap, k);
      SameTrafficBack(s1, s, k);
    }
    forall k | k in s.heap && IsTraffic(s.heap[k].kind) ensures 1 <= k <= |rows| {
      SameTrafficEvents(s1, s, k);
    }
  }

  lemma SameTrafficBack(s: State, r: State, k: nat)
    requires SameTraffic(s, r) && Fresh(s) && k in s.heap && IsTraffic(s.heap[k].kind)
    ensures k in r.heap && r.heap[k] == s.heap[k]
  {
    assert k in Traffic(s.heap);
    assert k in Traffic(r.heap) && Traffic(s.heap)[k] == s.heap[k] && Traffic(r.heap)[k] == r.heap[k];
  }

  lemma PrimeServers(cfg: Config, rows: seq<Row>, selected: seq<int>, homes: seq<Slot>)
    requires GoodStart(cfg, rows, selected, homes)
    ensures var s := Prime(cfg, rows, selected, homes);
            && (forall x :: x in s.servers ==>
                  if x in selected then
                    s.servers[x].phase == Booting && s.servers[x].boots == 1 && s.servers[x].lastTransition == s.now
                  else
                    && s.servers[x].phase == Off && s.servers[x].boots == 0
                    && s.servers[x].lastTransition == -1000000000000000000.0)
            && (forall n :: 0 <= n < |homes| ==> Homed(cfg, s, homes[n]))
            && (forall x, v :: InSlot(s, x, v) ==> Slot(x, v) in homes)
            && (forall v :: v in cfg.services ==> v in s.lastScale && s.lastScale[v] == -1000000000000000000.0)
  {
    hide PushArrivals, BootAll, HomeAll, GoodConfig, NoRoom;
    var s0 := Blank(cfg, rows);
    var s1 := PushArrivals(s0, rows);
    PushArrivalsFrame(s0, rows);
    BootAllLinked(cfg, s1, selected);
    BootAllBoots(cfg, s1, selected);
    var s2 := BootAll(cfg, s1, selected);
    HomeAllHomes(cfg, s2, homes);
    NothingHosted(cfg, s1, selected);
    var s3, s := HomeAll(cfg, s2, homes), Prime(cfg, rows, selected, homes);
    forall n | 0 <= n < |homes| ensures Homed(cfg, s, homes[n]) {
      assert Homed(cfg, s3, homes[n]);
      HomedStays(cfg, s3, s, homes[n]);
    }
  }

  lemma {:induction false} NothingHosted(cfg: Config, s: State, selected: seq<int>)
    requires forall i :: 0 <= i < |selected| ==> selected[i] in s.servers
    requires forall x :: x in s.servers ==> s.servers[x].hosted == map[]
    ensures forall x, v :: !InSlot(BootAll(cfg, s, selected), x, v)
    ensures forall x :: x in s.servers ==> BootAll(cfg, s, selected).servers[x].hosted == map[]
    decreases |selected|
  {
    if selected != [] {
      NothingHosted(cfg, s, selected[..|selected| - 1]);
    }
  }
}
