/** The initial placement of algorithms/base.py: greedy set cover of the active
    base stations, then a top-up until the servers chosen can carry every service. */
module GreedyCover {
  import opened Collections
  import opened Settings
  import opened Sorting

  /** The base stations a server reaches within the latency bound. */
  function Reached(cfg: Config, site: Position, points: seq<Position>, bound: real): set<int> {
    set i | 0 <= i < |points| && NetworkDelayMs(cfg, cfg.distance(points[i], site)) <= bound
  }

  predicate IsPoint(i: int, n: nat) {
    0 <= i < n
  }

  function Points(n: nat): set<int> {
    set i | 0 <= i < n && IsPoint(i, n)
  }

  /** What the chosen servers leave uncovered. */
  function Uncovered(covers: map<int, set<int>>, all: set<int>, chosen: seq<int>): set<int>
    requires forall sid :: sid in chosen ==> sid in covers
  {
    set i | i in all && forall s :: s in chosen ==> i !in covers[s]
  }

  predicate IsEarlier(servers: seq<int>, x: int, y: int) {
    exists j, k :: 0 <= j < k < |servers| && servers[j] == x && servers[k] == y
  }

  /** No server left covers more of what is uncovered than this one does, and none
      before it in the dictionary as much. */
  ghost predicate BestNext(covers: map<int, set<int>>, servers: seq<int>, all: set<int>, chosen: seq<int>, sid: int)
    requires forall x :: x in servers ==> x in covers
    requires forall x :: x in chosen ==> x in servers
  {
    && sid in servers && sid !in chosen
    && forall x :: x in servers && x !in chosen ==>
         && |covers[x] * Uncovered(covers, all, chosen)| <= |covers[sid] * Uncovered(covers, all, chosen)|
         && (IsEarlier(servers, x, sid) ==>
               |covers[x] * Uncovered(covers, all, chosen)| < |covers[sid] * Uncovered(covers, all, chosen)|)
  }

  /** Each server chosen was the best next one. */
  ghost predicate Greedy(covers: map<int, set<int>>, servers: seq<int>, all: set<int>, chosen: seq<int>)
    requires forall x :: x in servers ==> x in covers
  {
    && (forall x :: x in chosen ==> x in servers)
    && forall t :: 0 <= t < |chosen| ==>
         (forall x :: x in chosen[..t] ==> x in servers) && BestNext(covers, servers, all, chosen[..t], chosen[t])
  }

  // ------------------------------------------------------------------
  // The approximation bound
  // ------------------------------------------------------------------

  function Power(b: nat, t: nat): nat {
    if t == 0 then 1 else b * Power(b, t - 1)
  }

  /** These servers cover every point. */
  predicate CoversAll(covers: map<int, set<int>>, all: set<int>, team: set<int>)
    requires forall s :: s in team ==> s in covers
  {
    forall i :: i in all ==> exists s :: s in team && i in covers[s]
  }

  /** What k servers cover together is at most k times the most one of them covers. */
  lemma {:induction false} UnionBound(covers: map<int, set<int>>, rest: set<int>, team: set<int>, most: nat)
    requires forall s :: s in team ==> s in covers
    requires CoversAll(covers, rest, team)
    requires forall s :: s in team ==> |covers[s] * rest| <= most
    ensures |rest| <= |team| * most
    decreases |team|
  {
    if team == {} {
      if rest != {} {
        var i := Pick(rest);
      }
    } else {
      var s := Pick(team);
      var less, fewer := rest - covers[s], team - {s};
      forall i | i in less ensures exists x :: x in fewer && i in covers[x] {
        var x :| x in team && i in covers[x];
        assert x in fewer;
      }
      forall x | x in fewer ensures |covers[x] * less| <= most {
        SubsetSize(covers[x] * less, covers[x] * rest);
      }
      UnionBound(covers, less, fewer, most);
      assert |rest| <= |less| + most by {
        assert rest == less + covers[s] * rest;
      }
      Distribute(|fewer|, most, |team|);
    }
  }

  lemma Distribute(k: nat, m: nat, n: nat)
    requires n == k + 1
    ensures n * m == k * m + m
  {
  }

  /** One greedy round covers at least a k-th of what was left. */
  lemma RoundBound(covers: map<int, set<int>>, servers: seq<int>, all: set<int>, chosen: seq<int>, sid: int,
                   team: set<int>)
    requires forall x :: x in servers ==> x in covers
    requires forall x :: x in chosen ==> x in servers
    requires BestNext(covers, servers, all, chosen, sid)
    requires forall s :: s in team ==> s in servers
    requires CoversAll(covers, all, team) && |team| > 0
    ensures |team| * |Uncovered(covers, all, chosen + [sid])| <= (|team| - 1) * |Uncovered(covers, all, chosen)|
  {
    hide Uncovered, CoversAll, BestNext;
    BestIsNew(covers, servers, all, chosen, sid);
    var rest := Uncovered(covers, all, chosen);
    var most := |covers[sid] * rest|;
    TeamGain(covers, servers, all, chosen, sid, team);
    UnionBound(covers, rest, team, most);
    LeftAndGain(covers, all, chosen, sid);
    ShareLeft(|team|, |rest|, most, |Uncovered(covers, all, chosen + [sid])|);
  }

  lemma BestIsNew(covers: map<int, set<int>>, servers: seq<int>, all: set<int>, chosen: seq<int>, sid: int)
    requires forall x :: x in servers ==> x in covers
    requires forall x :: x in chosen ==> x in servers
    requires BestNext(covers, servers, all, chosen, sid)
    ensures sid in covers && forall x :: x in chosen ==> x in covers
  {
  }

  /** No member of the team covers more of what is left, and together they cover it. */
  lemma TeamGain(covers: map<int, set<int>>, servers: seq<int>, all: set<int>, chosen: seq<int>, sid: int,
                 team: set<int>)
    requires forall x :: x in servers ==> x in covers
    requires forall x :: x in chosen ==> x in servers
    requires BestNext(covers, servers, all, chosen, sid) && sid in covers
    requires (forall s :: s in team ==> s in servers) && CoversAll(covers, all, team)
    ensures forall s :: s in team ==> |covers[s] * Uncovered(covers, all, chosen)|
                                      <= |covers[sid] * Uncovered(covers, all, chosen)|
    ensures CoversAll(covers, Uncovered(covers, all, chosen), team)
  {
    var rest := Uncovered(covers, all, chosen);
    forall s | s in team ensures |covers[s] * rest| <= |covers[sid] * rest| {
      if s in chosen {
        assert covers[s] * rest == {};
      }
    }
  }

  lemma LeftAndGain(covers: map<int, set<int>>, all: set<int>, chosen: seq<int>, sid: int)
    requires sid in covers && forall x :: x in chosen ==> x in covers
    ensures |Uncovered(covers, all, chosen)|
            == |Uncovered(covers, all, chosen + [sid])| + |covers[sid] * Uncovered(covers, all, chosen)|
  {
    NextUncovered(covers, all, chosen, sid);
    var rest, left := Uncovered(covers, all, chosen), Uncovered(covers, all, chosen + [sid]);
    hide Uncovered;
    assert rest == left + covers[sid] * rest && left !! covers[sid] * rest;
  }

  lemma NextUncovered(covers: map<int, set<int>>, all: set<int>, chosen: seq<int>, sid: int)
    requires sid in covers && forall x :: x in chosen ==> x in covers
    ensures Uncovered(covers, all, chosen + [sid]) == Uncovered(covers, all, chosen) - covers[sid]
  {
    var more := chosen + [sid];
    forall i ensures i in Uncovered(covers, all, more) <==> i in Uncovered(covers, all, chosen) - covers[sid] {
      assert forall s :: s in more <==> s in chosen || s == sid;
    }
  }

  lemma ShareLeft(k: nat, n: nat, gain: nat, left: nat)
    requires n <= k * gain && n == left + gain && k > 0
    ensures k * left <= (k - 1) * n
  {
    assert k * left == k * n - k * gain;
  }

  /** Greedy bound: if some k servers cover all n points, then after t rounds the
      number u of uncovered points satisfies k^t * u <= (k - 1)^t * n. */
  lemma {:induction false} GreedyBound(covers: map<int, set<int>>, servers: seq<int>, all: set<int>, chosen: seq<int>,
                                       team: set<int>, t: nat)
    requires forall x :: x in servers ==> x in covers
    requires Greedy(covers, servers, all, chosen) && t <= |chosen|
    requires forall s :: s in team ==> s in servers
    requires CoversAll(covers, all, team) && |team| > 0
    ensures forall x :: x in chosen[..t] ==> x in covers
    ensures Power(|team|, t) * |Uncovered(covers, all, chosen[..t])| <= Power(|team| - 1, t) * |all|
  {
    hide Uncovered, CoversAll, BestNext, Power;
    assert forall x :: x in chosen[..t] ==> x in chosen;
    if t == 0 {
      NothingChosen(covers, all, chosen, |team|);
    } else {
      GreedyBound(covers, servers, all, chosen, team, t - 1);
      assert chosen[..t] == chosen[..t - 1] + [chosen[t - 1]];
      RoundBound(covers, servers, all, chosen[..t - 1], chosen[t - 1], team);
      NextPowers(|team|, t);
      Chain(|team|, Power(|team|, t - 1), Power(|team| - 1, t - 1), |Uncovered(covers, all, chosen[..t - 1])|,
            |Uncovered(covers, all, chosen[..t])|, |all|);
    }
  }

  lemma NothingChosen(covers: map<int, set<int>>, all: set<int>, chosen: seq<int>, k: nat)
    requires k > 0
    ensures Power(k, 0) * |Uncovered(covers, all, chosen[..0])| <= Power(k - 1, 0) * |all|
  {
    assert Uncovered(covers, all, chosen[..0]) == all;
  }

  lemma NextPowers(k: nat, t: nat)
    requires k > 0 && t > 0
    ensures Power(k, t) == k * Power(k, t - 1) && Power(k - 1, t) == (k - 1) * Power(k - 1, t - 1)
  {
  }

  lemma Chain(k: nat, p: nat, q: nat, u: nat, v: nat, n: nat)
    requires k > 0 && p * u <= q * n && k * v <= (k - 1) * u
    ensures k * p * v <= (k - 1) * q * n
  {
    calc <= {
      k * p * v;
      { assert k * p * v == p * (k * v); }
      p * (k * v);
      { MulMonotone(p, k * v, (k - 1) * u); }
      p * ((k - 1) * u);
      { assert p * ((k - 1) * u) == (k - 1) * (p * u); }
      (k - 1) * (p * u);
      { MulMonotone(k - 1, p * u, q * n); }
      (k - 1) * (q * n);
      { assert (k - 1) * (q * n) == (k - 1) * q * n; }
      (k - 1) * q * n;
    }
  }

  lemma MulMonotone(a: nat, x: int, y: int)
    requires x <= y
    ensures a * x <= a * y
  {
  }

  /** Once k^t exceeds (k - 1)^t * n, nothing is left uncovered. */
  lemma CoveredAfter(covers: map<int, set<int>>, servers: seq<int>, all: set<int>, chosen: seq<int>, team: set<int>,
                     t: nat)
    requires forall x :: x in servers ==> x in covers
    requires Greedy(covers, servers, all, chosen) && t <= |chosen|
    requires forall s :: s in team ==> s in servers
    requires CoversAll(covers, all, team) && |team| > 0
    requires Power(|team| - 1, t) * |all| < Power(|team|, t)
    ensures forall x :: x in chosen[..t] ==> x in covers
    ensures Uncovered(covers, all, chosen[..t]) == {}
  {
    hide Uncovered, CoversAll, Greedy, Power;
    GreedyBound(covers, servers, all, chosen, team, t);
    var u := |Uncovered(covers, all, chosen[..t])|;
    if u >= 1 {
      MulMonotone(Power(|team|, t), 1, u);
    }
  }

  // ------------------------------------------------------------------
  // The cover loop
  // ------------------------------------------------------------------

  /** The first server in dictionary order, not chosen yet, that covers most of the rest. */
  method BestServer(covers: map<int, set<int>>, servers: seq<int>, all: set<int>, chosen: seq<int>, rest: set<int>)
    returns (best: Option<int>, cover: set<int>)
    requires Distinct(servers) && forall x :: x in servers ==> x in covers
    requires (forall x :: x in chosen ==> x in servers) && rest == Uncovered(covers, all, chosen)
    ensures best.None? ==> forall x :: x in servers && x !in chosen ==> covers[x] * rest == {}
    ensures best.Some? ==> BestNext(covers, servers, all, chosen, best.value)
                           && cover == covers[best.value] * rest && cover != {}
  {
    best, cover := None, {};
    forall j | 0 <= j < |servers| ensures servers[j] in covers {
      var x := servers[j];
      assert x in servers;
    }
    ghost var at := 0;
    var i := 0;
    while i < |servers|
      invariant 0 <= i <= |servers| && forall j :: 0 <= j < |servers| ==> servers[j] in covers
      invariant best.None? ==> cover == {}
      invariant best.Some? ==> best.value in servers && best.value in covers && best.value !in chosen
                               && cover == covers[best.value] * rest && cover != {}
      invariant forall j :: 0 <= j < i && servers[j] !in chosen ==> |covers[servers[j]] * rest| <= |cover|
      invariant 0 <= at <= i && (best.Some? ==> at < i && servers[at] == best.value)
      invariant forall j :: 0 <= j < at && servers[j] !in chosen ==> |covers[servers[j]] * rest| < |cover|
    {
      var sid := servers[i];
      if sid !in chosen {
        var inter := covers[sid] * rest;
        if |inter| > |cover| {
          best, cover, at := Some(sid), inter, i;
        }
      }
      i := i + 1;
    }
    forall x | x in servers && x !in chosen
      ensures |covers[x] * rest| <= |cover|
      ensures best.Some? && IsEarlier(servers, x, best.value) ==> |covers[x] * rest| < |cover|
    {
      var j :| 0 <= j < |servers| && servers[j] == x;
    }
  }

  /** Everything that any server covers is covered. */
  ghost predicate CoversCoverable(covers: map<int, set<int>>, servers: seq<int>, all: set<int>, chosen: seq<int>)
    requires forall x :: x in servers ==> x in covers
    requires forall x :: x in chosen ==> x in covers
  {
    forall i, x :: i in Uncovered(covers, all, chosen) && x in servers ==> i !in covers[x]
  }

  lemma NothingMoreToCover(covers: map<int, set<int>>, servers: seq<int>, all: set<int>, chosen: seq<int>)
    requires forall x :: x in servers ==> x in covers
    requires forall x :: x in chosen ==> x in servers
    requires forall x :: x in servers && x !in chosen ==> covers[x] * Uncovered(covers, all, chosen) == {}
    ensures CoversCoverable(covers, servers, all, chosen)
  {
    forall i, x | i in Uncovered(covers, all, chosen) && x in servers ensures i !in covers[x] {
      if x !in chosen {
        var both := covers[x] * Uncovered(covers, all, chosen);
        assert i !in both;
      }
    }
  }

  lemma ExtendGreedy(covers: map<int, set<int>>, servers: seq<int>, all: set<int>, chosen: seq<int>, sid: int)
    requires forall x :: x in servers ==> x in covers
    requires Greedy(covers, servers, all, chosen) && Distinct(chosen) && BestNext(covers, servers, all, chosen, sid)
    ensures Greedy(covers, servers, all, chosen + [sid]) && Distinct(chosen + [sid])
  {
    var more := chosen + [sid];
    forall t | 0 <= t < |more|
      ensures (forall x :: x in more[..t] ==> x in servers) && BestNext(covers, servers, all, more[..t], more[t])
    {
      if t < |chosen| {
        assert more[..t] == chosen[..t] && more[t] == chosen[t];
      } else {
        assert more[..t] == chosen;
      }
    }
  }

  /** The while loop of `initial_placement`. */
  method CoverGreedily(covers: map<int, set<int>>, servers: seq<int>, all: set<int>) returns (chosen: seq<int>)
    requires Distinct(servers) && forall x :: x in servers ==> x in covers
    ensures Distinct(chosen) && Greedy(covers, servers, all, chosen)
    ensures CoversCoverable(covers, servers, all, chosen)
  {
    hide BestNext, Uncovered;
    chosen := [];
    var rest := all;
    NoneChosen(covers, all);
    while rest != {}
      invariant Distinct(chosen) && Greedy(covers, servers, all, chosen) && rest == Uncovered(covers, all, chosen)
      decreases |rest|
    {
      var best, cover := BestServer(covers, servers, all, chosen, rest);
      if best.None? {
        NothingMoreToCover(covers, servers, all, chosen);
        return;
      }
      ExtendGreedy(covers, servers, all, chosen, best.value);
      NextUncovered(covers, all, chosen, best.value);
      Shrinks(rest, covers[best.value]);
      chosen := chosen + [best.value];
      rest := rest - cover;
      if |chosen| == |servers| {
        AllChosen(servers, chosen);
        NothingMoreToCover(covers, servers, all, chosen);
        return;
      }
    }
  }

  lemma NoneChosen(covers: map<int, set<int>>, all: set<int>)
    ensures Uncovered(covers, all, []) == all
  {
  }

  lemma Shrinks(rest: set<int>, cover: set<int>)
    requires cover * rest != {}
    ensures rest - cover * rest == rest - cover && |rest - cover| < |rest|
  {
    assert rest == (rest - cover) + cover * rest;
  }

  // ------------------------------------------------------------------
  // The capacity top-up
  // ------------------------------------------------------------------

  function Total(capacity: map<int, int>, chosen: seq<int>): int
    requires forall x :: x in chosen ==> x in capacity
  {
    if chosen == [] then 0
    else
      var n := |chosen| - 1;
      var last := chosen[n];
      assert last in chosen;
      assert forall x :: x in chosen[..n] ==> x in chosen;
      Total(capacity, chosen[..n]) + capacity[last]
  }

  /** The servers not chosen, in dictionary order. */
  method Others(servers: seq<int>, chosen: seq<int>) returns (others: seq<int>)
    requires Distinct(servers)
    ensures Distinct(others) && forall x :: x in others <==> x in servers && x !in chosen
  {
    others := [];
    var i := 0;
    while i < |servers|
      invariant 0 <= i <= |servers| && Distinct(others)
      invariant forall x :: x in others <==> x in servers[..i] && x !in chosen
    {
      assert servers[..i + 1] == servers[..i] + [servers[i]];
      assert servers[i] !in servers[..i];
      if servers[i] !in chosen {
        others := others + [servers[i]];
      }
      i := i + 1;
    }
    assert servers[..|servers|] == servers;
  }

  /** Appends the spare servers in order until the capacity suffices. */
  method TopUp(capacity: map<int, int>, chosen: seq<int>, spare: seq<int>, needed: int) returns (selected: seq<int>)
    requires Distinct(chosen + spare) && forall x :: x in chosen + spare ==> x in capacity
    ensures |chosen| <= |selected| <= |chosen + spare| && selected == (chosen + spare)[..|selected|]
    ensures forall x :: x in selected ==> x in capacity
    ensures Total(capacity, selected) >= needed || selected == chosen + spare
    ensures forall m :: |chosen| <= m < |selected| ==>
              && (forall x :: x in (chosen + spare)[..m] ==> x in capacity)
              && Total(capacity, (chosen + spare)[..m]) < needed
  {
    var line := chosen + spare;
    var m := |chosen|;
    assert line[..m] == chosen;
    while true
      invariant |chosen| <= m <= |line|
      invariant forall k :: |chosen| <= k < m ==>
                  (forall x :: x in line[..k] ==> x in capacity) && Total(capacity, line[..k]) < needed
      decreases |line| - m
    {
      assert forall x :: x in line[..m] ==> x in line;
      if Total(capacity, line[..m]) >= needed || m == |line| {
        break;
      }
      m := m + 1;
    }
    selected := line[..m];
  }

  /** `initial_placement`: `rounds` is how many servers the cover loop chose. */
  method InitialPlacement(covers: map<int, set<int>>, servers: seq<int>, all: set<int>, capacity: map<int, int>,
                          needed: int, distance: (int, seq<int>) -> real)
    returns (selected: seq<int>, rounds: nat)
    requires servers != [] && Distinct(servers)
    requires forall x :: x in servers ==> x in covers && x in capacity
    ensures Distinct(selected) && selected != [] && forall x :: x in selected ==> x in servers
    ensures rounds <= |selected| && Greedy(covers, servers, all, selected[..rounds])
    ensures CoversCoverable(covers, servers, all, selected[..rounds])
    ensures rounds == 0 ==> selected[0] == servers[0]
    ensures Total(capacity, selected) >= needed || forall x :: x in servers ==> x in selected
    ensures forall i, j :: rounds <= i < j < |selected| && 1 <= i ==>
              distance(selected[i], selected[..if rounds == 0 then 1 else rounds])
              <= distance(selected[j], selected[..if rounds == 0 then 1 else rounds])
    ensures forall m :: rounds <= m < |selected| && 1 <= m ==>
              (forall x :: x in selected[..m] ==> x in capacity) && Total(capacity, selected[..m]) < needed
  {
    hide Greedy, CoversCoverable, Total;
    var chosen := CoverGreedily(covers, servers, all);
    rounds := |chosen|;
    GreedyKnown(covers, servers, all, chosen);
    ghost var cover := chosen;
    if chosen == [] {
      chosen := [servers[0]];
    }
    var others := Others(servers, chosen);
    var spare := SortBy(others, x => distance(x, chosen));
    SameMembers(spare, others);
    DistinctCounts(others);
    DistinctCounts(spare);
    DistinctJoin(chosen, spare);
    selected := TopUp(capacity, chosen, spare, needed);
    assert selected[..|chosen|] == chosen && selected[..rounds] == cover;
    Tail(chosen, spare, selected);
    ghost var line := chosen + spare;
    forall m | rounds <= m < |selected| && 1 <= m
      ensures (forall x :: x in selected[..m] ==> x in capacity) && Total(capacity, selected[..m]) < needed
    {
      assert selected[..m] == line[..m];
    }
  }

  lemma GreedyKnown(covers: map<int, set<int>>, servers: seq<int>, all: set<int>, chosen: seq<int>)
    requires forall x :: x in servers ==> x in covers
    requires Greedy(covers, servers, all, chosen)
    ensures forall x :: x in chosen ==> x in servers
  {
  }

  lemma Tail(chosen: seq<int>, spare: seq<int>, selected: seq<int>)
    requires |chosen| <= |selected| <= |chosen + spare| && selected == (chosen + spare)[..|selected|]
    ensures forall i :: |chosen| <= i < |selected| ==> selected[i] == spare[i - |chosen|]
  {
  }

  // ------------------------------------------------------------------
  // With the servers and base stations themselves
  // ------------------------------------------------------------------

  /** Which base stations each server reaches. */
  function Covers(cfg: Config, points: seq<Position>, bound: real): map<int, set<int>> {
    map sid | sid in cfg.servers :: Reached(cfg, cfg.servers[sid].site, points, bound)
  }

  function Capacities(cfg: Config): map<int, int> {
    map sid | sid in cfg.servers :: cfg.servers[sid].capacity
  }

  function Between(cfg: Config, x: int, y: int): real {
    if x in cfg.servers && y in cfg.servers then cfg.distance(cfg.servers[x].site, cfg.servers[y].site) else 0.0
  }

  /** The distance to the nearest chosen server. */
  function NearestDistance(cfg: Config, x: int, chosen: seq<int>): real {
    if chosen == [] then 0.0
    else if |chosen| == 1 then Between(cfg, x, chosen[0])
    else Least(NearestDistance(cfg, x, chosen[..|chosen| - 1]), Between(cfg, x, chosen[|chosen| - 1]))
  }

  /** It is one of their distances and none of them is nearer. */
  lemma {:induction false} NearestIsNearest(cfg: Config, x: int, chosen: seq<int>)
    requires chosen != []
    ensures exists a :: 0 <= a < |chosen| && NearestDistance(cfg, x, chosen) == Between(cfg, x, chosen[a])
    ensures forall a :: 0 <= a < |chosen| ==> NearestDistance(cfg, x, chosen) <= Between(cfg, x, chosen[a])
    decreases |chosen|
  {
    hide Between;
    var n := |chosen| - 1;
    if n == 0 {
      assert NearestDistance(cfg, x, chosen) == Between(cfg, x, chosen[0]);
    } else {
      NearestIsNearest(cfg, x, chosen[..n]);
      var a :| 0 <= a < n && NearestDistance(cfg, x, chosen[..n]) == Between(cfg, x, chosen[..n][a]);
      assert chosen[..n][a] == chosen[a];
      forall b | 0 <= b < |chosen| ensures NearestDistance(cfg, x, chosen) <= Between(cfg, x, chosen[b]) {
        assert b < n ==> chosen[..n][b] == chosen[b];
      }
      assert NearestDistance(cfg, x, chosen) in {Between(cfg, x, chosen[a]), Between(cfg, x, chosen[n])};
    }
  }

  /** Some server of the cover is at least as near to x as any of them is to y. */
  ghost predicate NoFarther(cfg: Config, cover: seq<int>, x: int, y: int) {
    && x in cfg.servers && y in cfg.servers && (forall a :: 0 <= a < |cover| ==> cover[a] in cfg.servers)
    && exists a :: 0 <= a < |cover| &&
         forall b :: 0 <= b < |cover| ==>
           cfg.distance(cfg.servers[x].site, cfg.servers[cover[a]].site)
           <= cfg.distance(cfg.servers[y].site, cfg.servers[cover[b]].site)
  }

  lemma NearestFirst(cfg: Config, cover: seq<int>, x: int, y: int)
    requires cover != [] && x in cfg.servers && y in cfg.servers
    requires forall a :: 0 <= a < |cover| ==> cover[a] in cfg.servers
    requires NearestDistance(cfg, x, cover) <= NearestDistance(cfg, y, cover)
    ensures NoFarther(cfg, cover, x, y)
  {
    hide NearestDistance;
    NearestIsNearest(cfg, x, cover);
    NearestIsNearest(cfg, y, cover);
    var a :| 0 <= a < |cover| && NearestDistance(cfg, x, cover) == Between(cfg, x, cover[a]);
    forall b | 0 <= b < |cover|
      ensures cfg.distance(cfg.servers[x].site, cfg.servers[cover[a]].site)
              <= cfg.distance(cfg.servers[y].site, cfg.servers[cover[b]].site)
    {
      assert NearestDistance(cfg, y, cover) <= Between(cfg, y, cover[b]);
    }
  }

  /** The delay from a base station to a server is within the bound. */
  predicate Reaches(cfg: Config, sid: int, point: Position, bound: real) {
    sid in cfg.servers && cfg.baseMs + cfg.perKmMs * cfg.distance(point, cfg.servers[sid].site) <= bound
  }

  lemma CoversAreReached(cfg: Config, points: seq<Position>, bound: real, i: nat)
    requires i < |points|
    ensures forall x :: x in cfg.servers ==>
              (i in Covers(cfg, points, bound)[x] <==> Reaches(cfg, x, points[i], bound))
  {
  }

  /** A team of servers that together reach every base station. */
  ghost predicate ReachesAll(cfg: Config, points: seq<Position>, bound: real, team: set<int>) {
    && team != {} && (forall s :: s in team ==> s in cfg.servers)
    && CoversAll(Covers(cfg, points, bound), Points(|points|), team)
  }

  /** The whole initial placement: every base station that some server reaches is
      reached by the cover, whose every prefix is within the greedy bound of any
      team that reaches them all; the top-up then takes the servers nearest to the
      cover first, to the capacity needed and no further, or takes every server. */
  method PlaceInitially(cfg: Config, points: seq<Position>, bound: real, servers: seq<int>, needed: int)
    returns (selected: seq<int>, rounds: nat)
    requires servers != [] && Distinct(servers) && forall x :: x in servers <==> x in cfg.servers
    ensures Distinct(selected) && selected != [] && forall x :: x in selected ==> x in cfg.servers
    ensures rounds <= |selected| && (rounds == 0 ==> selected[0] == servers[0])
    ensures forall i, x :: 0 <= i < |points| && Reaches(cfg, x, points[i], bound) ==>
              exists s :: s in selected[..rounds] && Reaches(cfg, s, points[i], bound)
    ensures forall team: set<int>, t :: 0 <= t <= rounds && ReachesAll(cfg, points, bound, team) ==>
              (forall x :: x in selected[..t] ==> x in cfg.servers) &&
              Power(|team|, t) * |Uncovered(Covers(cfg, points, bound), Points(|points|), selected[..t])|
              <= Power(|team| - 1, t) * |Points(|points|)|
    ensures Total(Capacities(cfg), selected) >= needed || forall x :: x in cfg.servers ==> x in selected
    ensures forall i, j :: rounds <= i < j < |selected| && 1 <= i ==>
              NoFarther(cfg, selected[..if rounds == 0 then 1 else rounds], selected[i], selected[j])
    ensures forall m :: rounds <= m < |selected| && 1 <= m ==>
              (forall x :: x in selected[..m] ==> x in cfg.servers) && Total(Capacities(cfg), selected[..m]) < needed
  {
    hide Greedy, Power, CoversAll, Total, NearestDistance;
    var covers := Covers(cfg, points, bound);
    var all := Points(|points|);
    var capacity := Capacities(cfg);
    selected, rounds := InitialPlacement(covers, servers, all, capacity, needed,
                                         (x, chosen) => NearestDistance(cfg, x, chosen));
    ghost var cover := selected[..rounds];
    GreedyKnown(covers, servers, all, cover);
    forall i, x | 0 <= i < |points| && Reaches(cfg, x, points[i], bound)
      ensures exists s :: s in cover && Reaches(cfg, s, points[i], bound)
    {
      CoversAreReached(cfg, points, bound, i);
      CoveredBySome(covers, servers, all, cover, i, x);
      var s :| s in cover && s in covers && i in covers[s];
    }
    forall i, j | rounds <= i < j < |selected| && 1 <= i
      ensures NoFarther(cfg, selected[..if rounds == 0 then 1 else rounds], selected[i], selected[j])
    {
      var first := selected[..if rounds == 0 then 1 else rounds];
      assert forall a :: 0 <= a < |first| ==> first[a] in selected;
      NearestFirst(cfg, first, selected[i], selected[j]);
    }
    forall team: set<int>, t | 0 <= t <= rounds && ReachesAll(cfg, points, bound, team)
      ensures (forall x :: x in selected[..t] ==> x in cfg.servers) &&
              Power(|team|, t) * |Uncovered(covers, all, selected[..t])| <= Power(|team| - 1, t) * |all|
    {
      assert cover[..t] == selected[..t];
      TeamSize(team);
      GreedyBound(covers, servers, all, cover, team, t);
    }
  }

  lemma TeamSize(team: set<int>)
    requires team != {}
    ensures |team| > 0
  {
  }

  lemma CoveredBySome(covers: map<int, set<int>>, servers: seq<int>, all: set<int>, cover: seq<int>, i: int, x: int)
    requires forall y :: y in servers ==> y in covers
    requires forall y :: y in cover ==> y in servers
    requires CoversCoverable(covers, servers, all, cover) && i in all && x in servers && i in covers[x]
    ensures exists s :: s in cover && s in covers && i in covers[s]
  {
    assert i !in Uncovered(covers, all, cover);
  }
}
