/** Request accounting of the realtime dispatcher (k8s_adapter/realtime_dispatcher.py):
    routed requests are reconciled with completion reports, and those without one
    are declared lost. Exactly when is every request counted once? */
module RealtimeAccounting {
  import opened Collections

  /** One call of `metrics.record_request`. */
  datatype Record =
    | Rejected(request: int)
    | Completed(request: int, success: bool)
    | Lost(request: int)

  /** `_request_geo` (with the time of routing), `_reaped_request_ids`, and what
      the metrics were told. */
  datatype Books = Books(geo: map<int, real>, reaped: map<int, real>, log: seq<Record>)

  /** The operations, with the order in which a dictionary lists its stale keys. */
  datatype Operation =
    | Route(request: int, at: real)
    | Reject(request: int)
    | Report(request: int, success: bool)
    | Reap(now: real, stale: seq<int>)
    | Prune(now: real)

  const NOTHING := Books(map[], map[], [])

  /** `record_external_completion`. */
  function Reported(b: Books, request: int, success: bool): Books {
    if request in b.reaped then b.(geo := b.geo - {request})
    else b.(geo := b.geo - {request}, log := b.log + [Completed(request, success)])
  }

  /** The loop of `_reap_lost_requests`. */
  function ReapAll(b: Books, now: real, stale: seq<int>): Books {
    if stale == [] then b
    else
      var r := ReapAll(b, now, stale[..|stale| - 1]);
      var id := stale[|stale| - 1];
      r.(geo := r.geo - {id}, reaped := r.reaped[id := now], log := r.log + [Lost(id)])
  }

  /** `_prune_reaped_ids`. */
  function Pruned(b: Books, now: real, horizon: real): Books {
    b.(reaped := map id | id in b.reaped && now - b.reaped[id] <= horizon :: b.reaped[id])
  }

  function Apply(b: Books, op: Operation, maxAge: real): Books {
    match op
    case Route(id, at) => b.(geo := b.geo[id := at])
    case Reject(id) => b.(log := b.log + [Rejected(id)])
    case Report(id, success) => Reported(b, id, success)
    case Reap(now, stale) => ReapAll(b, now, stale)
    case Prune(now) => Pruned(b, now, 2.0 * maxAge)
  }

  /** The ids that have waited longer than the maximal age, each once. */
  ghost predicate ListsStale(geo: map<int, real>, now: real, maxAge: real, stale: seq<int>) {
    && (forall i, j :: 0 <= i < j < |stale| ==> stale[i] != stale[j])
    && forall id :: id in stale <==> id in geo && now - geo[id] > maxAge
  }

  // ------------------------------------------------------------------
  // What happened so far
  // ------------------------------------------------------------------

  /** The ids routed, reported and rejected, and those whose report came when the
      request was neither awaited nor remembered as reaped any more. */
  datatype Past = Past(routed: set<int>, reported: set<int>, rejected: set<int>, doubled: set<int>)

  function Remember(p: Past, b: Books, op: Operation): Past {
    match op
    case Route(id, _) => p.(routed := p.routed + {id})
    case Reject(id) => p.(rejected := p.rejected + {id})
    case Report(id, _) =>
      p.(reported := p.reported + {id},
         doubled := if id !in b.geo && id !in b.reaped then p.doubled + {id} else p.doubled)
    case _ => p
  }

  /** Ids are unique, only a routed request is reported, and at most once. */
  ghost predicate Sensible(p: Past, b: Books, op: Operation, maxAge: real) {
    match op
    case Route(id, _) => id !in p.routed && id !in p.rejected
    case Reject(id) => id !in p.routed && id !in p.rejected
    case Report(id, _) => id in p.routed && id !in p.reported
    case Reap(now, stale) => ListsStale(b.geo, now, maxAge, stale)
    case Prune(_) => true
  }

  // ------------------------------------------------------------------
  // The invariant
  // ------------------------------------------------------------------

  function CompletedIn(log: seq<Record>): multiset<int> {
    if log == [] then multiset{}
    else
      var rest := CompletedIn(log[..|log| - 1]);
      match log[|log| - 1]
      case Completed(id, _) => rest + multiset{id}
      case _ => rest
  }

  function LostIn(log: seq<Record>): multiset<int> {
    if log == [] then multiset{}
    else
      var rest := LostIn(log[..|log| - 1]);
      match log[|log| - 1]
      case Lost(id) => rest + multiset{id}
      case _ => rest
  }

  predicate RequestOk(p: Past, b: Books, id: int) {
    var completed, lost := CompletedIn(b.log)[id], LostIn(b.log)[id];
    && completed <= 1 && lost <= 1
    && (id in b.geo ==> id in p.routed && id !in p.reported && id !in b.reaped && completed == 0 && lost == 0)
    && (id in b.reaped ==> lost == 1 && completed == 0)
    && (completed == 1 ==> id in p.reported)
    && (id in p.routed <==> id in b.geo || completed + lost > 0)
    && (id in p.doubled <==> completed == 1 && lost == 1)
    && (id in p.reported ==> id in p.routed)
  }

  ghost predicate Inv(p: Past, b: Books) {
    && (forall id :: RequestOk(p, b, id))
    && |p.routed| + |p.doubled| == |CompletedIn(b.log)| + |LostIn(b.log)| + |b.geo|
  }

  lemma Appended(log: seq<Record>, r: Record)
    ensures CompletedIn(log + [r]) == if r.Completed? then CompletedIn(log) + multiset{r.request} else CompletedIn(log)
    ensures LostIn(log + [r]) == if r.Lost? then LostIn(log) + multiset{r.request} else LostIn(log)
  {
    assert (log + [r])[..|log|] == log;
  }

  lemma KeysCount(m: map<int, real>, id: int, v: real)
    ensures id !in m ==> |m[id := v]| == |m| + 1
    ensures id in m ==> |m - {id}| == |m| - 1
    ensures id !in m ==> m - {id} == m
  {
    assert id in m ==> (m - {id}).Keys == m.Keys - {id} && |m.Keys| == |m| && |(m - {id}).Keys| == |m - {id}|;
    assert id !in m ==> m[id := v].Keys == m.Keys + {id} && |m.Keys| == |m| && |m[id := v].Keys| == |m[id := v]|;
  }

  lemma RouteKeeps(p: Past, b: Books, id: int, at: real)
    requires Inv(p, b) && id !in p.routed
    ensures Inv(p.(routed := p.routed + {id}), b.(geo := b.geo[id := at]))
  {
    assert RequestOk(p, b, id);
    KeysCount(b.geo, id, at);
    var q, t := p.(routed := p.routed + {id}), b.(geo := b.geo[id := at]);
    forall x ensures RequestOk(q, t, x) {
      assert RequestOk(p, b, x);
    }
  }

  lemma RejectKeeps(p: Past, b: Books, id: int)
    requires Inv(p, b)
    ensures Inv(p.(rejected := p.rejected + {id}), b.(log := b.log + [Rejected(id)]))
  {
    Appended(b.log, Rejected(id));
    var q, t := p.(rejected := p.rejected + {id}), b.(log := b.log + [Rejected(id)]);
    forall x ensures RequestOk(q, t, x) {
      assert RequestOk(p, b, x);
    }
  }

  lemma ReportKeeps(p: Past, b: Books, id: int, success: bool)
    requires Inv(p, b) && id in p.routed && id !in p.reported
    ensures Inv(Remember(p, b, Report(id, success)), Reported(b, id, success))
  {
    assert RequestOk(p, b, id);
    Appended(b.log, Completed(id, success));
    KeysCount(b.geo, id, 0.0);
    forall x ensures RequestOk(Remember(p, b, Report(id, success)), Reported(b, id, success), x) {
      assert RequestOk(p, b, x);
    }
  }

  lemma {:induction false} ReapKeeps(p: Past, b: Books, now: real, stale: seq<int>)
    requires Inv(p, b)
    requires forall i, j :: 0 <= i < j < |stale| ==> stale[i] != stale[j]
    requires forall i :: 0 <= i < |stale| ==> stale[i] in b.geo
    ensures Inv(p, ReapAll(b, now, stale))
    ensures forall id :: id in ReapAll(b, now, stale).geo <==> id in b.geo && id !in stale
  {
    if stale != [] {
      var n := |stale| - 1;
      var id := stale[n];
      ReapKeeps(p, b, now, stale[..n]);
      var r := ReapAll(b, now, stale[..n]);
      assert stale == stale[..n] + [id] && id !in stale[..n];
      ReapOneKeeps(p, r, now, id);
    }
  }

  lemma ReapOneKeeps(p: Past, r: Books, now: real, id: int)
    requires Inv(p, r) && id in r.geo
    ensures Inv(p, r.(geo := r.geo - {id}, reaped := r.reaped[id := now], log := r.log + [Lost(id)]))
  {
    var t := r.(geo := r.geo - {id}, reaped := r.reaped[id := now], log := r.log + [Lost(id)]);
    assert RequestOk(p, r, id);
    Appended(r.log, Lost(id));
    KeysCount(r.geo, id, 0.0);
    forall x ensures RequestOk(p, t, x) {
      assert RequestOk(p, r, x);
    }
  }

  lemma PruneKeeps(p: Past, b: Books, now: real, horizon: real)
    requires Inv(p, b)
    ensures Inv(p, Pruned(b, now, horizon))
  {
    forall x ensures RequestOk(p, Pruned(b, now, horizon), x) {
      assert RequestOk(p, b, x);
    }
  }

  lemma StaleAreAwaited(geo: map<int, real>, now: real, maxAge: real, stale: seq<int>)
    requires ListsStale(geo, now, maxAge, stale)
    ensures forall i :: 0 <= i < |stale| ==> stale[i] in geo
  {
    forall i | 0 <= i < |stale| ensures stale[i] in geo {
      assert stale[i] in stale;
    }
  }

  /** Every operation keeps the accounts, in any order. */
  lemma OperationKeeps(p: Past, b: Books, op: Operation, maxAge: real)
    requires Inv(p, b) && Sensible(p, b, op, maxAge)
    ensures Inv(Remember(p, b, op), Apply(b, op, maxAge))
  {
    hide Inv, Reported, ReapAll, Pruned;
    match op
    case Route(id, at) => RouteKeeps(p, b, id, at);
    case Reject(id) => RejectKeeps(p, b, id);
    case Report(id, success) => ReportKeeps(p, b, id, success);
    case Reap(now, stale) =>
      StaleAreAwaited(b.geo, now, maxAge, stale);
      ReapKeeps(p, b, now, stale);
    case Prune(now) => PruneKeeps(p, b, now, 2.0 * maxAge);
  }

  // ------------------------------------------------------------------
  // Whole histories
  // ------------------------------------------------------------------

  /** The books after each operation of a history, and what had happened by then. */
  ghost predicate IsHistory(ops: seq<Operation>, books: seq<Books>, pasts: seq<Past>, maxAge: real) {
    && |books| == |ops| + 1 && |pasts| == |ops| + 1
    && books[0] == NOTHING && pasts[0] == Past({}, {}, {}, {})
    && forall i :: 0 <= i < |ops| ==>
         && Sensible(pasts[i], books[i], ops[i], maxAge)
         && books[i + 1] == Apply(books[i], ops[i], maxAge) && pasts[i + 1] == Remember(pasts[i], books[i], ops[i])
  }

  lemma {:induction false} HistoryKeeps(ops: seq<Operation>, books: seq<Books>, pasts: seq<Past>, maxAge: real, i: nat)
    requires IsHistory(ops, books, pasts, maxAge) && i < |books|
    ensures Inv(pasts[i], books[i])
  {
    if i > 0 {
      HistoryKeeps(ops, books, pasts, maxAge, i - 1);
      OperationKeeps(pasts[i - 1], books[i - 1], ops[i - 1], maxAge);
    }
  }

  /** No request is recorded twice. */
  ghost predicate CountedOnce(b: Books) {
    forall id :: CompletedIn(b.log)[id] + LostIn(b.log)[id] <= 1
  }

  /** Exactly when is every request counted once: routed requests are the recorded
      completions plus the recorded losses plus those still awaited, and none is
      recorded twice, if and only if no report came after its request had been
      reaped and then forgotten. */
  lemma ExactlyOnceIff(ops: seq<Operation>, books: seq<Books>, pasts: seq<Past>, maxAge: real, i: nat)
    requires IsHistory(ops, books, pasts, maxAge) && i < |books|
    ensures |pasts[i].routed| == |CompletedIn(books[i].log)| + |LostIn(books[i].log)| + |books[i].geo|
            <==> pasts[i].doubled == {}
    ensures CountedOnce(books[i]) <==> pasts[i].doubled == {}
  {
    HistoryKeeps(ops, books, pasts, maxAge, i);
    var p, b := pasts[i], books[i];
    if p.doubled != {} {
      var id := Pick(p.doubled);
      assert RequestOk(p, b, id);
    } else {
      forall id ensures CompletedIn(b.log)[id] + LostIn(b.log)[id] <= 1 {
        assert RequestOk(p, b, id);
      }
    }
  }

  // ------------------------------------------------------------------
  // Reports within the prune horizon
  // ------------------------------------------------------------------

  /** The clock of an operation that reads it. */
  predicate Reads(op: Operation) {
    op.Reap? || op.Prune?
  }

  /** When each operation happened; time does not run backwards, and reaping and
      pruning use the time of the operation. */
  ghost predicate Clocked(ops: seq<Operation>, times: seq<real>) {
    && |times| == |ops|
    && (forall i, j :: 0 <= i <= j < |times| ==> times[i] <= times[j])
    && forall i :: 0 <= i < |ops| && Reads(ops[i]) ==> ops[i].now == times[i]
  }

  /** Every report comes within the prune horizon of any reap of its request. */
  ghost predicate Prompt(ops: seq<Operation>, times: seq<real>, maxAge: real) {
    forall i, j :: 0 <= i < j < |ops| && j < |times| && ops[i].Reap? && ops[j].Report?
                   && ops[j].request in ops[i].stale ==>
      times[j] - times[i] <= 2.0 * maxAge
  }

  /** A lost request is remembered since some reap, unless the horizon has passed. */
  ghost predicate Remembered(ops: seq<Operation>, times: seq<real>, b: Books, i: nat, maxAge: real, id: int) {
    LostIn(b.log)[id] > 0 ==>
      exists k :: ReapedAt(ops, times, i, k, id) &&
                  (if id in b.reaped then b.reaped[id] == times[k] else LateBy(times, i, k, 2.0 * maxAge))
  }

  ghost predicate ReapedAt(ops: seq<Operation>, times: seq<real>, i: nat, k: int, id: int) {
    0 <= k < i && i <= |ops| == |times| && ops[k].Reap? && id in ops[k].stale
  }

  /** By operation i the horizon since operation k has passed. */
  ghost predicate LateBy(times: seq<real>, i: nat, k: int, horizon: real) {
    exists m :: 0 <= k < m < i <= |times| && times[m] - times[k] > horizon
  }

  lemma {:induction false} LostByReap(b: Books, now: real, stale: seq<int>, id: int)
    ensures LostIn(ReapAll(b, now, stale).log)[id] > 0 ==> LostIn(b.log)[id] > 0 || id in stale
    ensures id in stale ==> id in ReapAll(b, now, stale).reaped && ReapAll(b, now, stale).reaped[id] == now
    ensures id !in stale ==> (id in ReapAll(b, now, stale).reaped <==> id in b.reaped)
    ensures id !in stale && id in b.reaped ==> ReapAll(b, now, stale).reaped[id] == b.reaped[id]
  {
    if stale != [] {
      var n := |stale| - 1;
      LostByReap(b, now, stale[..n], id);
      Appended(ReapAll(b, now, stale[..n]).log, Lost(stale[n]));
      assert stale == stale[..n] + [stale[n]];
    }
  }

  lemma RememberedKept(ops: seq<Operation>, times: seq<real>, b: Books, i: nat, maxAge: real, id: int)
    requires Clocked(ops, times) && i < |ops| && Remembered(ops, times, b, i, maxAge, id)
    ensures Remembered(ops, times, Apply(b, ops[i], maxAge), i + 1, maxAge, id)
  {
    var t := Apply(b, ops[i], maxAge);
    if LostIn(t.log)[id] > 0 {
      if ops[i].Reap? {
        LostByReap(b, ops[i].now, ops[i].stale, id);
      }
      if ops[i].Reject? {
        Appended(b.log, Rejected(ops[i].request));
      }
      if ops[i].Report? {
        Appended(b.log, Completed(ops[i].request, ops[i].success));
      }
      if ops[i].Reap? && id in ops[i].stale {
        assert ReapedAt(ops, times, i + 1, i, id);
      } else {
        var k :| ReapedAt(ops, times, i, k, id) &&
                 (if id in b.reaped then b.reaped[id] == times[k] else LateBy(times, i, k, 2.0 * maxAge));
        assert ReapedAt(ops, times, i + 1, k, id);
        if id in b.reaped && id !in t.reaped {
          assert times[i] - times[k] > 2.0 * maxAge;
          assert LateBy(times, i + 1, k, 2.0 * maxAge);
        } else if id !in b.reaped {
          var m :| 0 <= k < m < i <= |times| && times[m] - times[k] > 2.0 * maxAge;
          assert LateBy(times, i + 1, k, 2.0 * maxAge);
        }
      }
    }
  }

  lemma {:induction false} RememberedAlways(ops: seq<Operation>, times: seq<real>, books: seq<Books>, pasts: seq<Past>,
                                            maxAge: real, i: nat, id: int)
    requires IsHistory(ops, books, pasts, maxAge) && Clocked(ops, times) && i < |books|
    ensures Remembered(ops, times, books[i], i, maxAge, id)
  {
    if i > 0 {
      RememberedAlways(ops, times, books, pasts, maxAge, i - 1, id);
      RememberedKept(ops, times, books[i - 1], i - 1, maxAge, id);
    }
  }

  lemma PromptIsRemembered(ops: seq<Operation>, times: seq<real>, b: Books, i: nat, maxAge: real, id: int)
    requires Clocked(ops, times) && Prompt(ops, times, maxAge) && i < |ops| && Remembered(ops, times, b, i, maxAge, id)
    requires ops[i].Report? && ops[i].request == id && LostIn(b.log)[id] > 0
    ensures id in b.reaped
  {
    var k :| ReapedAt(ops, times, i, k, id) &&
             (if id in b.reaped then b.reaped[id] == times[k] else LateBy(times, i, k, 2.0 * maxAge));
    forall m | k < m < i ensures times[m] - times[k] <= 2.0 * maxAge {
      assert times[m] <= times[i];
    }
    assert !LateBy(times, i, k, 2.0 * maxAge);
  }

  /** When every report comes within the prune horizon of the reap, nothing is
      counted twice, in any order of route, report, reap and prune. */
  lemma {:induction false} PromptReportsAreCountedOnce(ops: seq<Operation>, times: seq<real>, books: seq<Books>,
                                                       pasts: seq<Past>, maxAge: real, i: nat)
    requires IsHistory(ops, books, pasts, maxAge) && Clocked(ops, times) && Prompt(ops, times, maxAge) && i < |books|
    ensures pasts[i].doubled == {}
  {
    hide Prompt, Clocked, Apply, Remembered, Sensible, Inv, Remember;
    if i > 0 {
      PromptReportsAreCountedOnce(ops, times, books, pasts, maxAge, i - 1);
      HistoryKeeps(ops, books, pasts, maxAge, i - 1);
      if ops[i - 1].Report? {
        RememberedAlways(ops, times, books, pasts, maxAge, i - 1, ops[i - 1].request);
      }
      PromptStep(ops, times, pasts[i - 1], books[i - 1], i - 1, maxAge);
    }
  }

  lemma PromptStep(ops: seq<Operation>, times: seq<real>, p: Past, b: Books, i: nat, maxAge: real)
    requires Clocked(ops, times) && Prompt(ops, times, maxAge) && i < |ops| && Sensible(p, b, ops[i], maxAge)
    requires Inv(p, b) && p.doubled == {}
    requires ops[i].Report? ==> Remembered(ops, times, b, i, maxAge, ops[i].request)
    ensures Remember(p, b, ops[i]).doubled == {}
  {
    if ops[i].Report? {
      assert RequestOk(p, b, ops[i].request);
      if LostIn(b.log)[ops[i].request] > 0 {
        PromptIsRemembered(ops, times, b, i, maxAge, ops[i].request);
      }
    }
  }

  // A report that is too late, for any maximal age

  /** Reaped after the maximal age, pruned after the horizon, then reported. */
  function LateOps(maxAge: real): seq<Operation> {
    [Route(1, 0.0), Reap(maxAge + 1.0, [1]), Prune(3.0 * maxAge + 2.0), Report(1, true)]
  }

  function LateBooks(maxAge: real): seq<Books> {
    [NOTHING, Books(map[1 := 0.0], map[], []), Books(map[], map[1 := maxAge + 1.0], [Lost(1)]),
     Books(map[], map[], [Lost(1)]), Books(map[], map[], [Lost(1), Completed(1, true)])]
  }

  function LatePasts(): seq<Past> {
    [Past({}, {}, {}, {}), Past({1}, {}, {}, {}), Past({1}, {}, {}, {}), Past({1}, {}, {}, {}), Past({1}, {1}, {}, {1})]
  }

  lemma LateStep(maxAge: real, i: nat)
    requires i < 4
    ensures Sensible(LatePasts()[i], LateBooks(maxAge)[i], LateOps(maxAge)[i], maxAge)
    ensures LateBooks(maxAge)[i + 1] == Apply(LateBooks(maxAge)[i], LateOps(maxAge)[i], maxAge)
    ensures LatePasts()[i + 1] == Remember(LatePasts()[i], LateBooks(maxAge)[i], LateOps(maxAge)[i])
  {
    var b := LateBooks(maxAge)[i];
    if i == 1 {
      assert b.geo - {1} == map[] && [1][..0] == [];
      assert ReapAll(b, maxAge + 1.0, [1]) == LateBooks(maxAge)[2];
    } else if i == 2 {
      assert Pruned(b, 3.0 * maxAge + 2.0, 2.0 * maxAge).reaped == map[];
    } else if i == 3 {
      assert b.geo - {1} == map[];
    }
  }

  /** A report after its request was reaped and, past the horizon, pruned: the
      request is counted as lost and as completed. */
  lemma LateReportIsCountedTwice(maxAge: real)
    ensures IsHistory(LateOps(maxAge), LateBooks(maxAge), LatePasts(), maxAge) && !CountedOnce(LateBooks(maxAge)[4])
  {
    hide Sensible, Apply, Remember, CountedOnce;
    forall i | 0 <= i < 4
      ensures Sensible(LatePasts()[i], LateBooks(maxAge)[i], LateOps(maxAge)[i], maxAge)
      ensures LateBooks(maxAge)[i + 1] == Apply(LateBooks(maxAge)[i], LateOps(maxAge)[i], maxAge)
      ensures LatePasts()[i + 1] == Remember(LatePasts()[i], LateBooks(maxAge)[i], LateOps(maxAge)[i])
    {
      LateStep(maxAge, i);
    }
    LateCount(maxAge);
  }

  lemma LateCount(maxAge: real)
    ensures !CountedOnce(LateBooks(maxAge)[4])
  {
    var log := LateBooks(maxAge)[4].log;
    Appended([Lost(1)], Completed(1, true));
    Appended([], Lost(1));
    assert [Lost(1)] + [Completed(1, true)] == log && [] + [Lost(1)] == [Lost(1)];
    assert CompletedIn(log)[1] + LostIn(log)[1] == 2;
  }

  // ------------------------------------------------------------------
  // The engine's part of it, carried out in place
  // ------------------------------------------------------------------

  /** What reaping a list of ids comes to. */
  lemma {:induction false} ReapAllMeans(b: Books, now: real, stale: seq<int>)
    ensures var r := ReapAll(b, now, stale);
            && (forall id :: id in r.geo <==> id in b.geo && id !in stale)
            && (forall id :: id in r.geo ==> r.geo[id] == b.geo[id])
            && (forall id :: id in r.reaped <==> id in b.reaped || id in stale)
            && (forall id :: id in r.reaped ==> r.reaped[id] == if id in stale then now else b.reaped[id])
            && r.log == b.log + seq(|stale|, i requires 0 <= i < |stale| => Lost(stale[i]))
  {
    if stale != [] {
      var n := |stale| - 1;
      ReapAllMeans(b, now, stale[..n]);
      assert stale == stale[..n] + [stale[n]];
      assert seq(|stale|, i requires 0 <= i < |stale| => Lost(stale[i]))
          == seq(n, i requires 0 <= i < n => Lost(stale[..n][i])) + [Lost(stale[n])];
    }
  }

  /** `_request_geo`, `_reaped_request_ids` and the metrics of RealtimeEngine. */
  class RealtimeEngine {
    var requestGeo: map<int, real>
    var reapedRequestIds: map<int, real>
    var records: seq<Record>
    const maxAge: real

    function View(): Books
      reads this
    {
      Books(requestGeo, reapedRequestIds, records)
    }

    /** The maximal age is the longest deadline plus the sweep interval plus five seconds. */
    constructor (longestDeadline: real, sweepInterval: real)
      ensures View() == NOTHING && maxAge == longestDeadline + sweepInterval + 5.0
    {
      requestGeo, reapedRequestIds, records := map[], map[], [];
      maxAge := longestDeadline + sweepInterval + 5.0;
    }

    /** The accounting of `route_request`: awaited when a replica was chosen,
        recorded as rejected otherwise. */
    method RouteRequest(request: int, chosen: bool, now: real)
      modifies this
      ensures View() == Apply(old(View()), if chosen then Route(request, now) else Reject(request), maxAge)
      ensures requestGeo == (if chosen then old(requestGeo)[request := now] else old(requestGeo))
      ensures records == old(records) + (if chosen then [] else [Rejected(request)])
      ensures reapedRequestIds == old(reapedRequestIds)
    {
      if !chosen {
        records := records + [Rejected(request)];
        return;
      }
      requestGeo := requestGeo[request := now];
    }

    method RecordExternalCompletion(request: int, success: bool)
      modifies this
      ensures View() == Apply(old(View()), Report(request, success), maxAge)
      ensures requestGeo == old(requestGeo) - {request} && reapedRequestIds == old(reapedRequestIds)
      ensures records == old(records)
                         + (if request in old(reapedRequestIds) then [] else [Completed(request, success)])
    {
      if request in reapedRequestIds {
        requestGeo := requestGeo - {request};
        return;
      }
      requestGeo := requestGeo - {request};
      records := records + [Completed(request, success)];
    }

    /** The ids awaited for longer than the maximal age. */
    method StaleIds(now: real) returns (stale: seq<int>)
      ensures ListsStale(requestGeo, now, maxAge, stale)
    {
      stale := [];
      var rest := requestGeo.Keys;
      while rest != {}
        invariant rest <= requestGeo.Keys
        invariant forall i, j :: 0 <= i < j < |stale| ==> stale[i] != stale[j]
        invariant forall id :: id in stale <==> id in requestGeo && id !in rest && now - requestGeo[id] > maxAge
        decreases |rest|
      {
        ghost var some := Pick(rest);
        var id: int :| id in rest;
        if now - requestGeo[id] > maxAge {
          stale := stale + [id];
        }
        rest := rest - {id};
      }
    }

    method ReapLostRequests(now: real) returns (ghost stale: seq<int>)
      modifies this
      ensures ListsStale(old(requestGeo), now, maxAge, stale)
      ensures View() == Apply(old(View()), Reap(now, stale), maxAge)
      ensures forall id :: id in requestGeo <==> id in old(requestGeo) && now - old(requestGeo)[id] <= maxAge
      ensures forall id :: id in requestGeo ==> requestGeo[id] == old(requestGeo)[id]
      ensures forall id :: id in reapedRequestIds <==> id in old(reapedRequestIds) || id in stale
      ensures forall id :: id in reapedRequestIds ==>
                reapedRequestIds[id] == if id in stale then now else old(reapedRequestIds)[id]
      ensures records == old(records) + seq(|stale|, i requires 0 <= i < |stale| => Lost(stale[i]))
    {
      var ids := StaleIds(now);
      stale := ids;
      var i := 0;
      while i < |ids|
        invariant 0 <= i <= |ids| && View() == ReapAll(old(View()), now, ids[..i])
      {
        assert ids[..i + 1][..i] == ids[..i];
        requestGeo := requestGeo - {ids[i]};
        records := records + [Lost(ids[i])];
        reapedRequestIds := reapedRequestIds[ids[i] := now];
        i := i + 1;
      }
      assert ids[..|ids|] == ids;
      ReapAllMeans(old(View()), now, ids);
    }

    method PruneReapedIds(now: real)
      modifies this
      ensures View() == Apply(old(View()), Prune(now), maxAge)
      ensures reapedRequestIds
              == map id | id in old(reapedRequestIds) && now - old(reapedRequestIds)[id] <= 2.0 * maxAge
                   :: old(reapedRequestIds)[id]
      ensures requestGeo == old(requestGeo) && records == old(records)
    {
      var horizon := 2.0 * maxAge;
      var stale := set id | id in reapedRequestIds && now - reapedRequestIds[id] > horizon;
      reapedRequestIds := reapedRequestIds - stale;
      assert reapedRequestIds == Pruned(old(View()), now, horizon).reaped;
    }
  }
}
