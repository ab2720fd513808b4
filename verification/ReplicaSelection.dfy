/** The shared replica selection of algorithms/base.py. */
module ReplicaSelection {
  import opened Collections
  import opened Settings
  import opened Sorting

  /** What selection sees of a candidate: its distance from the request, its
      queue occupancy at the last reading, and its queue length. */
  datatype Candidate = Candidate(distance: real, occupancy: nat, queueLen: nat)

  /** `admit_fn`: each attempt may reserve a slot. Whether it succeeds is decided
      elsewhere, also by other dispatchers in the meantime. */
  class Admission {
    const answers: int -> bool
    var tried: seq<int>
    var reserved: seq<int>

    constructor (outcomes: int -> bool)
      ensures answers == outcomes && tried == [] && reserved == []
    {
      answers, tried, reserved := outcomes, [], [];
    }

    method Admit(r: int) returns (ok: bool)
      modifies this
      ensures ok == answers(r) && tried == old(tried) + [r]
      ensures reserved == old(reserved) + if ok then [r] else []
    {
      ok := answers(r);
      tried := tried + [r];
      if ok {
        reserved := reserved + [r];
      }
    }
  }

  predicate HasRoom(c: Candidate) {
    c.occupancy < c.queueLen
  }

  /** The queue occupancy as a share of the queue length. */
  function Ratio(c: Candidate): real {
    c.occupancy as real / (if c.queueLen < 1 then 1 else c.queueLen) as real
  }

  /** The least distance. */
  function Nearest(candidates: seq<Candidate>): (d: real)
    requires candidates != []
    ensures forall i :: 0 <= i < |candidates| ==> d <= candidates[i].distance
    ensures exists i :: 0 <= i < |candidates| && d == candidates[i].distance
  {
    var n := |candidates| - 1;
    if n == 0 then candidates[0].distance
    else Least(Nearest(candidates[..n]), candidates[n].distance)
  }

  /** Within five kilometres of the nearest, with room at the last reading. */
  predicate InNearPool(candidates: seq<Candidate>, i: int)
    requires candidates != [] && 0 <= i < |candidates|
  {
    candidates[i].distance <= Nearest(candidates) + 5.0 && HasRoom(candidates[i])
  }

  /** With room, and no candidate is more than five kilometres nearer. */
  predicate IsNear(candidates: seq<Candidate>, i: int) {
    && 0 <= i < |candidates| && candidates[i].occupancy < candidates[i].queueLen
    && forall j :: 0 <= j < |candidates| ==> candidates[i].distance <= candidates[j].distance + 5.0
  }

  /** The queue of c is full to no larger a part than that of d; both have places. */
  predicate NoFuller(c: Candidate, d: Candidate) {
    c.occupancy * d.queueLen <= d.occupancy * c.queueLen
  }

  lemma NearPoolIsNear(candidates: seq<Candidate>, i: int)
    requires candidates != [] && 0 <= i < |candidates|
    ensures InNearPool(candidates, i) <==> IsNear(candidates, i)
  {
  }

  lemma RatioComparesParts(c: Candidate, d: Candidate)
    requires c.queueLen >= 1 && d.queueLen >= 1
    ensures Ratio(c) <= Ratio(d) <==> NoFuller(c, d)
  {
    var q, r := c.queueLen as real, d.queueLen as real;
    PositiveProduct(q, r);
    OrderScales(Ratio(c), Ratio(d), q * r);
    assert Ratio(c) * (q * r) == (c.occupancy * d.queueLen) as real by {
      assert Ratio(c) * q == c.occupancy as real;
      assert Ratio(c) * (q * r) == Ratio(c) * q * r;
    }
    assert Ratio(d) * (q * r) == (d.occupancy * c.queueLen) as real by {
      assert Ratio(d) * r == d.occupancy as real;
      assert Ratio(d) * (q * r) == Ratio(d) * r * q;
    }
  }

  /** The ranking: the near pool by occupancy ratio, then the others by distance. */
  ghost predicate Ranked(candidates: seq<Candidate>, ordered: seq<int>, near: nat)
    requires candidates != []
  {
    && near <= |ordered| == |candidates| && Distinct(ordered)
    && (forall i :: i in ordered <==> 0 <= i < |candidates|)
    && (forall k :: 0 <= k < |ordered| ==>
          0 <= ordered[k] < |candidates| && (IsNear(candidates, ordered[k]) <==> k < near))
    && (forall j, k :: 0 <= j < k < near ==> NoFuller(candidates[ordered[j]], candidates[ordered[k]]))
    && (forall j, k :: near <= j < k < |ordered| ==>
          candidates[ordered[j]].distance <= candidates[ordered[k]].distance)
  }

  /** The index keys for sorting. */
  function RatioAt(candidates: seq<Candidate>, i: int): real {
    if 0 <= i < |candidates| then Ratio(candidates[i]) else 0.0
  }

  function DistanceAt(candidates: seq<Candidate>, i: int): real {
    if 0 <= i < |candidates| then candidates[i].distance else 0.0
  }

  /** Splits the candidates into the near pool and the others. */
  method Split(candidates: seq<Candidate>) returns (near: seq<int>, far: seq<int>)
    requires candidates != []
    ensures Distinct(near) && Distinct(far)
    ensures forall i :: i in near <==> 0 <= i < |candidates| && InNearPool(candidates, i)
    ensures forall i :: i in far <==> 0 <= i < |candidates| && !InNearPool(candidates, i)
    ensures |near| + |far| == |candidates|
  {
    near, far := [], [];
    var i := 0;
    while i < |candidates|
      invariant 0 <= i <= |candidates| && |near| + |far| == i
      invariant Distinct(near) && Distinct(far)
      invariant forall j :: j in near <==> 0 <= j < i && InNearPool(candidates, j)
      invariant forall j :: j in far <==> 0 <= j < i && !InNearPool(candidates, j)
    {
      if InNearPool(candidates, i) {
        near := near + [i];
      } else {
        far := far + [i];
      }
      i := i + 1;
    }
  }

  method Rank(candidates: seq<Candidate>) returns (ordered: seq<int>, near: nat)
    requires candidates != []
    ensures Ranked(candidates, ordered, near)
  {
    var pool, others := Split(candidates);
    var first := SortBy(pool, i => RatioAt(candidates, i));
    var second := SortBy(others, i => DistanceAt(candidates, i));
    SameMembers(first, pool);
    SameMembers(second, others);
    DistinctCounts(pool);
    DistinctCounts(first);
    DistinctCounts(others);
    DistinctCounts(second);
    SameLength(first, pool);
    SameLength(second, others);
    DistinctJoin(first, second);
    ordered, near := first + second, |first|;
    JoinRanks(candidates, first, second);
  }

  lemma SameLength(a: seq<int>, b: seq<int>)
    requires multiset(a) == multiset(b)
    ensures |a| == |b|
  {
    assert |multiset(a)| == |a| && |multiset(b)| == |b|;
  }

  lemma NearHasPlaces(candidates: seq<Candidate>, i: int)
    requires IsNear(candidates, i)
    ensures candidates[i].queueLen >= 1
  {
  }

  lemma JoinRanks(candidates: seq<Candidate>, first: seq<int>, second: seq<int>)
    requires candidates != [] && |first| + |second| == |candidates| && Distinct(first + second)
    requires forall i :: i in first <==> 0 <= i < |candidates| && InNearPool(candidates, i)
    requires forall i :: i in second <==> 0 <= i < |candidates| && !InNearPool(candidates, i)
    requires Ordered(first, i => RatioAt(candidates, i)) && Ordered(second, i => DistanceAt(candidates, i))
    ensures Ranked(candidates, first + second, |first|)
  {
    hide InNearPool, Ratio, IsNear, NoFuller;
    var ordered := first + second;
    forall k | 0 <= k < |ordered|
      ensures 0 <= ordered[k] < |candidates| && (IsNear(candidates, ordered[k]) <==> k < |first|)
    {
      var i := ordered[k];
      assert if k < |first| then i in first else i in second;
      NearPoolIsNear(candidates, i);
    }
    forall j, k | 0 <= j < k < |first| ensures NoFuller(candidates[ordered[j]], candidates[ordered[k]]) {
      assert RatioAt(candidates, first[j]) <= RatioAt(candidates, first[k]);
      NearHasPlaces(candidates, first[j]);
      NearHasPlaces(candidates, first[k]);
      RatioComparesParts(candidates[first[j]], candidates[first[k]]);
    }
    forall j, k | |first| <= j < k < |ordered|
      ensures candidates[ordered[j]].distance <= candidates[ordered[k]].distance
    {
      assert DistanceAt(candidates, second[j - |first|]) <= DistanceAt(candidates, second[k - |first|]);
    }
  }

  // ------------------------------------------------------------------
  // Trying a ranking
  // ------------------------------------------------------------------

  /** The k-th candidate of the ranking is the first whose attempt succeeds. */
  ghost predicate FirstAnswer(ordered: seq<int>, answers: int -> bool, k: int) {
    0 <= k < |ordered| && answers(ordered[k]) && forall j :: 0 <= j < k ==> !answers(ordered[j])
  }

  /** What trying a ranking in order comes to: the first that succeeds, if any does. */
  ghost predicate TriedInOrder(ordered: seq<int>, answers: int -> bool, chosen: Option<int>) {
    match chosen
    case None => forall k :: 0 <= k < |ordered| ==> !answers(ordered[k])
    case Some(i) => exists k :: FirstAnswer(ordered, answers, k) && ordered[k] == i
  }

  /** The final loop of every `select_replica`: each candidate is tried at most
      once, and only the one returned is left with a new reservation. */
  method TryInOrder(ranking: seq<int>, admission: Admission) returns (chosen: Option<int>)
    modifies admission
    ensures TriedInOrder(ranking, admission.answers, chosen)
    ensures chosen.None? ==>
              admission.tried == old(admission.tried) + ranking && admission.reserved == old(admission.reserved)
    ensures chosen.Some? ==>
              && (exists k :: FirstAnswer(ranking, admission.answers, k) && ranking[k] == chosen.value
                              && admission.tried == old(admission.tried) + ranking[..k + 1])
              && admission.reserved == old(admission.reserved) + [chosen.value]
  {
    var k := 0;
    while k < |ranking|
      invariant 0 <= k <= |ranking| && admission.reserved == old(admission.reserved)
      invariant admission.tried == old(admission.tried) + ranking[..k]
      invariant forall j :: 0 <= j < k ==> !admission.answers(ranking[j])
    {
      assert ranking[..k + 1] == ranking[..k] + [ranking[k]];
      var ok := admission.Admit(ranking[k]);
      if ok {
        assert FirstAnswer(ranking, admission.answers, k);
        return Some(ranking[k]);
      }
      k := k + 1;
    }
    assert ranking[..|ranking|] == ranking;
    chosen := None;
  }

  /** `select_replica`: ranks all candidates and tries the ranking in order. */
  method SelectReplica(candidates: seq<Candidate>, admission: Admission)
    returns (chosen: Option<int>, ghost ordered: seq<int>, ghost near: nat)
    modifies admission
    ensures candidates == [] ==> ordered == []
    ensures candidates != [] ==> Ranked(candidates, ordered, near)
    ensures TriedInOrder(ordered, admission.answers, chosen)
    ensures chosen.None? ==>
              admission.tried == old(admission.tried) + ordered && admission.reserved == old(admission.reserved)
    ensures chosen.Some? ==>
              && (exists k :: FirstAnswer(ordered, admission.answers, k) && ordered[k] == chosen.value
                              && admission.tried == old(admission.tried) + ordered[..k + 1])
              && admission.reserved == old(admission.reserved) + [chosen.value]
  {
    if candidates == [] {
      return None, [], 0;
    }
    var ranking, pool := Rank(candidates);
    ordered, near := ranking, pool;
    chosen := TryInOrder(ranking, admission);
  }

  // ------------------------------------------------------------------
  // The default test: room at the reading
  // ------------------------------------------------------------------

  predicate SomeRoom(candidates: seq<Candidate>) {
    exists i :: 0 <= i < |candidates| && HasRoom(candidates[i])
  }

  /** Attempts that succeed exactly when there is room at the reading. */
  ghost predicate AnswersByRoom(candidates: seq<Candidate>, answers: int -> bool) {
    forall i :: 0 <= i < |candidates| ==> answers(i) == HasRoom(candidates[i])
  }

  /** A ranking of candidates that leaves out only full ones, in any order. */
  ghost predicate Covers(candidates: seq<Candidate>, ordered: seq<int>) {
    && (forall i :: i in ordered ==> 0 <= i < |candidates|)
    && forall i :: 0 <= i < |candidates| && HasRoom(candidates[i]) ==> i in ordered
  }

  lemma RankingCovers(candidates: seq<Candidate>, ordered: seq<int>, near: nat)
    requires candidates != [] && Ranked(candidates, ordered, near)
    ensures Covers(candidates, ordered)
  {
  }

  /** Whatever the ranking, a candidate with room is found exactly when there is one. */
  lemma RoomDecides(candidates: seq<Candidate>, ordered: seq<int>, answers: int -> bool, chosen: Option<int>)
    requires Covers(candidates, ordered) && AnswersByRoom(candidates, answers) && TriedInOrder(ordered, answers, chosen)
    ensures chosen.Some? <==> SomeRoom(candidates)
    ensures chosen.Some? ==> 0 <= chosen.value < |candidates| && HasRoom(candidates[chosen.value])
  {
    match chosen
    case None =>
      forall i | i in ordered ensures !HasRoom(candidates[i]) {
        var k :| 0 <= k < |ordered| && ordered[k] == i;
        assert !answers(ordered[k]);
      }
    case Some(i) =>
      var k :| FirstAnswer(ordered, answers, k) && ordered[k] == i;
      assert ordered[k] in ordered;
  }

  /** The least occupancy ratio among those with room within five kilometres of
      the nearest, if there is one, and otherwise the nearest with room. */
  ghost predicate IsDefaultChoice(candidates: seq<Candidate>, i: int) {
    && 0 <= i < |candidates| && HasRoom(candidates[i])
    && if exists j :: IsNear(candidates, j) then
         IsNear(candidates, i) && forall j :: IsNear(candidates, j) ==> NoFuller(candidates[i], candidates[j])
       else
         forall j :: 0 <= j < |candidates| && HasRoom(candidates[j]) ==>
                       candidates[i].distance <= candidates[j].distance
  }

  /** With the default test the choice is that one; there is none exactly when all are full. */
  lemma DefaultChoice(candidates: seq<Candidate>, ordered: seq<int>, near: nat, answers: int -> bool,
                      chosen: Option<int>)
    requires candidates != [] && Ranked(candidates, ordered, near)
    requires AnswersByRoom(candidates, answers) && TriedInOrder(ordered, answers, chosen)
    ensures chosen.Some? <==> SomeRoom(candidates)
    ensures chosen.Some? ==> IsDefaultChoice(candidates, chosen.value)
  {
    hide NoFuller, IsNear;
    RankingCovers(candidates, ordered, near);
    RoomDecides(candidates, ordered, answers, chosen);
    if chosen.Some? {
      var k :| FirstAnswer(ordered, answers, k) && ordered[k] == chosen.value;
      forall j | 0 <= j < k ensures 0 <= ordered[j] < |candidates| && !HasRoom(candidates[ordered[j]]) {
        assert !answers(ordered[j]) && ordered[j] in ordered;
      }
      FirstIsBest(candidates, ordered, near, k);
    }
  }

  /** The first candidate in the ranking that has room is the best. */
  lemma FirstIsBest(candidates: seq<Candidate>, ordered: seq<int>, near: nat, k: nat)
    requires candidates != [] && Ranked(candidates, ordered, near) && k < |ordered| && HasRoom(candidates[ordered[k]])
    requires forall j :: 0 <= j < k ==> 0 <= ordered[j] < |candidates| && !HasRoom(candidates[ordered[j]])
    ensures IsDefaultChoice(candidates, ordered[k])
  {
    if j :| IsNear(candidates, j) {
      assert j in ordered;
      var m :| 0 <= m < |ordered| && ordered[m] == j;
      assert m < near && k <= 0 by {
        var first := ordered[0];
        assert IsNear(candidates, first);
      }
      forall x | IsNear(candidates, x) ensures NoFuller(candidates[ordered[k]], candidates[x]) {
        assert x in ordered;
        var y :| 0 <= y < |ordered| && ordered[y] == x;
      }
    } else {
      assert near == 0 by {
        var first := ordered[0];
        assert !IsNear(candidates, first);
      }
      forall x | 0 <= x < |candidates| && HasRoom(candidates[x])
        ensures candidates[ordered[k]].distance <= candidates[x].distance
      {
        assert x in ordered;
        var y :| 0 <= y < |ordered| && ordered[y] == x;
        assert y >= k;
      }
    }
  }

  /** `select_replica` with the default test, on one reading of the queues. */
  method SelectByDefault(candidates: seq<Candidate>) returns (chosen: Option<int>, ghost ordered: seq<int>)
    ensures Covers(candidates, ordered) && TriedInOrder(ordered, i => RoomAt(candidates, i), chosen)
    ensures chosen.Some? <==> SomeRoom(candidates)
    ensures chosen.Some? ==> IsDefaultChoice(candidates, chosen.value)
  {
    var admission := new Admission(i => RoomAt(candidates, i));
    ghost var near;
    chosen, ordered, near := SelectReplica(candidates, admission);
    if candidates != [] {
      RankingCovers(candidates, ordered, near);
      DefaultChoice(candidates, ordered, near, admission.answers, chosen);
    }
  }

  predicate RoomAt(candidates: seq<Candidate>, i: int) {
    0 <= i < |candidates| && HasRoom(candidates[i])
  }

  // ------------------------------------------------------------------
  // Latency-aware selection
  // ------------------------------------------------------------------

  /** The candidates with room at the reading, in order of an estimated latency. */
  method RankByLatency(candidates: seq<Candidate>, latency: int -> real) returns (ordered: seq<int>)
    ensures Ordered(ordered, latency)
    ensures forall i :: i in ordered <==> RoomAt(candidates, i)
  {
    var open := [];
    var i := 0;
    while i < |candidates|
      invariant 0 <= i <= |candidates|
      invariant forall j :: j in open <==> j < i && RoomAt(candidates, j)
    {
      if HasRoom(candidates[i]) {
        open := open + [i];
      }
      i := i + 1;
    }
    ordered := SortBy(open, latency);
    SameMembers(ordered, open);
  }

  /** `select_replica` of PPO: the least estimated latency among those with room. */
  method SelectByLatency(candidates: seq<Candidate>, latency: int -> real)
    returns (chosen: Option<int>, ghost ordered: seq<int>)
    ensures Covers(candidates, ordered) && TriedInOrder(ordered, i => RoomAt(candidates, i), chosen)
    ensures chosen.Some? <==> SomeRoom(candidates)
    ensures chosen.Some? ==>
              RoomAt(candidates, chosen.value)
              && forall i :: RoomAt(candidates, i) ==> latency(chosen.value) <= latency(i)
  {
    var ranking := RankByLatency(candidates, latency);
    ordered := ranking;
    var admission := new Admission(i => RoomAt(candidates, i));
    chosen := TryInOrder(ranking, admission);
    RoomDecides(candidates, ordered, admission.answers, chosen);
    if chosen.Some? {
      FirstIsFastest(candidates, ordered, latency, admission.answers, chosen);
    }
  }

  lemma FirstIsFastest(candidates: seq<Candidate>, ordered: seq<int>, latency: int -> real, answers: int -> bool,
                       chosen: Option<int>)
    requires Ordered(ordered, latency) && TriedInOrder(ordered, answers, chosen) && chosen.Some?
    requires forall i :: i in ordered <==> RoomAt(candidates, i)
    requires forall i :: answers(i) == RoomAt(candidates, i)
    ensures forall i :: RoomAt(candidates, i) ==> latency(chosen.value) <= latency(i)
  {
    var k :| FirstAnswer(ordered, answers, k) && ordered[k] == chosen.value;
    forall i | RoomAt(candidates, i) ensures latency(chosen.value) <= latency(i) {
      assert i in ordered;
      var m :| 0 <= m < |ordered| && ordered[m] == i;
      assert m < k ==> !answers(ordered[m]);
    }
  }
}
