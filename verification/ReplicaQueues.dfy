/** The replica queue of common/models.py: a deque of departure times plus
    `available_at`, shown to be a faithful compression of a plain first-in
    first-out single-server queue of bounded length. */
module ReplicaQueues {
  import opened Settings

  /** `queue_len`, `exec_time`, `available_at` and `departures` of a replica. */
  datatype Queue = Queue(capacity: nat, exec: real, availableAt: real, departures: seq<real>)

  datatype Admission = Rejected | Admitted(start: real, finish: real)

  /** What the popping loop of `queue_occupancy` leaves in the deque. */
  function Pending(departures: seq<real>, now: real): seq<real>
  {
    if departures != [] && departures[0] <= now then Pending(departures[1..], now) else departures
  }

  function Occupancy(q: Queue, now: real): nat {
    |Pending(q.departures, now)|
  }

  function Later(x: real, y: real): real {
    if x < y then y else x
  }

  function Admit(q: Queue, now: real, coldStartExtra: real): (Queue, Admission) {
    var pending := Pending(q.departures, now);
    if |pending| >= q.capacity then (q.(departures := pending), Rejected)
    else
      var start := Later(now, q.availableAt);
      var finish := start + (q.exec + coldStartExtra);
      (q.(departures := pending + [finish], availableAt := finish), Admitted(start, finish))
  }

  predicate Ascending(s: seq<real>) {
    forall i, j :: 0 <= i < j < |s| ==> s[i] <= s[j]
  }

  /** Departures are in order and the last one is `available_at`. */
  predicate Consistent(q: Queue) {
    && Ascending(q.departures)
    && forall i :: 0 <= i < |q.departures| ==> q.departures[i] <= q.availableAt
  }

  /** The deque after popping is exactly the departures still in the future. */
  lemma {:induction false} PendingIsTheFuture(departures: seq<real>, now: real)
    requires Ascending(departures)
    ensures |Pending(departures, now)| <= |departures|
    ensures Pending(departures, now) == departures[|departures| - |Pending(departures, now)|..]
    ensures forall i :: 0 <= i < |departures| ==>
                          (departures[i] > now <==> |departures| - |Pending(departures, now)| <= i)
  {
    if departures != [] && departures[0] <= now {
      PendingIsTheFuture(departures[1..], now);
      var p := |Pending(departures[1..], now)|;
      assert departures[1..][|departures[1..]| - p..] == departures[|departures| - p..];
      forall i | 0 <= i < |departures|
        ensures departures[i] > now <==> |departures| - p <= i
      {
        if i > 0 {
          assert departures[i] == departures[1..][i - 1];
        }
      }
    }
  }

  /** Popping early is unobservable: any number of reads in between leaves
      every later reading as it was. */
  lemma {:induction false} PoppingIsUnobservable(departures: seq<real>, early: real, late: real)
    requires early <= late
    ensures Pending(Pending(departures, early), late) == Pending(departures, late)
  {
    if departures != [] && departures[0] <= early {
      PoppingIsUnobservable(departures[1..], early, late);
    }
  }

  /** Reading the occupancy at the time of an admission, as ranking the candidates
      does, changes neither its outcome nor the deque it leaves. */
  lemma {:induction false} ReadingBeforeAdmission(q: Queue, now: real, extra: real)
    ensures Admit(q.(departures := Pending(q.departures, now)), now, extra) == Admit(q, now, extra)
  {
    PoppingIsUnobservable(q.departures, now, now);
  }

  /** Admission keeps the deque consistent, never beyond its capacity, and the
      accepted job starts after everything accepted before it. */
  lemma AdmissionKeepsConsistency(q: Queue, now: real, extra: real)
    requires Consistent(q) && q.exec + extra > 0.0
    ensures Consistent(Admit(q, now, extra).0)
    ensures Occupancy(q, now) <= q.capacity ==> |Admit(q, now, extra).0.departures| <= q.capacity
    ensures Admit(q, now, extra).1.Admitted? <==> Occupancy(q, now) < q.capacity
  {
    PendingIsTheFuture(q.departures, now);
  }

  // ------------------------------------------------------------------
  // The plain queue: jobs wait in line, one at a time is in service.
  // ------------------------------------------------------------------

  /** `services` holds the full service time of every job in the system, the
      one in service first; that one started at `headStart`. */
  datatype Line = Line(capacity: nat, headStart: real, services: seq<real>)

  /** Lets the server work until `now`: each finished job hands over to the next. */
  function Serve(line: Line, now: real): (later: Line)
    ensures |later.services| <= |line.services|
    ensures later.services != [] ==> now < later.headStart + later.services[0]
    decreases |line.services|
  {
    if line.services != [] && line.headStart + line.services[0] <= now then
      Serve(Line(line.capacity, line.headStart + line.services[0], line.services[1..]), now)
    else line
  }

  function Total(services: seq<real>): real {
    if services == [] then 0.0 else services[0] + Total(services[1..])
  }

  function Arrive(line: Line, now: real, service: real): (Line, Admission) {
    var l := Serve(line, now);
    if |l.services| >= l.capacity then (l, Rejected)
    else if l.services == [] then (Line(l.capacity, now, [service]), Admitted(now, now + service))
    else
      var start := l.headStart + Total(l.services);
      (Line(l.capacity, l.headStart, l.services + [service]), Admitted(start, start + service))
  }

  function Finishes(headStart: real, services: seq<real>): seq<real>
    decreases |services|
  {
    if services == [] then []
    else [headStart + services[0]] + Finishes(headStart + services[0], services[1..])
  }

  predicate Positive(services: seq<real>) {
    forall i :: 0 <= i < |services| ==> services[i] > 0.0
  }

  /** The deque stands for the line at time `now`. */
  ghost predicate Represents(q: Queue, line: Line, now: real) {
    && q.capacity == line.capacity
    && Positive(line.services)
    && Serve(line, now) == line
    && Pending(q.departures, now) == Finishes(line.headStart, line.services)
    && (if line.services == [] then q.availableAt <= now
        else line.headStart <= now && q.availableAt == line.headStart + Total(line.services))
  }

  lemma {:induction false} FinishesAppend(h: real, services: seq<real>, service: real)
    ensures Finishes(h, services + [service]) == Finishes(h, services) + [h + Total(services) + service]
    ensures Total(services + [service]) == Total(services) + service
    decreases |services|
  {
    if services == [] {
      assert services + [service] == [service];
      assert Finishes(h, [service]) == [h + service] + Finishes(h + service, []);
    } else {
      FinishesAppend(h + services[0], services[1..], service);
      assert (services + [service])[1..] == services[1..] + [service];
      assert (services + [service])[0] == services[0];
    }
  }

  lemma {:induction false} FinishesLength(h: real, services: seq<real>)
    ensures |Finishes(h, services)| == |services|
    decreases |services|
  {
    if services != [] {
      FinishesLength(h + services[0], services[1..]);
    }
  }

  lemma {:induction false} TotalPositive(services: seq<real>)
    requires Positive(services)
    ensures Total(services) >= 0.0
    ensures services != [] ==> Total(services) >= services[0]
  {
    if services != [] {
      TotalPositive(services[1..]);
    }
  }

  /** Working the line to `now` pops exactly the finished departures. */
  lemma {:induction false} ServingPops(line: Line, now: real)
    requires Positive(line.services)
    ensures var l := Serve(line, now);
            && Positive(l.services) && l.capacity == line.capacity
            && Pending(Finishes(line.headStart, line.services), now) == Finishes(l.headStart, l.services)
            && Serve(l, now) == l
            && l.headStart + Total(l.services) == line.headStart + Total(line.services)
            && (l == line || l.headStart <= now)
            && (l.services == [] ==> line.services == [] || line.headStart + Total(line.services) <= now)
            && (l.services != [] ==> line.services != [])
    decreases |line.services|
  {
    if line.services != [] && line.headStart + line.services[0] <= now {
      var rest := Line(line.capacity, line.headStart + line.services[0], line.services[1..]);
      ServingPops(rest, now);
      assert Finishes(line.headStart, line.services)[1..] == Finishes(rest.headStart, rest.services);
      if rest.services == [] {
        assert line.services == [line.services[0]];
      }
    }
  }

  /** Time passing keeps the correspondence. */
  lemma RepresentsLater(q: Queue, line: Line, now: real, later: real)
    requires Represents(q, line, now) && now <= later
    ensures Represents(q, Serve(line, later), later)
  {
    ServingPops(line, later);
    PoppingIsUnobservable(q.departures, now, later);
    TotalPositive(line.services);
  }

  /** One admission: deque and line take the same decision with the same start
      and finish, and still correspond. */
  lemma AdmissionRefinesTheLine(q: Queue, line: Line, now: real, later: real, extra: real)
    requires Represents(q, line, now) && now <= later && q.exec + extra > 0.0
    ensures Admit(q, later, extra).1 == Arrive(line, later, q.exec + extra).1
    ensures Represents(Admit(q, later, extra).0, Arrive(line, later, q.exec + extra).0, later)
    ensures Occupancy(q, later) == |Serve(line, later).services|
  {
    RepresentsLater(q, line, now, later);
    var l := Serve(line, later);
    var service := q.exec + extra;
    var pending := Pending(q.departures, later);
    FinishesLength(l.headStart, l.services);
    PoppingIsUnobservable(q.departures, later, later);
    if |pending| < q.capacity {
      var (q', outcome) := Admit(q, later, extra);
      TotalPositive(l.services);
      FinishesAppend(l.headStart, l.services, service);
      if l.services == [] {
        assert pending == [];
        assert Finishes(later, [service]) == [later + service] + Finishes(later + service, []);
        assert Total([service]) == service + Total([]);
      } else {
        assert pending[0] > later;
        assert q'.departures[0] == pending[0];
        assert (l.services + [service])[0] == l.services[0];
      }
    }
  }

  datatype Job = Job(at: real, extra: real)

  /** Admissions of a whole stream, in order. */
  function AdmitAll(q: Queue, arrivals: seq<Job>): (Queue, seq<Admission>) {
    if arrivals == [] then (q, [])
    else
      var (q1, outcomes) := AdmitAll(q, arrivals[..|arrivals| - 1]);
      var a := arrivals[|arrivals| - 1];
      var (q2, outcome) := Admit(q1, a.at, a.extra);
      (q2, outcomes + [outcome])
  }

  function ArriveAll(line: Line, exec: real, arrivals: seq<Job>): (Line, seq<Admission>) {
    if arrivals == [] then (line, [])
    else
      var (l1, outcomes) := ArriveAll(line, exec, arrivals[..|arrivals| - 1]);
      var a := arrivals[|arrivals| - 1];
      var (l2, outcome) := Arrive(l1, a.at, exec + a.extra);
      (l2, outcomes + [outcome])
  }

  ghost predicate InOrder(arrivals: seq<Job>, exec: real, from: real) {
    && (forall i :: 0 <= i < |arrivals| ==> from <= arrivals[i].at && exec + arrivals[i].extra > 0.0)
    && forall i, j :: 0 <= i < j < |arrivals| ==> arrivals[i].at <= arrivals[j].at
  }

  /** The whole stream: for any nondecreasing arrivals the deque and the plain
      queue accept the same jobs with the same start and finish times. */
  lemma {:induction false} DequeRefinesFifo(q: Queue, line: Line, arrivals: seq<Job>, from: real)
    requires Represents(q, line, from) && InOrder(arrivals, q.exec, from)
    ensures AdmitAll(q, arrivals).1 == ArriveAll(line, q.exec, arrivals).1
    ensures Represents(AdmitAll(q, arrivals).0, ArriveAll(line, q.exec, arrivals).0,
                       if arrivals == [] then from else arrivals[|arrivals| - 1].at)
    ensures AdmitAll(q, arrivals).0.exec == q.exec
  {
    if arrivals != [] {
      var n := |arrivals| - 1;
      DequeRefinesFifo(q, line, arrivals[..n], from);
      var before := if n == 0 then from else arrivals[n - 1].at;
      assert before == if arrivals[..n] == [] then from else arrivals[..n][n - 1].at;
      AdmissionRefinesTheLine(AdmitAll(q, arrivals[..n]).0, ArriveAll(line, q.exec, arrivals[..n]).0,
                              before, arrivals[n].at, arrivals[n].extra);
    }
  }

  lemma {:induction false} TotalBounds(services: seq<real>, low: real, high: real)
    requires forall i :: 0 <= i < |services| ==> low <= services[i] <= high
    ensures |services| as real * low <= Total(services) <= |services| as real * high
  {
    if services != [] {
      TotalBounds(services[1..], low, high);
      var n := |services[1..]| as real;
      assert |services| as real == n + 1.0;
      assert (n + 1.0) * low == n * low + low;
      assert (n + 1.0) * high == n * high + high;
    }
  }

  /** `wait_time_sec` of an admission (0 for a rejected one). */
  function Wait(q: Queue, now: real, extra: real): real {
    match Admit(q, now, extra).1
    case Admitted(start, _) => start - now
    case Rejected => 0.0
  }

  predicate WithinServices(wait: real, jobs: int, longest: real) {
    0.0 <= wait <= jobs as real * longest
  }

  /** The estimate `occ * exec_time` is never below the true wait and exceeds
      it by less than one execution. */
  predicate EstimateIsTight(wait: real, jobs: int, exec: real) {
    wait <= jobs as real * exec < wait + exec
  }

  /** An accepted job waits exactly for the work left ahead of it. */
  lemma WaitIsWorkAhead(q: Queue, line: Line, now: real, extra: real)
    requires Represents(q, line, now) && q.exec + extra > 0.0 && Admit(q, now, extra).1.Admitted?
    ensures Occupancy(q, now) == |line.services| < q.capacity
    ensures Wait(q, now, extra) >= 0.0
    ensures if line.services == [] then Wait(q, now, extra) == 0.0
            else Wait(q, now, extra) == line.headStart + Total(line.services) - now && line.headStart <= now
  {
    AdmissionRefinesTheLine(q, line, now, now, extra);
  }

  /** Wait bound: an accepted job waits at most one longest service per job it
      finds, hence at most (capacity - 1) of them. */
  lemma WaitBound(q: Queue, line: Line, now: real, extra: real, longest: real)
    requires Represents(q, line, now) && q.exec + extra > 0.0
    requires forall i :: 0 <= i < |line.services| ==> line.services[i] <= longest
    requires longest > 0.0 && Admit(q, now, extra).1.Admitted?
    ensures WithinServices(Wait(q, now, extra), Occupancy(q, now), longest)
    ensures WithinServices(Wait(q, now, extra), q.capacity - 1, longest)
  {
    hide WithinServices, Wait, Admit;
    WaitIsWorkAhead(q, line, now, extra);
    TotalBounds(line.services, 0.0, longest);
    WorkAheadBound(Wait(q, now, extra), Total(line.services), |line.services|, longest);
    WithinMore(Wait(q, now, extra), |line.services|, q.capacity - 1, longest);
  }

  lemma WorkAheadBound(wait: real, total: real, jobs: int, longest: real)
    requires 0.0 <= wait <= total <= jobs as real * longest || (jobs == 0 && wait == 0.0)
    ensures WithinServices(wait, jobs, longest)
  {
  }

  lemma WithinMore(wait: real, jobs: int, most: int, longest: real)
    requires WithinServices(wait, jobs, longest) && jobs <= most && longest > 0.0
    ensures WithinServices(wait, most, longest)
  {
    NonnegativeProduct(most as real - jobs as real, longest);
  }

  /** The latency-aware estimate `occ * exec_time`: on a replica whose jobs all
      take `exec_time` it is never below the true wait and exceeds it by less
      than one execution. */
  lemma WarmEstimate(q: Queue, line: Line, now: real, extra: real)
    requires Represents(q, line, now) && q.exec > 0.0 && q.exec + extra > 0.0
    requires forall i :: 0 <= i < |line.services| ==> line.services[i] == q.exec
    requires Occupancy(q, now) >= 1 && Admit(q, now, extra).1.Admitted?
    ensures EstimateIsTight(Wait(q, now, extra), Occupancy(q, now), q.exec)
  {
    AdmissionRefinesTheLine(q, line, now, now, extra);
    TotalBounds(line.services, q.exec, q.exec);
    TotalPositive(line.services);
    assert Occupancy(q, now) == |line.services|;
    assert now < line.headStart + line.services[0];
    assert Admit(q, now, extra).1.start == line.headStart + Total(line.services);
  }

  lemma {:induction false} ServeKeepsTail(line: Line, now: real)
    ensures var k := |line.services| - |Serve(line, now).services|;
            Serve(line, now).services == line.services[k..]
    decreases |line.services|
  {
    if line.services != [] && line.headStart + line.services[0] <= now {
      ServeKeepsTail(Line(line.capacity, line.headStart + line.services[0], line.services[1..]), now);
    }
  }

  ghost predicate Between(services: seq<real>, low: real, high: real) {
    forall i :: 0 <= i < |services| ==> low <= services[i] <= high
  }

  lemma ArriveKeepsBounds(line: Line, now: real, service: real, low: real, high: real)
    requires Between(line.services, low, high) && low <= service <= high
    ensures Between(Arrive(line, now, service).0.services, low, high)
  {
    ServeKeepsTail(line, now);
    var k := |line.services| - |Serve(line, now).services|;
    assert Between(line.services[k..], low, high);
  }

  /** Every job in the line of a stream takes between `exec` and `exec + most`
      when no cold-start extra exceeds `most`. */
  lemma {:induction false} StreamServices(line: Line, exec: real, arrivals: seq<Job>, most: real)
    requires Between(line.services, exec, exec + most)
    requires forall i :: 0 <= i < |arrivals| ==> 0.0 <= arrivals[i].extra <= most
    ensures Between(ArriveAll(line, exec, arrivals).0.services, exec, exec + most)
  {
    if arrivals != [] {
      var n := |arrivals| - 1;
      StreamServices(line, exec, arrivals[..n], most);
      ArriveKeepsBounds(ArriveAll(line, exec, arrivals[..n]).0, arrivals[n].at, exec + arrivals[n].extra,
                        exec, exec + most);
    }
  }

  /** Starting empty, after any stream the deque stands for a line whose jobs
      all take between `exec` and `exec + most`. */
  lemma StreamFromEmpty(capacity: nat, exec: real, arrivals: seq<Job>, now: real, most: real) returns (line: Line)
    requires exec > 0.0 && InOrder(arrivals, exec, 0.0)
    requires 0.0 <= now && (arrivals != [] ==> arrivals[|arrivals| - 1].at <= now)
    requires forall i :: 0 <= i < |arrivals| ==> 0.0 <= arrivals[i].extra <= most
    ensures var q := AdmitAll(Queue(capacity, exec, 0.0, []), arrivals).0;
            && q.capacity == capacity && q.exec == exec
            && Represents(q, line, now)
            && Between(line.services, exec, exec + most)
  {
    var q0, line0 := Queue(capacity, exec, 0.0, []), Line(capacity, 0.0, []);
    DequeRefinesFifo(q0, line0, arrivals, 0.0);
    StreamServices(line0, exec, arrivals, most);
    StreamKeepsCapacity(q0, arrivals);
    var before := if arrivals == [] then 0.0 else arrivals[|arrivals| - 1].at;
    var l := ArriveAll(line0, exec, arrivals).0;
    RepresentsLater(AdmitAll(q0, arrivals).0, l, before, now);
    ServeKeepsTail(l, now);
    line := Serve(l, now);
    assert Between(l.services[|l.services| - |line.services|..], exec, exec + most);
  }

  /** Starting empty, no job accepted after any stream waits longer than
      (capacity - 1) services of one and a half executions. */
  lemma StreamWaitBound(capacity: nat, exec: real, arrivals: seq<Job>, last: Job)
    requires exec > 0.0 && InOrder(arrivals, exec, 0.0)
    requires 0.0 <= last.at && (arrivals != [] ==> arrivals[|arrivals| - 1].at <= last.at)
    requires forall i :: 0 <= i < |arrivals| ==> 0.0 <= arrivals[i].extra <= exec / 2.0
    requires 0.0 <= last.extra
    ensures var q := AdmitAll(Queue(capacity, exec, 0.0, []), arrivals).0;
            Admit(q, last.at, last.extra).1.Admitted? ==>
              && WithinServices(Wait(q, last.at, last.extra), Occupancy(q, last.at), 1.5 * exec)
              && WithinServices(Wait(q, last.at, last.extra), capacity - 1, 1.5 * exec)
  {
    var line := StreamFromEmpty(capacity, exec, arrivals, last.at, exec / 2.0);
    var q := AdmitAll(Queue(capacity, exec, 0.0, []), arrivals).0;
    if Admit(q, last.at, last.extra).1.Admitted? {
      WaitBound(q, line, last.at, last.extra, 1.5 * exec);
    }
  }

  // ------------------------------------------------------------------
  // The estimate on a warm replica
  // ------------------------------------------------------------------

  /** The i-th job in the line is the accepted arrival j. */
  ghost predicate IsArrival(line: Line, exec: real, arrivals: seq<Job>, outcomes: seq<Admission>, i: int, j: int) {
    FinishesLength(line.headStart, line.services);
    && 0 <= i < |line.services| && 0 <= j < |arrivals| == |outcomes| && outcomes[j].Admitted?
    && outcomes[j].finish == Finishes(line.headStart, line.services)[i]
    && line.services[i] == exec + arrivals[j].extra
  }

  ghost predicate HasArrival(line: Line, exec: real, arrivals: seq<Job>, outcomes: seq<Admission>, i: int) {
    exists j :: IsArrival(line, exec, arrivals, outcomes, i, j)
  }

  /** Every job in the line is an accepted arrival. */
  ghost predicate ComeFrom(line: Line, exec: real, arrivals: seq<Job>, outcomes: seq<Admission>) {
    forall i :: 0 <= i < |line.services| ==> HasArrival(line, exec, arrivals, outcomes, i)
  }

  lemma {:induction false} ServeComesFrom(line: Line, now: real, exec: real, arrivals: seq<Job>,
                                          outcomes: seq<Admission>)
    requires ComeFrom(line, exec, arrivals, outcomes)
    ensures ComeFrom(Serve(line, now), exec, arrivals, outcomes)
    decreases |line.services|
  {
    if line.services != [] && line.headStart + line.services[0] <= now {
      var rest := Line(line.capacity, line.headStart + line.services[0], line.services[1..]);
      forall i | 0 <= i < |rest.services| ensures HasArrival(rest, exec, arrivals, outcomes, i) {
        assert HasArrival(line, exec, arrivals, outcomes, i + 1);
        var j :| IsArrival(line, exec, arrivals, outcomes, i + 1, j);
        assert IsArrival(rest, exec, arrivals, outcomes, i, j);
      }
      ServeComesFrom(rest, now, exec, arrivals, outcomes);
    }
  }

  lemma {:induction false} ArriveComesFrom(line: Line, exec: real, arrivals: seq<Job>, outcomes: seq<Admission>, a: Job)
    requires ComeFrom(line, exec, arrivals, outcomes) && |outcomes| == |arrivals|
    ensures var (l, outcome) := Arrive(line, a.at, exec + a.extra);
            ComeFrom(l, exec, arrivals + [a], outcomes + [outcome])
  {
    ServeComesFrom(line, a.at, exec, arrivals, outcomes);
    var m := Serve(line, a.at);
    var (l, outcome) := Arrive(line, a.at, exec + a.extra);
    FinishesLength(m.headStart, m.services);
    FinishesAppend(m.headStart, m.services, exec + a.extra);
    forall i | 0 <= i < |l.services|
      ensures HasArrival(l, exec, arrivals + [a], outcomes + [outcome], i)
    {
      if i < |m.services| {
        assert HasArrival(m, exec, arrivals, outcomes, i);
        var j :| IsArrival(m, exec, arrivals, outcomes, i, j);
        assert IsArrival(l, exec, arrivals + [a], outcomes + [outcome], i, j);
      } else {
        assert IsArrival(l, exec, arrivals + [a], outcomes + [outcome], i, |arrivals|);
      }
    }
  }

  lemma {:induction false} StreamComesFrom(line: Line, exec: real, arrivals: seq<Job>)
    requires line.services == []
    ensures var (l, outcomes) := ArriveAll(line, exec, arrivals);
            |outcomes| == |arrivals| && ComeFrom(l, exec, arrivals, outcomes)
  {
    if arrivals != [] {
      var n := |arrivals| - 1;
      StreamComesFrom(line, exec, arrivals[..n]);
      var (l, outcomes) := ArriveAll(line, exec, arrivals[..n]);
      ArriveComesFrom(l, exec, arrivals[..n], outcomes, arrivals[n]);
      assert arrivals[..n] + [arrivals[n]] == arrivals;
    }
  }

  /** Everyone in the line finishes after the one in service. */
  lemma {:induction false} FinishesLater(h: real, services: seq<real>, i: nat)
    requires Positive(services) && i < |services|
    ensures |Finishes(h, services)| == |services| && Finishes(h, services)[i] >= h + services[0]
    decreases |services|
  {
    FinishesLength(h, services);
    if i > 0 {
      FinishesLater(h + services[0], services[1..], i - 1);
    }
  }

  /** The admissions of a stream to a replica that starts empty. */
  function StreamOutcomes(capacity: nat, exec: real, arrivals: seq<Job>): seq<Admission> {
    AdmitAll(Queue(capacity, exec, 0.0, []), arrivals).1
  }

  /** The jobs still in the system at `now` carry no cold-start penalty. */
  ghost predicate WarmAt(capacity: nat, exec: real, arrivals: seq<Job>, now: real) {
    var outcomes := StreamOutcomes(capacity, exec, arrivals);
    forall j :: 0 <= j < |arrivals| && j < |outcomes| && outcomes[j].Admitted? && outcomes[j].finish > now ==>
                  arrivals[j].extra == 0.0
  }

  /** After any stream, whatever its cold starts, the latency-aware estimate of a
      non-idle replica is at least the true wait and less than one execution above
      it, if only the jobs still in the system carry no penalty. */
  lemma {:induction false} StreamEstimate(capacity: nat, exec: real, arrivals: seq<Job>, now: real)
    requires exec > 0.0 && InOrder(arrivals, exec, 0.0)
    requires 0.0 <= now && (arrivals != [] ==> arrivals[|arrivals| - 1].at <= now)
    requires WarmAt(capacity, exec, arrivals, now)
    ensures var q := AdmitAll(Queue(capacity, exec, 0.0, []), arrivals).0;
            1 <= Occupancy(q, now) < capacity ==>
              EstimateIsTight(Wait(q, now, 0.0), Occupancy(q, now), exec)
  {
    var q0, line0 := Queue(capacity, exec, 0.0, []), Line(capacity, 0.0, []);
    DequeRefinesFifo(q0, line0, arrivals, 0.0);
    StreamKeepsCapacity(q0, arrivals);
    StreamComesFrom(line0, exec, arrivals);
    var q := AdmitAll(q0, arrivals).0;
    var (l, outcomes) := ArriveAll(line0, exec, arrivals);
    RepresentsLater(q, l, if arrivals == [] then 0.0 else arrivals[|arrivals| - 1].at, now);
    ServeComesFrom(l, now, exec, arrivals, outcomes);
    var line := Serve(l, now);
    forall i | 0 <= i < |line.services| ensures line.services[i] == exec {
      assert HasArrival(line, exec, arrivals, outcomes, i);
      var j :| IsArrival(line, exec, arrivals, outcomes, i, j);
      FinishesLater(line.headStart, line.services, i);
    }
    if 1 <= Occupancy(q, now) < capacity {
      WarmEstimate(q, line, now, 0.0);
    }
  }

  /** In particular once every job accepted within the cold-start window has left. */
  lemma {:induction false} EstimateAfterWindow(capacity: nat, exec: real, arrivals: seq<Job>, windowEnd: real,
                                               now: real)
    requires exec > 0.0 && InOrder(arrivals, exec, 0.0)
    requires 0.0 <= now && (arrivals != [] ==> arrivals[|arrivals| - 1].at <= now)
    requires forall j :: 0 <= j < |arrivals| && arrivals[j].at > windowEnd ==> arrivals[j].extra == 0.0
    requires var outcomes := StreamOutcomes(capacity, exec, arrivals);
             forall j :: 0 <= j < |arrivals| && j < |outcomes| && outcomes[j].Admitted?
                         && arrivals[j].at <= windowEnd ==>
                           outcomes[j].finish <= now
    ensures var q := AdmitAll(Queue(capacity, exec, 0.0, []), arrivals).0;
            1 <= Occupancy(q, now) < capacity ==>
              EstimateIsTight(Wait(q, now, 0.0), Occupancy(q, now), exec)
  {
    StreamEstimate(capacity, exec, arrivals, now);
  }

  lemma {:induction false} StreamKeepsCapacity(q: Queue, arrivals: seq<Job>)
    ensures AdmitAll(q, arrivals).0.capacity == q.capacity
  {
    if arrivals != [] {
      StreamKeepsCapacity(q, arrivals[..|arrivals| - 1]);
    }
  }

  // ------------------------------------------------------------------
  // How far the last departure can be
  // ------------------------------------------------------------------

  /** The i-th departure comes within `longest` of the one before it, the first
      within that time from now. */
  predicate Follows(departures: seq<real>, now: real, longest: real, i: int)
    requires 0 <= i < |departures|
  {
    departures[i] <= (if i == 0 then now else departures[i - 1]) + longest
  }

  /** Departures follow each other at a pace, and the last one is `available_at`. */
  predicate Paced(q: Queue, now: real, longest: real) {
    && (forall i :: 0 <= i < |q.departures| ==> Follows(q.departures, now, longest, i))
    && (if q.departures == [] then q.availableAt <= now else q.availableAt == q.departures[|q.departures| - 1])
  }

  lemma PacedLater(q: Queue, now: real, later: real, longest: real)
    requires Paced(q, now, longest) && now <= later
    ensures Paced(q, later, longest)
  {
    forall i | 0 <= i < |q.departures| ensures Follows(q.departures, later, longest, i) {
      assert Follows(q.departures, now, longest, i);
    }
  }

  /** Popping keeps the pace. */
  lemma PendingPaced(departures: seq<real>, now: real, longest: real)
    requires Ascending(departures) && forall i :: 0 <= i < |departures| ==> Follows(departures, now, longest, i)
    ensures forall i :: 0 <= i < |Pending(departures, now)| ==> Follows(Pending(departures, now), now, longest, i)
    ensures Pending(departures, now) == [] && departures != [] ==> departures[|departures| - 1] <= now
    ensures Pending(departures, now) != [] ==>
              Pending(departures, now)[|Pending(departures, now)| - 1] == departures[|departures| - 1] > now
  {
    PendingIsTheFuture(departures, now);
    var pending := Pending(departures, now);
    var k := |departures| - |pending|;
    forall i | 0 <= i < |pending| ensures Follows(pending, now, longest, i) {
      assert pending[i] == departures[k + i] && Follows(departures, now, longest, k + i);
    }
  }

  /** An admission keeps the pace. */
  lemma AdmitPaced(q: Queue, now: real, extra: real, longest: real)
    requires Paced(q, now, longest) && Ascending(q.departures) && 0.0 < q.exec + extra <= longest
    ensures Paced(Admit(q, now, extra).0, now, longest)
  {
    PendingPaced(q.departures, now, longest);
    var pending := Pending(q.departures, now);
    var r := Admit(q, now, extra).0;
    forall i | 0 <= i < |r.departures| ensures Follows(r.departures, now, longest, i) {
      if i < |pending| {
        assert Follows(pending, now, longest, i);
      }
    }
  }

  /** The backlog never exceeds one longest service per place in the queue. */
  lemma {:induction false} PacedDepartures(q: Queue, now: real, longest: real, i: nat)
    requires Paced(q, now, longest) && i < |q.departures|
    ensures q.departures[i] <= now + (i + 1) as real * longest
  {
    assert Follows(q.departures, now, longest, i);
    if i > 0 {
      PacedDepartures(q, now, longest, i - 1);
      assert (i + 1) as real * longest == i as real * longest + longest;
    }
  }

  lemma BacklogBound(q: Queue, now: real, longest: real)
    requires Paced(q, now, longest) && |q.departures| <= q.capacity && 0.0 <= longest
    ensures q.availableAt <= now + q.capacity as real * longest
  {
    NonnegativeProduct(q.capacity as real - |q.departures| as real, longest);
    if q.departures != [] {
      PacedDepartures(q, now, longest, |q.departures| - 1);
    }
  }

  /** The same after one more admission. */
  lemma {:induction false} AdmittedBacklog(q: Queue, now: real, extra: real, longest: real)
    requires Consistent(q) && |q.departures| <= q.capacity && 0.0 < q.exec + extra <= longest && Paced(q, now, longest)
    ensures var r := Admit(q, now, extra).0;
            && r.capacity == q.capacity && r.exec == q.exec && Paced(r, now, longest)
            && r.availableAt <= now + q.capacity as real * longest
  {
    var r := Admit(q, now, extra).0;
    assert r.capacity == q.capacity && r.exec == q.exec && |r.departures| <= r.capacity by {
      AdmissionKeepsConsistency(q, now, extra);
      PendingIsTheFuture(q.departures, now);
    }
    AdmitPaced(q, now, extra, longest);
    hide Paced, Consistent, Admit;
    BacklogBound(r, now, longest);
  }

  // ------------------------------------------------------------------
  // The object itself.
  // ------------------------------------------------------------------

  class ReplicaQueue {
    const capacity: nat
    const exec: real
    var availableAt: real
    var departures: seq<real>

    ghost function View(): Queue
      reads this
    {
      Queue(capacity, exec, availableAt, departures)
    }

    constructor (capacity: nat, exec: real)
      ensures View() == Queue(capacity, exec, 0.0, [])
    {
      this.capacity := capacity;
      this.exec := exec;
      availableAt := 0.0;
      departures := [];
    }

    method QueueOccupancy(now: real) returns (n: nat)
      modifies this`departures
      ensures departures == Pending(old(departures), now)
      ensures n == Occupancy(old(View()), now)
    {
      while departures != [] && departures[0] <= now
        invariant Pending(departures, now) == Pending(old(departures), now)
        decreases |departures|
      {
        departures := departures[1..];
      }
      n := |departures|;
    }

    method TryAdmit(now: real, coldStartExtra: real) returns (outcome: Admission)
      modifies this
      ensures (View(), outcome) == Admit(old(View()), now, coldStartExtra)
    {
      var occ := QueueOccupancy(now);
      if occ >= capacity {
        return Rejected;
      }
      var start := Later(now, availableAt);
      var serviceTime := exec + coldStartExtra;
      var finish := start + serviceTime;
      availableAt := finish;
      departures := departures + [finish];
      outcome := Admitted(start, finish);
    }

    method IsIdle(now: real) returns (idle: bool)
      modifies this`departures
      ensures idle <==> Occupancy(old(View()), now) == 0
      ensures departures == Pending(old(departures), now)
    {
      var occ := QueueOccupancy(now);
      idle := occ == 0;
    }
  }
}
