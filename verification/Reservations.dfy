/** The queue-slot reservations of k8s_adapter/redis_state.py and
    worker_service/app.py for one replica: a counter and a ZSET of reservations,
    touched by dispatchers, workers and the sweeper one atomic command at a time. */
module Reservations {
  import opened Collections

  /** What a process is in the middle of, between two of its commands. */
  datatype Process =
    | Recording(request: int, expiry: real)        // INCR stayed within the limit, ZADD comes next
    | Undoing                                      // INCR went over the limit, DECR comes next
    | Sweeping(todo: seq<int>)                     // expired members still to be removed
    | Checking(request: int, todo: seq<int>)       // ZREM removed the member, GET comes next
    | Decrementing(request: int, todo: seq<int>)   // GET saw a positive counter, DECR comes next

  /** `granted` and `released` are history: the requests whose INCR was within the
      limit, and those for which the counter was decremented again. */
  datatype Store = Store(
    limit: nat, counter: int, members: map<int, real>, running: map<int, Process>,
    granted: set<int>, released: multiset<int>)

  function Empty(limit: nat): Store {
    Store(limit, 0, map[], map[], {}, multiset{})
  }

  /** The atomic commands, each by one process. */
  datatype Command =
    | Incr(process: int, request: int, expiry: real)
    | Zadd(process: int)
    | UndoDecr(process: int)
    | WorkerZrem(process: int, request: int)
    | Scan(process: int, now: real, expired: seq<int>)
    | SweeperZrem(process: int)
    | Get(process: int)
    | Decr(process: int)

  /** A process that has members left to sweep goes on, any other is finished. */
  function Continue(running: map<int, Process>, process: int, todo: seq<int>): map<int, Process> {
    if todo == [] then running - {process} else running[process := Sweeping(todo)]
  }

  /** What `zrangebyscore` returns. */
  ghost predicate ListsExpired(members: map<int, real>, now: real, expired: seq<int>) {
    && (forall i, j :: 0 <= i < j < |expired| ==> expired[i] != expired[j])
    && forall m :: m in expired <==> m in members && members[m] <= now
  }

  /** A command is possible in a state. Request ids are unique and each request
      tries this replica at most once. */
  ghost predicate Enabled(s: Store, c: Command) {
    match c
    case Incr(p, request, _) => p !in s.running && request !in s.granted
    case Zadd(p) => p in s.running && s.running[p].Recording?
    case UndoDecr(p) => p in s.running && s.running[p].Undoing?
    case WorkerZrem(p, _) => p !in s.running
    case Scan(p, now, expired) => p !in s.running && ListsExpired(s.members, now, expired)
    case SweeperZrem(p) => p in s.running && s.running[p].Sweeping? && s.running[p].todo != []
    case Get(p) => p in s.running && s.running[p].Checking?
    case Decr(p) => p in s.running && s.running[p].Decrementing?
  }

  /** The effect of a command. */
  function Apply(s: Store, c: Command): Store
    requires Enabled(s, c)
  {
    match c
    case Incr(p, request, expiry) =>
      if s.counter + 1 > s.limit then s.(counter := s.counter + 1, running := s.running[p := Undoing])
      else s.(counter := s.counter + 1, running := s.running[p := Recording(request, expiry)],
              granted := s.granted + {request})
    case Zadd(p) =>
      s.(members := s.members[s.running[p].request := s.running[p].expiry], running := s.running - {p})
    case UndoDecr(p) => s.(counter := s.counter - 1, running := s.running - {p})
    case WorkerZrem(p, request) =>
      if request in s.members
      then s.(members := s.members - {request}, running := s.running[p := Checking(request, [])])
      else s
    case Scan(p, now, expired) => s.(running := Continue(s.running, p, expired))
    case SweeperZrem(p) =>
      var todo := s.running[p].todo;
      if todo[0] in s.members
      then s.(members := s.members - {todo[0]}, running := s.running[p := Checking(todo[0], todo[1..])])
      else s.(running := Continue(s.running, p, todo[1..]))
    case Get(p) =>
      if s.counter > 0
      then s.(running := s.running[p := Decrementing(s.running[p].request, s.running[p].todo)])
      else s.(running := Continue(s.running, p, s.running[p].todo))
    case Decr(p) =>
      s.(counter := s.counter - 1, running := Continue(s.running, p, s.running[p].todo),
         released := s.released + multiset{s.running[p].request})
  }

  // ------------------------------------------------------------------
  // The invariant
  // ------------------------------------------------------------------

  /** The processes in whose hands a counted unit is. */
  predicate HoldsUnit(p: Process) {
    p.Recording? || p.Undoing? || p.Checking? || p.Decrementing?
  }

  predicate IsRecording(p: Process) {
    p.Recording?
  }

  predicate Handles(p: Process, request: int) {
    (p.Recording? || p.Checking? || p.Decrementing?) && p.request == request
  }

  /** Who has this request's unit in hand. */
  function Handling(running: map<int, Process>, request: int): set<int> {
    Those(running, (p: Process) => Handles(p, request))
  }

  function Those(running: map<int, Process>, test: Process -> bool): set<int> {
    set p | p in running && test(running[p])
  }

  /** Counter = recorded reservations + increments not yet recorded or undone
      + removals not yet decremented. */
  predicate CounterOk(s: Store) {
    s.counter == |s.members| + |Those(s.running, HoldsUnit)|
  }

  /** The reservations held never exceed the queue length. */
  predicate HeldOk(s: Store) {
    |s.members| + |Those(s.running, IsRecording)| <= s.limit
  }

  /** Every granted reservation is being recorded, recorded, being released or
      released: exactly one of these, exactly once. */
  ghost predicate OnceOk(s: Store) {
    forall r :: OnceFor(s, r)
  }

  predicate OnceFor(s: Store, r: int) {
    (if r in s.members then 1 else 0) + |Handling(s.running, r)| + s.released[r] == (if r in s.granted then 1 else 0)
  }

  ghost predicate Inv(s: Store) {
    CounterOk(s) && HeldOk(s) && OnceOk(s)
  }

  /** Only process p changed. */
  predicate OnlyOne(a: map<int, Process>, b: map<int, Process>, p: int) {
    forall q :: q in a.Keys + b.Keys && q != p ==> q in a && q in b && a[q] == b[q]
  }

  predicate Passes(running: map<int, Process>, p: int, test: Process -> bool) {
    p in running && test(running[p])
  }

  lemma OneChange(a: map<int, Process>, b: map<int, Process>, p: int, test: Process -> bool)
    requires OnlyOne(a, b, p)
    ensures |Those(b, test)| + (if Passes(a, p, test) then 1 else 0)
            == |Those(a, test)| + (if Passes(b, p, test) then 1 else 0)
  {
    forall q ensures q in Those(b, test) - {p} <==> q in Those(a, test) - {p} {
      assert q in a.Keys + b.Keys && q != p ==> q in a && q in b && a[q] == b[q];
    }
    assert Those(b, test) - {p} == Those(a, test) - {p};
    WithAndWithout(Those(a, test), p);
    WithAndWithout(Those(b, test), p);
  }

  lemma WithAndWithout(s: set<int>, p: int)
    ensures |s| == |s - {p}| + if p in s then 1 else 0
  {
    if p in s {
      assert s == (s - {p}) + {p};
    } else {
      assert s == s - {p};
    }
  }

  lemma CommandIsOne(s: Store, c: Command)
    requires Enabled(s, c)
    ensures OnlyOne(s.running, Apply(s, c).running, c.process)
  {
  }

  /** How one command changes the number of processes that pass a test. */
  lemma RunningChange(s: Store, c: Command, test: Process -> bool)
    requires Enabled(s, c)
    ensures |Those(Apply(s, c).running, test)| + (if Passes(s.running, c.process, test) then 1 else 0)
            == |Those(s.running, test)| + (if Passes(Apply(s, c).running, c.process, test) then 1 else 0)
  {
    CommandIsOne(s, c);
    OneChange(s.running, Apply(s, c).running, c.process, test);
  }

  lemma MembersChange(members: map<int, real>, m: int, e: real)
    ensures m !in members ==> |members[m := e]| == |members| + 1
    ensures m in members ==> |members - {m}| == |members| - 1
  {
    assert m in members ==> (members - {m}).Keys == members.Keys - {m};
    assert m !in members ==> members[m := e].Keys == members.Keys + {m};
    CardinalityOfKeys(members);
    CardinalityOfKeys(members[m := e]);
    CardinalityOfKeys(members - {m});
  }

  lemma CardinalityOfKeys(members: map<int, real>)
    ensures |members| == |members.Keys|
  {
  }

  /** A request being recorded is not a member yet. */
  lemma RecordingIsNew(s: Store, p: int)
    requires OnceOk(s) && p in s.running && s.running[p].Recording?
    ensures s.running[p].request !in s.members && s.running[p].request in s.granted
  {
    var r := s.running[p].request;
    assert p in Handling(s.running, r) && OnceFor(s, r);
  }

  lemma CounterKept(s: Store, c: Command)
    requires Inv(s) && Enabled(s, c)
    ensures CounterOk(Apply(s, c))
  {
    hide Those;
    RunningChange(s, c, HoldsUnit);
    match c
    case Zadd(p) =>
      RecordingIsNew(s, p);
      MembersChange(s.members, s.running[p].request, s.running[p].expiry);
    case WorkerZrem(p, request) => MembersChange(s.members, request, 0.0);
    case SweeperZrem(p) => MembersChange(s.members, s.running[p].todo[0], 0.0);
    case Get(p) => PositiveWhenChecking(s, p);
    case _ =>
  }

  /** The guard `GET > 0` never fails: whoever removed a member holds a counted unit. */
  lemma PositiveWhenChecking(s: Store, p: int)
    requires CounterOk(s) && p in s.running && HoldsUnit(s.running[p])
    ensures s.counter > 0
  {
    assert p in Those(s.running, HoldsUnit);
  }

  lemma RecordingIsPart(s: Store)
    ensures |Those(s.running, IsRecording)| <= |Those(s.running, HoldsUnit)|
  {
    var part, whole := Those(s.running, IsRecording), Those(s.running, HoldsUnit);
    assert whole == part + (whole - part);
  }

  lemma HeldKept(s: Store, c: Command)
    requires Inv(s) && Enabled(s, c)
    ensures HeldOk(Apply(s, c))
  {
    RunningChange(s, c, IsRecording);
    match c
    case Incr(p, _, _) =>
      CounterKept(s, c);
      RecordingIsPart(Apply(s, c));
    case Zadd(p) =>
      RecordingIsNew(s, p);
      MembersChange(s.members, s.running[p].request, s.running[p].expiry);
    case WorkerZrem(p, request) => MembersChange(s.members, request, 0.0);
    case SweeperZrem(p) => MembersChange(s.members, s.running[p].todo[0], 0.0);
    case _ =>
  }

  lemma OnceKept(s: Store, c: Command)
    requires Inv(s) && Enabled(s, c)
    ensures OnceOk(Apply(s, c))
  {
    forall r ensures OnceFor(Apply(s, c), r) {
      OnceForKept(s, c, r);
    }
  }

  lemma OnceForKept(s: Store, c: Command, r: int)
    requires Inv(s) && Enabled(s, c)
    ensures OnceFor(Apply(s, c), r)
  {
    assert OnceFor(s, r);
    RunningChange(s, c, (p: Process) => Handles(p, r));
    if c.Get? {
      PositiveNow(s, c.process);
    }
    if c.Zadd? {
      RecordingHere(s, c.process);
    }
    HandlingChange(s, c, r, Handling(s.running, r), Handling(Apply(s, c).running, r));
  }

  /** The bookkeeping of one request over one command, given how many handle it. */
  lemma HandlingChange(s: Store, c: Command, r: int, before: set<int>, after: set<int>)
    requires Enabled(s, c) && (c.Get? ==> s.counter > 0)
    requires c.Zadd? ==> s.running[c.process].request !in s.members
    requires (if r in s.members then 1 else 0) + |before| + s.released[r] == (if r in s.granted then 1 else 0)
    requires var t := Apply(s, c);
             |after| + (if c.process in s.running && Handles(s.running[c.process], r) then 1 else 0)
             == |before| + (if c.process in t.running && Handles(t.running[c.process], r) then 1 else 0)
    ensures var t := Apply(s, c);
            (if r in t.members then 1 else 0) + |after| + t.released[r] == (if r in t.granted then 1 else 0)
  {
  }

  lemma PositiveNow(s: Store, p: int)
    requires Inv(s) && p in s.running && s.running[p].Checking?
    ensures s.counter > 0
  {
    PositiveWhenChecking(s, p);
  }

  lemma RecordingHere(s: Store, p: int)
    requires Inv(s) && p in s.running && s.running[p].Recording?
    ensures s.running[p].request !in s.members && s.running[p].request in s.granted
  {
    RecordingIsNew(s, p);
  }

  /** Every command of every process keeps the invariant. */
  lemma CommandKeeps(s: Store, c: Command)
    requires Inv(s) && Enabled(s, c)
    ensures Inv(Apply(s, c))
  {
    CounterKept(s, c);
    HeldKept(s, c);
    OnceKept(s, c);
  }

  // ------------------------------------------------------------------
  // All interleavings
  // ------------------------------------------------------------------

  /** Any interleaving of any number of processes. */
  ghost predicate IsInterleaving(states: seq<Store>, commands: seq<Command>) {
    && |states| == |commands| + 1
    && forall i :: 0 <= i < |commands| ==>
         Enabled(states[i], commands[i]) && states[i + 1] == Apply(states[i], commands[i])
  }

  lemma EmptyIsFine(limit: nat)
    ensures Inv(Empty(limit))
  {
    var s := Empty(limit);
    assert Those(s.running, HoldsUnit) == {} && Those(s.running, IsRecording) == {};
    forall r ensures OnceFor(s, r) {
      assert Handling(s.running, r) == {};
    }
  }

  /** In every state of every interleaving: the counter is exact and never
      negative, what is held never exceeds the queue length, no request is released
      twice, and none that is still held was released. */
  lemma {:induction false} ProtocolIsSafe(limit: nat, states: seq<Store>, commands: seq<Command>, i: nat)
    requires IsInterleaving(states, commands) && states[0] == Empty(limit) && i < |states|
    ensures Inv(states[i]) && states[i].limit == limit && states[i].counter >= 0
    ensures |states[i].members| <= limit
    ensures forall r :: states[i].released[r] <= 1 && (r in states[i].members ==> states[i].released[r] == 0)
  {
    if i == 0 {
      EmptyIsFine(limit);
    } else {
      ProtocolIsSafe(limit, states, commands, i - 1);
      CommandKeeps(states[i - 1], commands[i - 1]);
      var s := states[i];
      forall r ensures s.released[r] <= 1 && (r in s.members ==> s.released[r] == 0) {
        assert OnceFor(s, r);
      }
    }
  }

  /** When nobody is in the middle of an operation, the counter is the number of
      recorded reservations, and every granted one is either still recorded or was
      released exactly once. */
  lemma QuiescentIsExact(s: Store)
    requires Inv(s) && s.running == map[]
    ensures s.counter == |s.members|
    ensures forall r :: r in s.granted <==> r in s.members || s.released[r] == 1
    ensures forall r :: !(r in s.members && s.released[r] == 1)
  {
    assert Those(s.running, HoldsUnit) == {};
    forall r
      ensures r in s.granted <==> r in s.members || s.released[r] == 1
      ensures !(r in s.members && s.released[r] == 1)
    {
      assert OnceFor(s, r) && Handling(s.running, r) == {};
    }
  }

  /** An attempt beyond the limit, uninterrupted, changes nothing. */
  lemma IncrThenUndo(s: Store, p: int, request: int, expiry: real)
    requires Enabled(s, Incr(p, request, expiry)) && s.counter + 1 > s.limit
    ensures Enabled(Apply(s, Incr(p, request, expiry)), UndoDecr(p))
    ensures Apply(Apply(s, Incr(p, request, expiry)), UndoDecr(p)) == s
  {
    assert s.running[p := Undoing] - {p} == s.running;
  }

  /** An attempt within the limit, uninterrupted, records the reservation. */
  lemma IncrThenZadd(s: Store, p: int, request: int, expiry: real)
    requires Enabled(s, Incr(p, request, expiry)) && s.counter + 1 <= s.limit
    ensures Enabled(Apply(s, Incr(p, request, expiry)), Zadd(p))
    ensures Apply(Apply(s, Incr(p, request, expiry)), Zadd(p))
            == s.(counter := s.counter + 1, members := s.members[request := expiry], granted := s.granted + {request})
  {
    assert s.running[p := Recording(request, expiry)] - {p} == s.running;
  }

  /** A worker's ZREM leaves it in the middle of a release exactly if it removed the member. */
  lemma ZremEffect(s: Store, p: int, request: int)
    requires p !in s.running
    ensures Enabled(s, WorkerZrem(p, request))
    ensures var t := Apply(s, WorkerZrem(p, request));
            && t.members == s.members - {request} && t.counter == s.counter
            && if request in s.members then
                 && p in t.running && t.running[p] == Checking(request, [])
                 && Continue(t.running, p, []) == s.running
               else t.running == s.running
  {
    var t := Apply(s, WorkerZrem(p, request));
    if request in s.members {
      assert t.running - {p} == s.running;
    } else {
      assert s.members - {request} == s.members;
    }
  }

  // ------------------------------------------------------------------
  // The functions themselves, run without interruption
  // ------------------------------------------------------------------

  /** The Redis keys of one replica. `store` says where the protocol stands. */
  class ReplicaKeys {
    var counter: int
    var members: map<int, real>
    ghost var store: Store

    ghost predicate Valid()
      reads this
    {
      counter == store.counter && members == store.members && Inv(store)
    }

    constructor (ghost limit: nat)
      ensures Valid() && store == Empty(limit) && counter == 0 && members == map[]
    {
      counter, members, store := 0, map[], Empty(limit);
      new;
      EmptyIsFine(limit);
    }

    /** Keeps the protocol state in step with a command just carried out. */
    ghost method Note(c: Command)
      requires Inv(store) && Enabled(store, c)
      modifies this`store
      ensures store == Apply(old(store), c) && Inv(store)
    {
      CommandKeeps(store, c);
      store := Apply(store, c);
    }

    /** `try_reserve_queue_slot`: succeeds exactly when there is room, and a failed
        attempt leaves counter and reservations as they were. */
    method TryReserveQueueSlot(process: int, queueLen: nat, request: int, expiry: real) returns (ok: bool)
      requires Valid() && queueLen == store.limit && Enabled(store, Incr(process, request, expiry))
      modifies this
      ensures Valid() && store.running == old(store.running) && store.limit == old(store.limit)
      ensures ok == (old(counter) < queueLen)
      ensures counter == old(counter) + if ok then 1 else 0
      ensures members == if ok then old(members)[request := expiry] else old(members)
      ensures store.granted == old(store.granted) + if ok then {request} else {}
    {
      hide Inv, Apply, Enabled;
      if counter + 1 > queueLen {
        IncrThenUndo(store, process, request, expiry);
      } else {
        IncrThenZadd(store, process, request, expiry);
      }
      counter := counter + 1;
      Note(Incr(process, request, expiry));
      if counter > queueLen {
        counter := counter - 1;
        Note(UndoDecr(process));
        return false;
      }
      members := members[request := expiry];
      Note(Zadd(process));
      ok := true;
    }

    /** `release_queue_slot` after a successful ZREM: the guard holds, so the
        counter goes down by exactly one. */
    method ReleaseQueueSlot(ghost process: int)
      requires Valid() && process in store.running && store.running[process].Checking?
      modifies this
      ensures Valid() && counter == old(counter) - 1 && members == old(members)
      ensures store.running == Continue(old(store.running), process, old(store.running)[process].todo)
      ensures store.released == old(store.released) + multiset{old(store.running)[process].request}
      ensures store.limit == old(store.limit) && store.granted == old(store.granted)
    {
      PositiveWhenChecking(store, process);
      Note(Get(process));
      if counter > 0 {
        counter := counter - 1;
        Note(Decr(process));
        assert store.running == Continue(old(store.running), process, old(store.running)[process].todo);
      }
    }

    /** The end of the worker's `process`: only the one who removes the member
        gives its unit back. */
    method ReleaseAfterProcessing(ghost process: int, request: int) returns (removed: bool)
      requires Valid() && process !in store.running
      modifies this
      ensures Valid() && store.running == old(store.running)
      ensures removed == (request in old(members))
      ensures members == old(members) - {request} && counter == old(counter) - if removed then 1 else 0
    {
      hide Inv, Apply, Enabled;
      ZremEffect(store, process, request);
      removed := request in members;
      members := members - {request};
      Note(WorkerZrem(process, request));
      if removed {
        ReleaseQueueSlot(process);
      }
    }

    /** `zrangebyscore(-inf, now)`. */
    method ExpiredMembers(now: real) returns (expired: seq<int>)
      ensures ListsExpired(members, now, expired)
    {
      expired := [];
      var rest := set m | m in members && members[m] <= now;
      while rest != {}
        invariant forall i, j :: 0 <= i < j < |expired| ==> expired[i] != expired[j]
        invariant forall m :: m in expired ==> m !in rest
        invariant forall m :: m in expired || m in rest <==> m in members && members[m] <= now
        decreases |rest|
      {
        ghost var some := Pick(rest);
        var m: int :| m in rest;
        expired := expired + [m];
        rest := rest - {m};
      }
    }

    /** One expired member: the sweeper, too, gives back a unit only if it was the
        one to remove the member. */
    method SweepOne(ghost process: int, member: int) returns (removed: bool)
      requires Valid() && process in store.running && store.running[process].Sweeping?
      requires store.running[process].todo != [] && store.running[process].todo[0] == member
      modifies this
      ensures Valid() && store.running == Continue(old(store.running), process, old(store.running)[process].todo[1..])
      ensures removed == (member in old(members))
      ensures members == old(members) - {member} && counter == old(counter) - if removed then 1 else 0
    {
      hide Inv;
      removed := member in members;
      members := members - {member};
      Note(SweeperZrem(process));
      if removed {
        ReleaseQueueSlot(process);
      } else {
        assert old(members) - {member} == old(members);
      }
    }

    /** `sweep_expired_reservations` for this replica: removes exactly the expired
        reservations and gives back one unit for each. */
    method SweepExpired(ghost process: int, now: real) returns (released: nat)
      requires Valid() && process !in store.running
      modifies this
      ensures Valid() && store.running == old(store.running)
      ensures members == map m | m in old(members) && old(members)[m] > now :: old(members)[m]
      ensures counter == old(counter) - released
    {
      hide Inv, Continue, Apply, SetOf;
      ghost var before, held := store.running, members;
      var expired := ExpiredMembers(now);
      ScanStarts(store, process, now, expired);
      Note(Scan(process, now, expired));
      released := 0;
      var i := 0;
      while i < |expired|
        invariant 0 <= i <= |expired| && Valid() && counter == old(counter) - released
        invariant store.running == Continue(before, process, expired[i..])
        invariant members == held - SetOf(expired[..i])
      {
        SweepGoesOn(before, process, expired, i);
        RemoveNext(held, expired, i);
        var removed := SweepOne(process, expired[i]);
        if removed {
          released := released + 1;
        }
        i := i + 1;
      }
      SweepEnds(before, process, expired);
      RemovedAll(held, now, expired);
    }
  }

  function SetOf(list: seq<int>): set<int> {
    set m | m in list
  }

  lemma ScanStarts(s: Store, process: int, now: real, expired: seq<int>)
    requires Enabled(s, Scan(process, now, expired))
    ensures var t := Apply(s, Scan(process, now, expired));
            t == s.(running := Continue(s.running, process, expired)) && expired[0..] == expired && expired[..0] == []
    ensures s.members - SetOf([]) == s.members
  {
  }

  lemma SweepGoesOn(running: map<int, Process>, process: int, expired: seq<int>, i: nat)
    requires process !in running && i < |expired|
    ensures var r := Continue(running, process, expired[i..]);
            && process in r && r[process] == Sweeping(expired[i..])
            && expired[i..][0] == expired[i] && expired[i..][1..] == expired[i + 1..]
            && Continue(r, process, expired[i + 1..]) == Continue(running, process, expired[i + 1..])
  {
  }

  lemma SweepEnds(running: map<int, Process>, process: int, expired: seq<int>)
    requires process !in running
    ensures Continue(running, process, expired[|expired|..]) == running
  {
    assert expired[|expired|..] == [];
    assert running - {process} == running;
  }

  lemma RemoveNext(held: map<int, real>, expired: seq<int>, i: nat)
    requires i < |expired|
    ensures held - SetOf(expired[..i]) - {expired[i]} == held - SetOf(expired[..i + 1])
  {
    assert expired[..i + 1] == expired[..i] + [expired[i]];
    assert SetOf(expired[..i + 1]) == SetOf(expired[..i]) + {expired[i]};
  }

  lemma RemovedAll(held: map<int, real>, now: real, expired: seq<int>)
    requires ListsExpired(held, now, expired)
    ensures held - SetOf(expired[..|expired|]) == map m | m in held && held[m] > now :: held[m]
  {
    assert expired[..|expired|] == expired;
    forall m ensures m in SetOf(expired) <==> m in held && held[m] <= now {
      assert m in expired <==> m in held && held[m] <= now;
    }
    forall m | m in held ensures m in held - SetOf(expired) <==> held[m] > now {
    }
  }
}
