/** The timelock example: a queue of calls, walked by snapshot while executed and expired calls leave it. */
module Timelocks {
  import opened Basics
  import Types

  const MAX_PER_RUN := 10

  datatype Call = Call(target: Types.Address, function_: string, args: seq<Types.Val>, eta: u64)

  /** A call that ran: its id, when, and the eta it was queued with. */
  datatype Execution = Execution(id: u64, at: u64, eta: u64)

  /** Storage, plus the history a run is judged by: when each id was queued and what was executed. */
  datatype Timelock = Timelock(
    admin: Types.Address,
    delay: u64,
    grace: u64,
    nextId: u64,
    queue: seq<u64>,
    calls: map<u64, Call>,
    queuedAt: map<u64, u64>,
    done: seq<Execution>)

  datatype Error = EtaTooSoon | UnknownCall | HostPanic

  datatype Result<+T> = Ok(value: T) | Err(error: Error)

  // ------------------------------------------------------------------ entry points

  function QueueCallOn(t: Timelock, now: u64, caller: Types.Address, call: Call): Result<Timelock> {
    if caller != t.admin then Err(HostPanic)
    else if call.eta < Sat64(now + t.delay) then Err(EtaTooSoon)
    else if t.nextId == U64_MAX then Err(HostPanic)
    else
      Ok(t.(nextId := t.nextId + 1, calls := t.calls[t.nextId := call], queue := t.queue + [t.nextId],
            queuedAt := t.queuedAt[t.nextId := now]))
  }

  function Remove(t: Timelock, id: u64): Timelock {
    if id in t.queue then t.(queue := RemoveFirst(t.queue, id), calls := t.calls - {id}) else t
  }

  function CancelCallOn(t: Timelock, caller: Types.Address, id: u64): Result<Timelock> {
    if caller != t.admin then Err(HostPanic)
    else if id !in t.queue then Err(UnknownCall)
    else Ok(Remove(t, id))
  }

  predicate IsExpired(t: Timelock, call: Call, now: u64) {
    Sat64(call.eta + t.grace) <= now
  }

  /** What one step of the walk does with `id`; `works` says whether the target call succeeds. */
  function Visit(t: Timelock, now: u64, id: u64, works: bool): Timelock {
    if id !in t.calls || now < t.calls[id].eta then t
    else if IsExpired(t, t.calls[id], now) then Remove(t, id)
    else if works then Remove(t, id).(done := t.done + [Execution(id, now, t.calls[id].eta)])
    else t
  }

  /** The walk over what is left of the snapshot, with `executed` calls made so far. */
  function Walk(t: Timelock, now: u64, ids: seq<u64>, works: u64 -> bool, executed: nat): Timelock
    decreases |ids|
  {
    if ids == [] || MAX_PER_RUN <= executed then t
    else
      var t' := Visit(t, now, ids[0], works(ids[0]));
      Walk(t', now, ids[1..], works, executed + |t'.done| - |t.done|)
  }

  function ExecuteReadyOn(t: Timelock, now: u64, works: u64 -> bool): Timelock {
    Walk(t, now, t.queue, works, 0)
  }

  predicate ShouldRun(t: Timelock, now: u64) {
    exists id :: id in t.queue && id in t.calls && t.calls[id].eta <= now
  }

  datatype Op =
    | Queue(caller: Types.Address, call: Call)
    | Cancel(caller: Types.Address, id: u64)
    | Execute(works: u64 -> bool)

  function Step(t: Timelock, now: u64, op: Op): Timelock {
    match op
    case Queue(caller, call) => (match QueueCallOn(t, now, caller, call) case Ok(t') => t' case Err(_) => t)
    case Cancel(caller, id) => (match CancelCallOn(t, caller, id) case Ok(t') => t' case Err(_) => t)
    case Execute(works) => ExecuteReadyOn(t, now, works)
  }

  // ------------------------------------------------------------------ what every history keeps

  predicate Increasing(queue: seq<u64>) {
    forall i, j :: 0 <= i < j < |queue| ==> queue[i] < queue[j]
  }

  predicate SameIds(queue: seq<u64>, calls: map<u64, Call>) {
    forall id: u64 :: id in queue <==> id in calls
  }

  /** The queue is strictly increasing and holds exactly the ids with a stored call; the delay was respected. */
  ghost predicate Tidy(t: Timelock) {
    && Increasing(t.queue) && SameIds(t.queue, t.calls)
    && (forall id :: id in t.queuedAt ==> id < t.nextId)
    && (forall id :: id in t.calls ==> id in t.queuedAt && Sat64(t.queuedAt[id] + t.delay) <= t.calls[id].eta)
  }

  /** Each id ran at most once, within its grace period, at least the delay after it was queued. */
  ghost predicate Honest(t: Timelock) {
    && (forall i, j :: 0 <= i < j < |t.done| ==> t.done[i].id != t.done[j].id)
    && (forall i :: 0 <= i < |t.done| ==>
          var e := t.done[i];
          && e.id !in t.calls && e.id in t.queuedAt
          && Sat64(t.queuedAt[e.id] + t.delay) <= e.eta
          && e.eta <= e.at < Sat64(e.eta + t.grace))
  }

  lemma {:induction false} RemovalKeepsOrder(queue: seq<u64>, id: u64)
    requires Increasing(queue)
    ensures Increasing(RemoveFirst(queue, id))
    ensures forall x :: x in RemoveFirst(queue, id) <==> x in queue && x != id
  {
    if queue != [] {
      var tail := queue[1..];
      assert Increasing(tail);
      RemovalKeepsOrder(tail, id);
      assert forall x :: x in queue <==> x == queue[0] || x in tail;
      assert forall x :: x in tail ==> queue[0] < x;
      if queue[0] != id {
        PrependIncreasing(queue[0], RemoveFirst(tail, id));
      }
    }
  }

  lemma PrependIncreasing(x: u64, tail: seq<u64>)
    requires Increasing(tail) && forall y :: y in tail ==> x < y
    ensures Increasing([x] + tail)
  {
    assert forall j :: 0 <= j < |tail| ==> tail[j] in tail;
  }

  lemma AppendIncreasing(queue: seq<u64>, x: u64)
    requires Increasing(queue) && forall y :: y in queue ==> y < x
    ensures Increasing(queue + [x])
  {
    assert forall j :: 0 <= j < |queue| ==> queue[j] in queue;
  }

  lemma RemoveKeeps(t: Timelock, id: u64)
    requires Tidy(t) && Honest(t)
    ensures Tidy(Remove(t, id)) && Honest(Remove(t, id))
    ensures Remove(t, id).calls == t.calls - {id}
    ensures forall x :: x in Remove(t, id).queue <==> x in t.queue && x != id
  {
    RemovalKeepsOrder(t.queue, id);
    if id in t.queue {
      hide Tidy, Honest;
      DropKeeps(t, Remove(t, id), id);
    } else {
      assert t.calls - {id} == t.calls;
    }
  }

  lemma DropKeeps(t: Timelock, t': Timelock, id: u64)
    requires Tidy(t) && Honest(t) && Increasing(t'.queue)
    requires t' == t.(queue := t'.queue, calls := t.calls - {id})
    requires forall x :: x in t'.queue <==> x in t.queue && x != id
    ensures Tidy(t') && Honest(t')
  {
    hide Increasing;
  }

  lemma VisitKeeps(t: Timelock, now: u64, id: u64, works: bool)
    requires Tidy(t) && Honest(t)
    ensures var t' := Visit(t, now, id, works);
            && Tidy(t') && Honest(t')
            && |t.done| <= |t'.done| <= |t.done| + 1
  {
    hide RemoveFirst;
    RemoveKeeps(t, id);
    hide Remove, Increasing;
  }

  lemma {:induction false} WalkKeeps(t: Timelock, now: u64, ids: seq<u64>, works: u64 -> bool, executed: nat)
    requires Tidy(t) && Honest(t) && executed <= MAX_PER_RUN
    ensures var t' := Walk(t, now, ids, works, executed);
            && Tidy(t') && Honest(t')
            && |t.done| <= |t'.done| && executed + |t'.done| - |t.done| <= MAX_PER_RUN
    decreases |ids|
  {
    hide Tidy, Honest, Visit;
    if ids != [] && executed < MAX_PER_RUN {
      VisitKeeps(t, now, ids[0], works(ids[0]));
      var t' := Visit(t, now, ids[0], works(ids[0]));
      WalkKeeps(t', now, ids[1..], works, executed + |t'.done| - |t.done|);
    }
  }

  lemma QueueKeeps(t: Timelock, now: u64, caller: Types.Address, call: Call)
    requires Tidy(t) && Honest(t) && QueueCallOn(t, now, caller, call).Ok?
    ensures Tidy(QueueCallOn(t, now, caller, call).value) && Honest(QueueCallOn(t, now, caller, call).value)
  {
    assert t.nextId !in t.queuedAt;
    forall x | x in t.queue
      ensures x < t.nextId
    {
      assert x in t.calls;
    }
    AppendIncreasing(t.queue, t.nextId);
    hide Increasing;
  }

  lemma StepKeeps(t: Timelock, now: u64, op: Op)
    requires Tidy(t) && Honest(t)
    ensures Tidy(Step(t, now, op)) && Honest(Step(t, now, op))
  {
    hide Tidy, Honest;
    match op
    case Queue(caller, call) =>
      if QueueCallOn(t, now, caller, call).Ok? {
        QueueKeeps(t, now, caller, call);
      }
    case Cancel(_, id) => RemoveKeeps(t, id);
    case Execute(works) => WalkKeeps(t, now, t.queue, works, 0);
  }

  /** Any sequence of calls, each at its time, from the constructor on. */
  function History(admin: Types.Address, delay: u64, grace: u64, ops: seq<(u64, Op)>): Timelock {
    if ops == [] then Timelock(admin, delay, grace, 0, [], map[], map[], [])
    else
      var last := ops[|ops| - 1];
      Step(History(admin, delay, grace, ops[..|ops| - 1]), last.0, last.1)
  }

  /**
   * Whatever is called in whatever order, the queue holds exactly the stored
   * calls in order of age, and every call that ever ran did so once, at least
   * the delay after it was queued and within its grace period.
   */
  lemma {:induction false} EveryHistoryIsHonest(admin: Types.Address, delay: u64, grace: u64, ops: seq<(u64, Op)>)
    ensures Tidy(History(admin, delay, grace, ops)) && Honest(History(admin, delay, grace, ops))
  {
    hide Step;
    if ops != [] {
      hide Tidy, Honest;
      EveryHistoryIsHonest(admin, delay, grace, ops[..|ops| - 1]);
      StepKeeps(History(admin, delay, grace, ops[..|ops| - 1]), ops[|ops| - 1].0, ops[|ops| - 1].1);
    }
  }

  // ------------------------------------------------------------------ what one run achieves

  /** A call the walk leaves in the queue: not due yet, or failing within its grace period. */
  predicate Stays(t: Timelock, now: u64, call: Call, works: bool) {
    now < call.eta || (!IsExpired(t, call, now) && !works)
  }

  lemma VisitEffect(t: Timelock, now: u64, id: u64, works: bool)
    requires Tidy(t) && Honest(t)
    ensures var t' := Visit(t, now, id, works);
            && t'.grace == t.grace
            && t'.calls == if id in t.calls && !Stays(t, now, t.calls[id], works) then t.calls - {id} else t.calls
  {
    RemoveKeeps(t, id);
    hide RemoveFirst, Tidy, Honest;
  }

  lemma {:induction false} WalkEffect(t: Timelock, now: u64, ids: seq<u64>, works: u64 -> bool, executed: nat)
    requires Tidy(t) && Honest(t) && executed <= MAX_PER_RUN
    requires executed + |Walk(t, now, ids, works, executed).done| - |t.done| < MAX_PER_RUN
    ensures var t' := Walk(t, now, ids, works, executed);
            && t'.calls.Keys <= t.calls.Keys
            && forall id :: id in t.calls ==>
                              && (id in t'.calls <==> id !in ids || Stays(t, now, t.calls[id], works(id)))
                              && (id in t'.calls ==> t'.calls[id] == t.calls[id])
    decreases |ids|
  {
    hide Tidy, Honest, Visit, IsExpired;
    if ids != [] {
      var t1 := Visit(t, now, ids[0], works(ids[0]));
      WalkKeeps(t, now, ids, works, executed);
      VisitKeeps(t, now, ids[0], works(ids[0]));
      VisitEffect(t, now, ids[0], works(ids[0]));
      WalkKeeps(t1, now, ids[1..], works, executed + |t1.done| - |t.done|);
      WalkEffect(t1, now, ids[1..], works, executed + |t1.done| - |t.done|);
      StaysReadsGrace(t, t1, now);
      assert forall id :: id in ids <==> id == ids[0] || id in ids[1..];
    }
  }

  lemma StaysReadsGrace(t: Timelock, t1: Timelock, now: u64)
    requires t1.grace == t.grace
    ensures forall call: Call, works: bool :: Stays(t1, now, call, works) == Stays(t, now, call, works)
  {
  }

  /**
   * A run that stops below its limit has cleared the queue: what is left is
   * exactly what was not due yet or failed, although entries left the queue
   * while its snapshot was walked.
   */
  lemma RunClearsQueue(t: Timelock, now: u64, works: u64 -> bool)
    requires Tidy(t) && Honest(t) && |ExecuteReadyOn(t, now, works).done| - |t.done| < MAX_PER_RUN
    ensures forall id ::
              id in ExecuteReadyOn(t, now, works).queue
              <==> id in t.queue && id in t.calls && Stays(t, now, t.calls[id], works(id))
    ensures ShouldRun(ExecuteReadyOn(t, now, works), now) ==>
              exists id :: id in t.calls && t.calls[id].eta <= now && !works(id)
  {
    WalkKeeps(t, now, t.queue, works, 0);
    WalkEffect(t, now, t.queue, works, 0);
    hide Walk, Increasing, Honest, IsExpired;
  }

  // ------------------------------------------------------------------ what one run executes

  /** The call `id` is stored, due, within its grace period, and its target call succeeds. */
  predicate Ready(t: Timelock, now: u64, id: u64, works: u64 -> bool) {
    id in t.calls && t.calls[id].eta <= now < Sat64(t.calls[id].eta + t.grace) && works(id)
  }

  /** The executions that the ready ones among `ids` call for, in order. */
  function ReadyAmong(t: Timelock, now: u64, ids: seq<u64>, works: u64 -> bool): seq<Execution> {
    if ids == [] then []
    else
      (if Ready(t, now, ids[0], works) then [Execution(ids[0], now, t.calls[ids[0]].eta)] else [])
      + ReadyAmong(t, now, ids[1..], works)
  }

  function FirstOf<T>(xs: seq<T>, n: nat): seq<T> {
    if |xs| <= n then xs else xs[..n]
  }

  lemma {:induction false} ReadyAmongReads(t: Timelock, t': Timelock, now: u64, ids: seq<u64>, works: u64 -> bool)
    requires t'.grace == t.grace
    requires forall id :: id in ids ==> (id in t.calls <==> id in t'.calls)
    requires forall id :: id in ids && id in t.calls ==> t'.calls[id] == t.calls[id]
    ensures ReadyAmong(t', now, ids, works) == ReadyAmong(t, now, ids, works)
  {
    if ids != [] {
      assert ids[0] in ids && forall id :: id in ids[1..] ==> id in ids;
      ReadyAmongReads(t, t', now, ids[1..], works);
    }
  }

  lemma VisitExecutes(t: Timelock, now: u64, id: u64, works: u64 -> bool)
    requires Tidy(t)
    ensures var t' := Visit(t, now, id, works(id));
            && t'.done == t.done + (if Ready(t, now, id, works) then [Execution(id, now, t.calls[id].eta)] else [])
            && t'.grace == t.grace && (t'.calls == t.calls || t'.calls == t.calls - {id})
  {
    hide RemoveFirst, Increasing;
  }

  lemma TakeOneMore<T>(one: seq<T>, rest: seq<T>, n: nat)
    requires |one| <= n
    ensures FirstOf(one + rest, n) == one + FirstOf(rest, n - |one|)
    ensures FirstOf(rest, 0) == []
  {
  }

  lemma ReadyFirst(t: Timelock, now: u64, ids: seq<u64>, works: u64 -> bool)
    ensures ids == [] ==> ReadyAmong(t, now, ids, works) == []
    ensures ids != [] ==>
              ReadyAmong(t, now, ids, works)
              == (if Ready(t, now, ids[0], works) then [Execution(ids[0], now, t.calls[ids[0]].eta)] else [])
                 + ReadyAmong(t, now, ids[1..], works)
  {
    hide Ready;
  }

  /** Whatever the queue edits, the walk executes the first of the ready calls, up to its limit, in order. */
  lemma {:induction false} WalkExecutes(t: Timelock, now: u64, ids: seq<u64>, works: u64 -> bool, executed: nat)
    requires Tidy(t) && Honest(t) && Distinct(ids) && executed <= MAX_PER_RUN
    ensures Walk(t, now, ids, works, executed).done
         == t.done + FirstOf(ReadyAmong(t, now, ids, works), MAX_PER_RUN - executed)
    decreases |ids|
  {
    hide Tidy, Honest, Visit, Ready, ReadyAmong, FirstOf;
    var ready := ReadyAmong(t, now, ids, works);
    ReadyFirst(t, now, ids, works);
    TakeOneMore([], ready, MAX_PER_RUN - executed);
    if ids == [] {
      NothingToTake<Execution>(MAX_PER_RUN - executed);
    } else if executed < MAX_PER_RUN {
      var t1, rest := Visit(t, now, ids[0], works(ids[0])), ids[1..];
      VisitKeeps(t, now, ids[0], works(ids[0]));
      VisitExecutes(t, now, ids[0], works);
      WalkExecutes(t1, now, rest, works, executed + |t1.done| - |t.done|);
      assert ids[0] !in rest;
      ReadyAmongReads(t, t1, now, rest, works);
      TakeOneMore(t1.done[|t.done|..], ReadyAmong(t, now, rest, works), MAX_PER_RUN - executed);
    }
  }

  lemma NothingToTake<T>(n: nat)
    ensures FirstOf<T>([], n) == []
  {
  }

  lemma IncreasingIsDistinct(queue: seq<u64>)
    requires Increasing(queue)
    ensures Distinct(queue)
  {
  }

  /**
   * A run executes exactly the first ten of the calls that are queued, due,
   * within their grace period and succeed, each once, now, in queue order.
   */
  lemma RunExecutesReady(t: Timelock, now: u64, works: u64 -> bool)
    requires Tidy(t) && Honest(t)
    ensures ExecuteReadyOn(t, now, works).done
         == t.done + FirstOf(ReadyAmong(t, now, t.queue, works), MAX_PER_RUN)
  {
    hide Walk, Ready;
    IncreasingIsDistinct(t.queue);
    WalkExecutes(t, now, t.queue, works, 0);
  }

  lemma {:induction false} ReadyAmongHolds(t: Timelock, now: u64, ids: seq<u64>, works: u64 -> bool, id: u64)
    ensures (exists e :: e in ReadyAmong(t, now, ids, works) && e.id == id) <==> id in ids && Ready(t, now, id, works)
    ensures forall e :: e in ReadyAmong(t, now, ids, works) ==>
              e.at == now && e.id in t.calls && e.eta == t.calls[e.id].eta
  {
    if ids != [] {
      ReadyAmongHolds(t, now, ids[1..], works, id);
      var one := if Ready(t, now, ids[0], works) then [Execution(ids[0], now, t.calls[ids[0]].eta)] else [];
      hide Ready;
      assert ReadyAmong(t, now, ids, works) == one + ReadyAmong(t, now, ids[1..], works);
      assert id in ids <==> id == ids[0] || id in ids[1..];
      if one != [] {
        assert one[0] in ReadyAmong(t, now, ids, works);
      }
    }
  }

  /** Below the limit: `id` is executed in this run exactly when it is queued, due, not expired, and succeeds. */
  lemma RunExecutesExactly(t: Timelock, now: u64, works: u64 -> bool, id: u64)
    requires Tidy(t) && Honest(t) && |ExecuteReadyOn(t, now, works).done| - |t.done| < MAX_PER_RUN
    ensures t.done <= ExecuteReadyOn(t, now, works).done
    ensures (exists e :: e in ExecuteReadyOn(t, now, works).done[|t.done|..] && e.id == id)
       <==> id in t.queue && id in t.calls
            && t.calls[id].eta <= now < Sat64(t.calls[id].eta + t.grace) && works(id)
    ensures forall e :: e in ExecuteReadyOn(t, now, works).done[|t.done|..] ==>
              e.at == now && e.id in t.calls && e.eta == t.calls[e.id].eta
  {
    hide Walk, Tidy, Honest, ReadyAmong, ExecuteReadyOn;
    RunExecutesReady(t, now, works);
    ReadyAmongHolds(t, now, t.queue, works, id);
    assert ExecuteReadyOn(t, now, works).done[|t.done|..] == FirstOf(ReadyAmong(t, now, t.queue, works), MAX_PER_RUN);
  }

  // ------------------------------------------------------------------ where calls go

  /** An execution of `id` is among those made between `t` and `t'`. */
  ghost predicate ExecutedSince(t: Timelock, t': Timelock, id: u64) {
    |t.done| <= |t'.done| && exists e :: e in t'.done[|t.done|..] && e.id == id
  }

  lemma VisitLeaves(t: Timelock, now: u64, id: u64, works: bool, other: u64)
    requires Tidy(t) && other in t.calls && other !in Visit(t, now, id, works).calls
    ensures Sat64(t.calls[other].eta + t.grace) <= now || ExecutedSince(t, Visit(t, now, id, works), other)
  {
    hide RemoveFirst, Increasing;
    var t' := Visit(t, now, id, works);
    if Sat64(t.calls[other].eta + t.grace) > now {
      assert t'.done[|t.done|..] == [Execution(id, now, t.calls[id].eta)];
      assert t'.done[|t.done|..][0].id == other;
    }
  }

  lemma {:induction false} WalkLeaves(t: Timelock, now: u64, ids: seq<u64>, works: u64 -> bool, executed: nat, id: u64)
    requires Tidy(t) && Honest(t) && executed <= MAX_PER_RUN
    requires id in t.calls && id !in Walk(t, now, ids, works, executed).calls
    ensures Sat64(t.calls[id].eta + t.grace) <= now || ExecutedSince(t, Walk(t, now, ids, works, executed), id)
    decreases |ids|
  {
    hide Tidy, Honest, Visit, ExecutedSince;
    if ids != [] && executed < MAX_PER_RUN {
      var t1 := Visit(t, now, ids[0], works(ids[0]));
      var next := executed + |t1.done| - |t.done|;
      VisitKeeps(t, now, ids[0], works(ids[0]));
      VisitExecutes(t, now, ids[0], works);
      WalkGrows(t1, now, ids[1..], works, next);
      if id in t1.calls {
        WalkLeaves(t1, now, ids[1..], works, next, id);
        LaterExecution(t, t1, Walk(t1, now, ids[1..], works, next), id);
      } else {
        VisitLeaves(t, now, ids[0], works(ids[0]), id);
        LaterExecution(t, t1, Walk(t1, now, ids[1..], works, next), id);
      }
    }
  }

  lemma {:induction false} WalkGrows(t: Timelock, now: u64, ids: seq<u64>, works: u64 -> bool, executed: nat)
    requires Tidy(t) && Honest(t) && executed <= MAX_PER_RUN
    ensures t.done <= Walk(t, now, ids, works, executed).done
    decreases |ids|
  {
    hide Tidy, Honest, Visit, Ready;
    if ids != [] && executed < MAX_PER_RUN {
      VisitKeeps(t, now, ids[0], works(ids[0]));
      VisitExecutes(t, now, ids[0], works);
      var t1 := Visit(t, now, ids[0], works(ids[0]));
      WalkGrows(t1, now, ids[1..], works, executed + |t1.done| - |t.done|);
    }
  }

  lemma LaterExecution(t: Timelock, t1: Timelock, t': Timelock, id: u64)
    requires t.done <= t1.done <= t'.done
    ensures ExecutedSince(t, t1, id) || ExecutedSince(t1, t', id) ==> ExecutedSince(t, t', id)
  {
    var later := t'.done[|t.done|..];
    if ExecutedSince(t, t1, id) {
      var e :| e in t1.done[|t.done|..] && e.id == id;
      assert t1.done[|t.done|..] <= later;
      assert e in later;
    } else if ExecutedSince(t1, t', id) {
      var e :| e in t'.done[|t1.done|..] && e.id == id;
      var i :| 0 <= i < |t'.done[|t1.done|..]| && t'.done[|t1.done|..][i] == e;
      assert later[|t1.done| - |t.done| + i] == e;
    }
  }

  /** How a stored call can leave storage: cancelled by the admin, expired, or executed. */
  ghost predicate LeavesProperly(t: Timelock, now: u64, op: Op, id: u64) {
    && id in t.calls
    && match op
       case Queue(_, _) => false
       case Cancel(caller, j) => caller == t.admin && j == id
       case Execute(_) => Sat64(t.calls[id].eta + t.grace) <= now || ExecutedSince(t, Step(t, now, op), id)
  }

  /** No call is lost: whatever is called, a stored call stays as it was or leaves properly. */
  lemma StepLosesNoCall(t: Timelock, now: u64, op: Op, id: u64)
    requires Tidy(t) && Honest(t) && id in t.calls
    ensures var t' := Step(t, now, op);
            if id in t'.calls then t'.calls[id] == t.calls[id] else LeavesProperly(t, now, op, id)
  {
    assert forall x: u64 :: x in t.queue <==> x in t.calls;
    assert t.nextId !in t.calls;
    match op
    case Queue(_, _) =>
    case Cancel(_, j) => hide RemoveFirst, Honest, Tidy;
    case Execute(works) =>
      hide Walk, Tidy, Honest, ExecutedSince;
      WalkKeepsCalls(t, now, t.queue, works, 0);
      if id !in ExecuteReadyOn(t, now, works).calls {
        WalkLeaves(t, now, t.queue, works, 0, id);
      }
  }

  lemma {:induction false} WalkKeepsCalls(t: Timelock, now: u64, ids: seq<u64>, works: u64 -> bool, executed: nat)
    requires Tidy(t) && Honest(t) && executed <= MAX_PER_RUN
    ensures forall id :: id in Walk(t, now, ids, works, executed).calls ==>
              id in t.calls && Walk(t, now, ids, works, executed).calls[id] == t.calls[id]
    decreases |ids|
  {
    hide Tidy, Honest, Visit, Ready;
    if ids != [] && executed < MAX_PER_RUN {
      VisitKeeps(t, now, ids[0], works(ids[0]));
      VisitExecutes(t, now, ids[0], works);
      var t1 := Visit(t, now, ids[0], works(ids[0]));
      WalkKeepsCalls(t1, now, ids[1..], works, executed + |t1.done| - |t.done|);
    }
  }

  /** Over any history: every id ever given out is still stored, or left properly at some call. */
  lemma {:induction false} EveryCallIsAccountedFor(admin: Types.Address, delay: u64, grace: u64, ops: seq<(u64, Op)>,
                                                   id: u64)
    requires id < History(admin, delay, grace, ops).nextId
    ensures id in History(admin, delay, grace, ops).calls
         || exists i :: 0 <= i < |ops|
                        && LeavesProperly(History(admin, delay, grace, ops[..i]), ops[i].0, ops[i].1, id)
  {
    hide Tidy, Honest, LeavesProperly, Step;
    if ops != [] {
      var n := |ops| - 1;
      var t := History(admin, delay, grace, ops[..n]);
      EveryHistoryIsHonest(admin, delay, grace, ops[..n]);
      StepHandsOut(t, ops[n].0, ops[n].1);
      if id < t.nextId {
        EveryCallIsAccountedFor(admin, delay, grace, ops[..n], id);
        if id in t.calls {
          StepLosesNoCall(t, ops[n].0, ops[n].1, id);
        } else {
          var i :| 0 <= i < n
                   && LeavesProperly(History(admin, delay, grace, ops[..n][..i]), ops[..n][i].0, ops[..n][i].1, id);
          assert ops[..n][..i] == ops[..i];
        }
      }
    }
  }

  /** An id is handed out only together with a stored call, and the call is the one that was queued. */
  lemma StepHandsOut(t: Timelock, now: u64, op: Op)
    requires Tidy(t) && Honest(t)
    ensures var t' := Step(t, now, op);
            && t.nextId <= t'.nextId <= t.nextId + 1
            && (t'.nextId != t.nextId ==>
                  && op.Queue? && op.caller == t.admin && t.nextId in t'.calls && t'.calls[t.nextId] == op.call
                  && t'.queue == t.queue + [t.nextId] && Sat64(now + t.delay) <= op.call.eta)
            && (op.Queue? && op.caller == t.admin && Sat64(now + t.delay) <= op.call.eta && t.nextId < U64_MAX ==>
                  t'.nextId == t.nextId + 1)
  {
    match op
    case Queue(_, _) =>
    case Cancel(_, _) => hide RemoveFirst, Tidy, Honest;
    case Execute(works) => WalkKeepsNextId(t, now, t.queue, works, 0); hide Walk;
  }

  lemma {:induction false} WalkKeepsNextId(t: Timelock, now: u64, ids: seq<u64>, works: u64 -> bool, executed: nat)
    ensures executed <= MAX_PER_RUN && Tidy(t) && Honest(t) ==>
              Walk(t, now, ids, works, executed).nextId == t.nextId
    decreases |ids|
  {
    hide Tidy, Honest, RemoveFirst;
    if ids != [] && executed < MAX_PER_RUN && Tidy(t) && Honest(t) {
      VisitKeeps(t, now, ids[0], works(ids[0]));
      var t1 := Visit(t, now, ids[0], works(ids[0]));
      WalkKeepsNextId(t1, now, ids[1..], works, executed + |t1.done| - |t.done|);
    }
  }

  // ------------------------------------------------------------------ the contract

  class TimelockContract {
    const admin: Types.Address
    const delay: u64
    const grace: u64
    var nextId: u64
    var queue: seq<u64>
    var calls: map<u64, Call>
    ghost var queuedAt: map<u64, u64>
    ghost var done: seq<Execution>

    ghost function Contents(): Timelock
      reads this
    {
      Timelock(admin, delay, grace, nextId, queue, calls, queuedAt, done)
    }

    constructor (admin: Types.Address, delay: u64, grace: u64)
      ensures Contents() == History(admin, delay, grace, [])
    {
      this.admin, this.delay, this.grace := admin, delay, grace;
      nextId, queue, calls := 0, [], map[];
      queuedAt, done := map[], [];
    }

    method QueueCall(now: u64, caller: Types.Address, call: Call) returns (r: Result<u64>)
      modifies this
      ensures match QueueCallOn(old(Contents()), now, caller, call)
              case Ok(t') => r == Ok(old(nextId)) && Contents() == t'
              case Err(e) => r == Err(e) && Contents() == old(Contents())
    {
      if caller != admin {
        return Err(HostPanic);
      }
      if call.eta < Sat64(now + delay) {
        return Err(EtaTooSoon);
      }
      if nextId == U64_MAX {
        return Err(HostPanic);
      }
      var id := nextId;
      nextId := id + 1;
      calls := calls[id := call];
      queue := queue + [id];
      queuedAt := queuedAt[id := now];
      r := Ok(id);
    }

    /** Drops `id` from the queue and its call from storage, if it is queued. */
    method RemoveId(id: u64) returns (found: bool)
      modifies this`queue, this`calls
      ensures found == (id in old(queue))
      ensures Contents() == Remove(old(Contents()), id)
    {
      var index := FirstIndexOf(queue, id);
      if index == |queue| {
        return false;
      }
      queue := queue[..index] + queue[index + 1..];
      calls := calls - {id};
      found := true;
    }

    method CancelCall(caller: Types.Address, id: u64) returns (r: Result<()>)
      modifies this
      ensures match CancelCallOn(old(Contents()), caller, id)
              case Ok(t') => r == Ok(()) && Contents() == t'
              case Err(e) => r == Err(e) && Contents() == old(Contents())
    {
      if caller != admin {
        return Err(HostPanic);
      }
      var found := RemoveId(id);
      r := if found then Ok(()) else Err(UnknownCall);
    }

    /** One step of the walk: expires or executes the call `id`, if it is still stored and due. */
    method VisitCall(now: u64, id: u64, works: bool) returns (ran: bool)
      modifies this
      ensures Contents() == Visit(old(Contents()), now, id, works)
      // the call runs exactly when it is due, within its grace period and its target succeeds
      ensures ran <==> id in old(calls) && works
                       && old(calls)[id].eta <= now < Min(U64_MAX, old(calls)[id].eta + grace)
      ensures done == old(done) + if ran then [Execution(id, now, old(calls)[id].eta)] else []
      // and only a call that ran or expired leaves storage
      ensures calls == if id in old(queue) && id in old(calls) && old(calls)[id].eta <= now
                          && (works || Min(U64_MAX, old(calls)[id].eta + grace) <= now)
                       then old(calls) - {id} else old(calls)
    {
      hide RemoveFirst;
      if id !in calls {
        return false;
      }
      var call := calls[id];
      if now < call.eta {
        return false;
      }
      if Sat64(call.eta + grace) <= now {
        var _ := RemoveId(id);
        return false;
      }
      if works {
        var _ := RemoveId(id);
        done := done + [Execution(id, now, call.eta)];
      }
      ran := works;
    }

    /** Walks a snapshot of the queue, stopping after ten executions, while the visits edit the queue itself. */
    method ExecuteReady(now: u64, works: u64 -> bool) returns (executed: nat)
      modifies this
      ensures Contents() == ExecuteReadyOn(old(Contents()), now, works)
      ensures executed == |done| - |old(done)|
      ensures old(Tidy(Contents()) && Honest(Contents())) ==>
                && done == old(done) + FirstOf(ReadyAmong(old(Contents()), now, old(queue), works), MAX_PER_RUN)
                && executed == Min(|ReadyAmong(old(Contents()), now, old(queue), works)|, MAX_PER_RUN)
    {
      hide Visit, Tidy, Honest, Ready, ReadyAmong;
      if Tidy(Contents()) && Honest(Contents()) {
        RunExecutesReady(Contents(), now, works);
      }
      executed := 0;
      var snapshot := queue;
      ghost var t := Contents();
      for i := 0 to |snapshot|
        invariant Walk(t, now, snapshot, works, 0) == Walk(Contents(), now, snapshot[i..], works, executed)
        invariant executed == |done| - |t.done|
      {
        if MAX_PER_RUN <= executed {
          break;
        }
        var id := snapshot[i];
        assert snapshot[i..][0] == id && snapshot[i..][1..] == snapshot[i + 1..];
        var ran := VisitCall(now, id, works(id));
        if ran {
          executed := executed + 1;
        }
      }
    }
  }
}
