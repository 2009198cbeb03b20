/** What a database clock that never goes back adds to the protocol: every opportunity that is not
    refunded costs a retry interval, so the 32-bit count of used attempts never fills up before
    the parent's deadline. */
module ProtocolClock {
  import opened Base
  import opened Rows
  import opened Protocol
  import opened ProtocolInvariant
  import opened ProtocolSteps
  import opened ProtocolTheorems
  import X = ExecutorState

  // ----- database time -----

  /** If the row still has this attempt, the attempt was registered no later than `now`. */
  predicate Later(db: Db, t: Id, attemptNo: int, now: Time) {
    t in db.tasks && db.tasks[t].attemptNo == attemptNo && db.tasks[t].registeredAt.Some? ==> db.tasks[t].registeredAt.value <= now
  }

  /** An answer is saved no earlier than the attempt it answers was registered. The registration's
      time was read before the attempt was sent, so a clock that never goes back gives this, in
      whatever order transactions read their times and commit. */
  predicate AnswersLater(s: State, ev: Event) {
    && (ev.OnTask? && ev.t.ESaveEvidence? ==> Later(s.db, ev.t.ev.key.task, ev.t.ev.key.attemptNo, ev.t.now))
    && (ev.OnTask? && ev.t.ESaveResult? ==> Later(s.db, ev.t.rd.result.task, ev.t.rd.result.attemptNo, ev.t.now))
  }

  ghost predicate Steady(s: State, events: seq<Event>)
    decreases |events|
  {
    events != [] ==> AnswersLater(s, events[0]) && Steady(Next(s, events[0]), events[1..])
  }

  // ----- the pace of attempts -----

  /** The earliest time at which `n` intervals have passed since the Instance started. */
  function Earliest(inst: Instance, n: int): Time
    requires inst.startedAt.Some?
  {
    inst.startedAt.value + n * (inst.config.retryInterval * SECOND)
  }

  /** Attempt number n of the budget was registered no earlier than n - 1 intervals after the
      start, and the next one waits for n. */
  predicate Paced(t: Task, inst: Instance) {
    && inst.startedAt.Some? && inst.deadlineAt == Some(inst.startedAt.value + inst.config.timeoutSeconds * SECOND)
    && (t.status == TaskRunning ==> t.registeredAt.Some? && Earliest(inst, t.usedAttempts - 1) <= t.registeredAt.value)
    && (t.status == TaskRetryWaiting ==> t.nextDispatchAt.Some? && Earliest(inst, t.usedAttempts) <= t.nextDispatchAt.value)
  }

  ghost predicate PaceOk(db: Db, t: Id) {
    t in db.tasks ==> db.tasks[t].instance in db.instances && Paced(db.tasks[t], db.instances[db.tasks[t].instance])
  }

  ghost predicate Paces(db: Db) { forall t {:trigger PaceOk(db, t)} :: PaceOk(db, t) }

  /** The interval a write reopens a Task with is its parent's. */
  predicate OwnInterval(w: TaskWrite, config: Config) {
    match w
    case Reject(_, _, _, retryInterval, _) => retryInterval == config.retryInterval
    case Report(_, _, _, status, _, _, retryInterval) => status == TaskRetryWaiting ==> retryInterval == config.retryInterval
    case Settle(_, _, _, processedAt, _, retryAt) => retryAt == processedAt + config.retryInterval * SECOND
    case Register(_, _, _, _) => true
    case Bind(_, _, _, _) => true
    case Busy(_, _, _) => true
  }

  lemma OneMore(inst: Instance, n: int)
    requires inst.startedAt.Some?
    ensures Earliest(inst, n) == Earliest(inst, n - 1) + inst.config.retryInterval * SECOND
  {
    var interval := inst.config.retryInterval * SECOND;
    assert n * interval == (n - 1) * interval + interval;
  }

  /** Registrations and settlements need no clock: their own conditions order their times. */
  lemma AssignPaces(t: Task, inst: Instance, w: TaskWrite, now: Time)
    requires Paced(t, inst) && (w.Register? || WellFormed(w)) && Matches(t, w) && OwnInterval(w, inst.config)
    requires !w.Register? && !w.Settle? && t.registeredAt.Some? ==> t.registeredAt.value <= now
    ensures Paced(Assign(t, w, now), inst)
  {
    OneMore(inst, t.usedAttempts);
  }

  lemma WritePaces(db: Db, id: Id, w: TaskWrite, now: Time)
    requires Paces(db) && (w.Register? || WellFormed(w))
    requires id in db.tasks && db.tasks[id].instance in db.instances && Matches(db.tasks[id], w)
    requires OwnInterval(w, db.instances[db.tasks[id].instance].config)
    requires !w.Register? && !w.Settle? ==> Later(db, id, w.attemptNo, now)
    ensures Paces(AfterWrite(db, id, w, now))
  {
    var db' := AfterWrite(db, id, w, now);
    forall t ensures PaceOk(db', t) {
      assert PaceOk(db, t);
      if t == id { AssignPaces(db.tasks[id], db.instances[db.tasks[id].instance], w, now); }
    }
  }

  /** Rows that only end, and parents that only move forward, keep the pace. */
  lemma OthersPace(a: Db, b: Db)
    requires Paces(a) && Evolves(a, b)
    requires forall t | t in b.tasks :: t in a.tasks && (b.tasks[t] == a.tasks[t] || !b.tasks[t].status.Unfinished())
    ensures Paces(b)
  {
    forall t ensures PaceOk(b, t) {
      assert PaceOk(a, t) && TaskMoves(a, b, t);
      if t in b.tasks { assert ParentMoves(a, b, a.tasks[t].instance); }
    }
  }

  lemma StartPaces(s: State, i: Id, t: Id, now: Time, confirmed: bool)
    requires Inv(s) && Paces(s.db)
    ensures Paces(CommitStart(s, i, t, now, confirmed).db)
  {
    var s' := CommitStart(s, i, t, now, confirmed);
    forall k ensures PaceOk(s'.db, k) {
      assert PaceOk(s.db, k) && LockOk(s.db, s.open, i) && RowOk(s.db, k);
    }
  }

  lemma RetryPaces(s: State, i: Id, now: Time, confirmed: bool)
    requires Inv(s) && Paces(s.db)
    ensures Paces(CommitRetry(s, i, now, confirmed).db)
  {
    if RetryCommits(s, i, now) {
      assert RowOk(s.db, s.open[i].purpose.task) && LockOk(s.db, s.open, i);
      WritePaces(s.db, s.open[i].purpose.task, RetryWrite(s, i, now), now);
    }
  }

  lemma ParentStepPaces(s: State, ev: ParentEvent)
    requires Inv(s) && Paces(s.db)
    ensures Paces(NextParent(s, ev).db)
  {
    match ev
    case ECommitStart(i, t, now, confirmed) => StartPaces(s, i, t, now, confirmed);
    case ECommitRetry(i, now, confirmed) => RetryPaces(s, i, now, confirmed);
    case _ =>
      ParentStepKeeps(s, ev);
      OthersPace(s.db, NextParent(s, ev).db);
  }

  lemma WriteTaskPaces(s: State, id: Id, w: TaskWrite, now: Time)
    requires Inv(s) && Paces(s.db) && !w.Register? && (w.Settle? || Later(s.db, id, w.attemptNo, now))
    requires id in s.db.tasks && s.db.tasks[id].instance in s.db.instances && Applies(s.db, id, w) ==>
               OwnInterval(w, s.db.instances[s.db.tasks[id].instance].config)
    ensures Paces(WriteTask(s, id, w, now).db)
  {
    if WellFormed(w) && Applies(s.db, id, w) {
      assert RowOk(s.db, id);
      WritePaces(s.db, id, w, now);
    }
  }

  lemma TaskStepPaces(s: State, ev: TaskEvent)
    requires Inv(s) && Paces(s.db) && AnswersLater(s, OnTask(ev))
    ensures Paces(NextTask(s, ev).db)
  {
    match ev
    case ESaveEvidence(v, now) =>
      assert EvidenceOk(s.db, s.net, s.hist.home, v);
      if v in s.net.evidence { WriteTaskPaces(s, v.key.task, EvidenceWrite(v), now); }
    case ESaveResult(rd, now) =>
      assert ResultReadOk(s.db, s.seen, rd);
      var verdict := ResultFacts(rd.result, rd.inst, rd.task);
      if rd in s.seen.results && verdict.Write? { WriteTaskPaces(s, rd.result.task, verdict.write, now); }
    case ESaveSettlement(id, w, now) =>
      assert SettlementOk(s.db, s.seen, id, w);
      if (id, w) in s.seen.settlements { WriteTaskPaces(s, id, w, now); }
    case _ =>
  }

  lemma StepPaces(s: State, ev: Event)
    requires Inv(s) && Paces(s.db) && AnswersLater(s, ev)
    ensures Paces(Next(s, ev).db)
  {
    match ev
    case OnParent(p) => ParentStepPaces(s, p);
    case OnTask(t) => TaskStepPaces(s, t);
    case OnExecutor(x) => ExecutorStepKeeps(s, x);
  }

  lemma {:induction false} RunPaces(s: State, events: seq<Event>)
    requires Inv(s) && Paces(s.db) && Steady(s, events)
    ensures Paces(Run(s, events).db)
    decreases |events|
  {
    if events != [] {
      StepKeeps(s, events[0]);
      StepPaces(s, events[0]);
      RunPaces(Next(s, events[0]), events[1..]);
    }
  }

  // ----- the last opportunity -----

  /** The candidate a retry transaction was opened for is still due. */
  predicate Due(s: State, i: Id, now: Time) {
    && i in s.open && s.open[i].purpose.Retry? && RetryVerdict(s.open[i].view, now).Go?
    && var p := s.open[i].purpose;
       && p.task in s.db.tasks && s.db.tasks[p.task].instance == i && s.db.tasks[p.task].attemptNo == p.attemptNo
       && s.db.tasks[p.task].status == TaskRetryWaiting
       && s.db.tasks[p.task].nextDispatchAt.Some? && s.db.tasks[p.task].nextDispatchAt.value <= now
  }

  lemma UsedBelow(inst: Instance, used: int, now: Time)
    requires inst.config.Executable() && inst.startedAt.Some? && 0 <= used
    requires Earliest(inst, used) <= now < inst.startedAt.value + inst.config.timeoutSeconds * SECOND
    ensures used < inst.config.timeoutSeconds <= MAX_INT32
  {
    var interval := inst.config.retryInterval;
    assert used * (interval * SECOND) == (used * interval) * SECOND;
    AtLeast(used, interval);
  }

  lemma AtLeast(n: nat, k: int)
    requires 1 <= k
    ensures n <= n * k
  {
    assert n * k == n + n * (k - 1);
  }

  /** While every answer is saved after the registration it answers, a due retry of a running parent
      before its deadline registers unless the 64-bit attempt number is exhausted, which takes about
      as many refunds. */
  lemma DueRetryRegisters(events: seq<Event>, i: Id, now: Time)
    requires Steady(INITIAL, events) && Due(Run(INITIAL, events), i, now)
    ensures var s := Run(INITIAL, events);
            var t := s.open[i].purpose.task;
            && (RetryCommits(s, i, now) <==> s.db.tasks[t].attemptNo != MAX_INT64)
            && (!RetryCommits(s, i, now) ==> MAX_INT64 - MAX_INT32 < |RefundsOf(s.hist.refunded, t)|)
  {
    var s := Run(INITIAL, events);
    InitialOk();
    RunKeeps(INITIAL, events);
    RunPaces(INITIAL, events);
    var t := s.open[i].purpose.task;
    assert PaceOk(s.db, t) && RowOk(s.db, t) && LockOk(s.db, s.open, i) && AccountOk(s.db, s.hist, t);
    UsedBelow(s.db.instances[i], s.db.tasks[t].usedAttempts, now);
  }

  // ----- a clock that steps back -----

  const GENEROUS := Config(1, Normal, false, true, MAX_INT32, 1, MAX_INT32)
  const WAITING := Instance(1, 1, GENEROUS, InstanceWaiting, None, None, None, None, None)
  const GRANT := Grant(1, GENEROUS, MAX_INT32 * SECOND)

  /** The ordinary Task 7 of Instance 1 waits until `due` for its next attempt after `n`. */
  predicate Again(s: State, n: int, due: Time) {
    && s.open == map[] && 1 in s.db.instances && s.db.instances[1] == Started(WAITING, 0)
    && 7 in s.db.tasks
    && var t := s.db.tasks[7];
       t.instance == 1 && t.kind == Ordinary && t.status == TaskRetryWaiting && t.attemptNo == n && t.usedAttempts == n && t.nextDispatchAt == Some(due)
  }

  /** The attempt is sent and turned away, and the refusal is saved at `now`. */
  function TurnedAway(n: int, now: Time): seq<Event> {
    var k := X.Key(7, n);
    [OnTask(ESend(k)), OnTask(ETurnAway(k, true, "")), OnTask(ESaveEvidence(Evidence(k, GRANT, Refusal("")), now))]
  }

  lemma TurnedAwayAgain(s: State, n: int, now: Time)
    requires 1 <= n <= MAX_INT32 && Permitted(s, n)
    ensures Again(Run(s, TurnedAway(n, now)), n, now + SECOND)
  {
    RunThree(s, TurnedAway(n, now));
    var events := TurnedAway(n, now);
    var answered := Next(Next(s, events[0]), events[1]);
    assert answered.db == s.db && Evidence(X.Key(7, n), GRANT, Refusal("")) in answered.net.evidence;
  }

  /** Attempt `n` runs with its one permission to send. */
  predicate Permitted(s: State, n: int) {
    && s.open == map[] && 1 in s.db.instances && s.db.instances[1] == Started(WAITING, 0)
    && X.Key(7, n) in s.net.permits && s.net.permits[X.Key(7, n)] == GRANT && 7 in s.db.tasks
    && var t := s.db.tasks[7];
       t.instance == 1 && t.kind == Ordinary && t.status == TaskRunning && t.attemptNo == n && t.usedAttempts == n && Unbound(t)
  }

  lemma FirstTime() returns (events: seq<Event>)
    ensures Permitted(Run(INITIAL, events), 1) && Steady(INITIAL, events) && Later(Run(INITIAL, events).db, 7, 1, 0)
  {
    events := [OnParent(EInsert(1, WAITING)), OnParent(ELock(1, Start)), OnParent(ECommitStart(1, 7, 0, true))];
    RunThree(INITIAL, events);
    SteadyThree(INITIAL, events);
  }

  lemma SteadyThree(s: State, events: seq<Event>)
    requires |events| == 3 && AnswersLater(s, events[0]) && AnswersLater(Next(s, events[0]), events[1])
    requires AnswersLater(Next(Next(s, events[0]), events[1]), events[2])
    ensures Steady(s, events)
  {
    var third := Next(Next(s, events[0]), events[1]);
    assert events[1..][1..] == [events[2]];
    assert Steady(Next(third, events[2]), [events[2]][1..]) && Steady(third, [events[2]]);
  }

  lemma OnceMore(s: State, n: int) returns (events: seq<Event>)
    requires 1 <= n < MAX_INT32 && Again(s, n, 0)
    ensures Permitted(Run(s, events), n + 1)
  {
    events := [OnParent(ELock(1, Retry(7, n))), OnParent(ECommitRetry(1, 0, true))];
    var locked := Next(s, events[0]);
    assert Run(s, events) == Run(locked, [events[1]]) == Next(locked, events[1]);
    assert RetryCommits(locked, 1, 0);
  }

  lemma {:induction false} ManyTimes(n: int) returns (events: seq<Event>)
    requires 1 <= n <= MAX_INT32
    ensures Again(Run(INITIAL, events), n, 0)
    decreases n
  {
    if n == 1 {
      events := FirstTime();
    } else {
      var before := ManyTimes(n - 1);
      var retried := OnceMore(Run(INITIAL, before), n - 1);
      RunConcat(INITIAL, before, retried);
      events := before + retried;
    }
    TurnedAwayAgain(Run(INITIAL, events), n, -SECOND);
    RunConcat(INITIAL, events, TurnedAway(n, -SECOND));
    events := events + TurnedAway(n, -SECOND);
  }

  /** With refusals saved by a clock one second behind, the last opportunity of the largest allowance
      can be due, within budget and before the deadline, and never register. */
  lemma SteppingBackSticks()
    ensures exists s: State :: Reachable(s) && Due(s, 1, 0) && (forall now :: !RetryCommits(s, 1, now))
              && 7 in s.db.tasks && s.db.tasks[7].attemptNo == s.db.tasks[7].usedAttempts == MAX_INT32 < s.open[1].view.config.Budget()
  {
    var events := ManyTimes(MAX_INT32);
    var s := Run(INITIAL, events);
    var lock := OnParent(ELock(1, Retry(7, MAX_INT32)));
    RunConcat(INITIAL, events, [lock]);
    var locked := Run(INITIAL, events + [lock]);
    assert Run(s, [lock]) == Next(s, lock);
    assert Due(locked, 1, 0) && forall now :: !RetryCommits(locked, 1, now);
  }

  /** With a clock that does not step back, a retry does come due. */
  lemma DueHappens() returns (events: seq<Event>)
    ensures Steady(INITIAL, events) && Due(Run(INITIAL, events), 1, SECOND)
  {
    var first := FirstTime();
    var s := Run(INITIAL, first);
    var away, lock := TurnedAway(1, 0), OnParent(ELock(1, Retry(7, 1)));
    TurnedAwayAgain(s, 1, 0);
    SteadyThree(s, away);
    var waiting := Run(s, away);
    RunConcat(INITIAL, first, away);
    RunConcat(INITIAL, first + away, [lock]);
    assert Run(waiting, [lock]) == Next(waiting, lock);
    events := first + away + [lock];
    SteadyConcat(INITIAL, first, away);
    SteadyConcat(INITIAL, first + away, [lock]);
  }

  lemma {:induction false} SteadyConcat(s: State, a: seq<Event>, b: seq<Event>)
    requires Steady(s, a) && Steady(Run(s, a), b)
    ensures Steady(s, a + b)
    decreases |a|
  {
    if a == [] {
      assert a + b == b;
    } else {
      assert (a + b)[1..] == a[1..] + b;
      SteadyConcat(Next(s, a[0]), a[1..], b);
    }
  }
}
