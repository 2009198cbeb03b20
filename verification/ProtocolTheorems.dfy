/** What the execution protocol promises, for every run over any number of scheduler nodes
    and executors. */
module ProtocolTheorems {
  import opened Base
  import opened Collections
  import opened Rows
  import opened Protocol
  import opened ProtocolInvariant
  import opened ProtocolSteps
  import X = ExecutorState

  // ----- attempts and executions -----

  /** The calls of business code made for one Task, in order. */
  function StartsOf(starts: seq<X.Key>, t: Id): seq<X.Key> {
    if starts == [] then []
    else
      var rest := StartsOf(starts[..|starts| - 1], t);
      if starts[|starts| - 1].task == t then rest + [starts[|starts| - 1]] else rest
  }

  /** Attempts 1 to n of a Task. */
  function Numbered(t: Id, n: nat): set<X.Key> { if n == 0 then {} else Numbered(t, n - 1) + {X.Key(t, n)} }

  lemma {:induction false} NumberedCount(t: Id, n: nat)
    ensures |Numbered(t, n)| == n
    ensures forall k: X.Key :: k in Numbered(t, n) <==> k.task == t && 1 <= k.attemptNo <= n
  {
    if n > 0 { NumberedCount(t, n - 1); }
  }

  lemma {:induction false} StartsOfDistinct(starts: seq<X.Key>, t: Id)
    requires forall a, b | 0 <= a < b < |starts| :: starts[a] != starts[b]
    ensures forall k :: k in StartsOf(starts, t) <==> k in starts && k.task == t
    ensures |set k | k in StartsOf(starts, t)| == |StartsOf(starts, t)|
  {
    if starts != [] {
      var last, init := starts[|starts| - 1], starts[..|starts| - 1];
      StartsOfDistinct(init, t);
      assert starts == init + [last];
      var before, after := StartsOf(init, t), StartsOf(starts, t);
      if last.task == t {
        assert last !in init && last !in before;
        assert (set k | k in after) == (set k | k in before) + {last};
      }
    }
  }

  /** Business code is started at most once per attempt and, over all attempts of a Task, at
      most maxRetries + 1 times, although attempt numbers may grow past that budget. */
  lemma ExecutionBound(s: State, t: Id)
    requires Reachable(s) && t in s.db.tasks
    ensures s.db.tasks[t].instance in s.db.instances
    ensures |StartsOf(s.hist.starts, t)| <= s.db.instances[s.db.tasks[t].instance].config.maxRetries + 1
    ensures forall a, b | 0 <= a < b < |s.hist.starts| :: s.hist.starts[a] != s.hist.starts[b]
  {
    ReachableOk(s);
    assert RowOk(s.db, t) && AccountOk(s.db, s.hist, t);
    var n, refunds := s.db.tasks[t].attemptNo, RefundsOf(s.hist.refunded, t);
    var started := set k | k in StartsOf(s.hist.starts, t);
    StartsOfDistinct(s.hist.starts, t);
    NumberedCount(t, n);
    forall k | k in started ensures k in Numbered(t, n) - refunds {
      assert RouteOk(s.db, s.net, s.hist.home, k) && AttemptOk(s.db, s.net, s.hist, k);
    }
    forall k | k in refunds ensures k in Numbered(t, n) { assert AttemptOk(s.db, s.net, s.hist, k); }
    SubsetCount(started, Numbered(t, n) - refunds);
    assert Numbered(t, n) == (Numbered(t, n) - refunds) + refunds;
  }

  /** The attempt ledger in every reachable state: opportunities used are attempts numbered
      minus refunds, a running Task holds one, a waiting one has one left, and every refund
      was for an attempt no executor admitted. */
  lemma AttemptLedger(s: State, t: Id)
    requires Reachable(s) && t in s.db.tasks
    ensures s.db.tasks[t].instance in s.db.instances
    ensures var task, budget := s.db.tasks[t], s.db.instances[s.db.tasks[t].instance].config.Budget();
            && task.usedAttempts == task.attemptNo - |RefundsOf(s.hist.refunded, t)|
            && (task.status == TaskRunning ==> 1 <= task.usedAttempts <= budget)
            && (task.status == TaskRetryWaiting ==> task.usedAttempts < budget && task.nextDispatchAt.Some?)
    ensures forall k | k in s.hist.refunded :: k !in s.hist.home && k in s.net.sent
    ensures forall k :: s.hist.closed[k] <= 1
  {
    ReachableOk(s);
    assert RowOk(s.db, t) && AccountOk(s.db, s.hist, t);
    forall k | k in s.hist.refunded ensures k !in s.hist.home && k in s.net.sent {
      assert AttemptOk(s.db, s.net, s.hist, k) && RouteOk(s.db, s.net, s.hist.home, k);
    }
    forall k ensures s.hist.closed[k] <= 1 { assert AttemptOk(s.db, s.net, s.hist, k); }
  }

  /** Only a permitted attempt is sent, and only once; it is delivered at most once. */
  lemma SentOnce(s: State, k: X.Key)
    requires Reachable(s)
    ensures k in s.net.permits ==> k !in s.net.sent && k !in s.net.delivered && k !in s.hist.home
    ensures k in s.net.wire ==> k in s.net.sent && k !in s.net.delivered && k !in s.hist.home
    ensures k in s.hist.starts ==> k in s.hist.home && k in s.net.delivered && k in s.net.sent
  {
    ReachableOk(s);
    assert RouteOk(s.db, s.net, s.hist.home, k);
  }

  /** A saved BUSY answer gives the opportunity back and the next registration takes a new
      number, so attempt numbers outgrow the budget. */
  lemma BusyThenRetry(s: State, v: Evidence, now: Time, later: Time)
    requires v in s.net.evidence && v.response.BusyReply? && WellFormed(EvidenceWrite(v)) && Applies(s.db, v.key.task, EvidenceWrite(v))
    requires v.grant.instance in s.db.instances && v.grant.instance !in s.open
    requires RetryVerdict(s.db.instances[v.grant.instance], later).Go? && now + v.response.delay <= later
    requires s.db.tasks[v.key.task].usedAttempts - 1 < s.db.instances[v.grant.instance].config.Budget()
    requires s.db.tasks[v.key.task].attemptNo < MAX_INT64 && s.db.tasks[v.key.task].usedAttempts <= MAX_INT32
    ensures var t, i := v.key.task, v.grant.instance;
            var s' := Run(s, [OnTask(ESaveEvidence(v, now)), OnParent(ELock(i, Retry(t, v.key.attemptNo))), OnParent(ECommitRetry(i, later, true))]);
            && t in s'.db.tasks && s'.db.tasks[t].attemptNo == s.db.tasks[t].attemptNo + 1
            && s'.db.tasks[t].usedAttempts == s.db.tasks[t].usedAttempts && s'.db.tasks[t].status == TaskRunning
            && v.key in s'.hist.refunded
  {
    var t, i := v.key.task, v.grant.instance;
    var events := [OnTask(ESaveEvidence(v, now)), OnParent(ELock(i, Retry(t, v.key.attemptNo))), OnParent(ECommitRetry(i, later, true))];
    RunThree(s, events);
    BusySaved(s, v, now);
    var saved := Next(s, events[0]);
    var locked := Next(saved, events[1]);
    assert RetryCommits(locked, i, later);
  }

  lemma BusySaved(s: State, v: Evidence, now: Time)
    requires v in s.net.evidence && v.response.BusyReply? && WellFormed(EvidenceWrite(v)) && Applies(s.db, v.key.task, EvidenceWrite(v))
    ensures var s' := Next(s, OnTask(ESaveEvidence(v, now)));
            var t, t' := s.db.tasks[v.key.task], s'.db.tasks[v.key.task];
            && s'.db.instances == s.db.instances && s'.open == s.open && v.key in s'.hist.refunded
            && t'.status == TaskRetryWaiting && t'.nextDispatchAt == Some(now + v.response.delay) && t'.attemptNo == t.attemptNo
            && t'.usedAttempts == t.usedAttempts - 1 && t'.instance == t.instance && t'.kind == t.kind
  {
  }

  /** Along every run attempt numbers never decrease, finished Tasks and Instances are frozen,
      and an Instance keeps its one end decision, its snapshot and its deadline. */
  lemma RowsOnlyAdvance(s: State, events: seq<Event>)
    requires Reachable(s)
    ensures var s' := Run(s, events);
            && (forall t | t in s.db.tasks :: t in s'.db.tasks && TaskEvolves(s.db.tasks[t], s'.db.tasks[t]))
            && (forall i | i in s.db.instances :: i in s'.db.instances && InstanceEvolves(s.db.instances[i], s'.db.instances[i]))
  {
    ReachableOk(s);
    RunKeeps(s, events);
    var s' := Run(s, events);
    forall t | t in s.db.tasks ensures t in s'.db.tasks && TaskEvolves(s.db.tasks[t], s'.db.tasks[t]) {
      assert TaskMoves(s.db, s'.db, t);
    }
    forall i | i in s.db.instances ensures i in s'.db.instances && InstanceEvolves(s.db.instances[i], s'.db.instances[i]) {
      assert ParentMoves(s.db, s'.db, i);
    }
  }

  // ----- unlocked reads -----

  /** Retry or fail, chosen from a count read earlier, is what the row would choose now. */
  lemma StaleResultSound(s: State, rd: ResultRead)
    requires Reachable(s) && rd in s.seen.results && ResultFacts(rd.result, rd.inst, rd.task).Write?
    requires Applies(s.db, rd.result.task, ResultFacts(rd.result, rd.inst, rd.task).write)
    ensures rd.result.instance in s.db.instances
    ensures ResultFacts(rd.result, s.db.instances[rd.result.instance], s.db.tasks[rd.result.task])
         == ResultFacts(rd.result, rd.inst, rd.task)
  {
    ReachableOk(s);
    StaleResultAgrees(s, rd);
    assert ResultReadOk(s.db, s.seen, rd) && RowOk(s.db, rd.result.task);
  }

  /** A completion decided from an earlier read, if it still applies, is what the rows say now. */
  lemma StaleCheckSound(s: State, c: CheckRead)
    requires Reachable(s) && c in s.seen.checks && CheckFacts(c.inst, c.child).CompleteAs? && CompleteApplies(s.db, c.instance)
    ensures CheckFacts(s.db.instances[c.instance], Child(s.db, c.instance)) == CheckFacts(c.inst, c.child)
  {
    ReachableOk(s);
    assert CheckReadOk(s.db, s.seen, c);
  }

  /** Parent and child agree: a normal end was decided from a Task that is still the same. */
  lemma ParentAgreesWithTask(s: State, i: Id)
    requires Reachable(s) && i in s.db.instances
    ensures s.db.instances[i].status == InstanceSucceeded ==>
              Child(s.db, i).Some? && Child(s.db, i).value.status == TaskSucceeded
    ensures s.db.instances[i].endReason == Some(ExecutionFailed) ==>
              Child(s.db, i).Some? && Child(s.db, i).value.status == TaskFailed && s.db.instances[i].status == InstanceFailed
    ensures s.db.instances[i].status.Terminal() ==> Unfinished(s.db, i) == {}
    ensures s.db.instances[i].endReason.Some? <==> s.db.instances[i].status != InstanceWaiting && s.db.instances[i].status != InstanceRunning
  {
    ReachableOk(s);
    assert ParentOk(s.db, i) && IndexOk(s.db, i);
    if i in s.db.ordinary { assert RowOk(s.db, s.db.ordinary[i]); }
    forall t | t in Unfinished(s.db, i) ensures !s.db.instances[i].status.Terminal() { assert RowOk(s.db, t); }
  }

  /** The anomalies a completion check would log never arise: a running ordinary parent has
      its Task, and that Task is not canceled. */
  lemma RunningParentHasLiveTask(s: State, i: Id)
    requires Reachable(s) && i in s.db.instances && s.db.instances[i].status == InstanceRunning
    ensures Child(s.db, i).Some? && Child(s.db, i).value.status != TaskCanceled && Child(s.db, i).value.status != TaskWaiting
    ensures s.db.instances[i].config.Executable() && RunningTimes(s.db.instances[i])
  {
    ReachableOk(s);
    assert ParentOk(s.db, i) && IndexOk(s.db, i);
    assert RowOk(s.db, s.db.ordinary[i]);
  }

  // ----- after a stop decision -----

  /** No Task of the Instance was added or registered anew. */
  ghost predicate FrozenAt(a: Db, b: Db, i: Id, t: Id) {
    t in b.tasks && b.tasks[t].instance == i ==> t in a.tasks && a.tasks[t].attemptNo == b.tasks[t].attemptNo
  }

  ghost predicate AttemptsFrozen(a: Db, b: Db, i: Id) { forall t {:trigger FrozenAt(a, b, i, t)} :: FrozenAt(a, b, i, t) }

  predicate Ended(s: State, i: Id) {
    i in s.db.instances && (s.db.instances[i].status == InstanceStopping || s.db.instances[i].status.Terminal())
  }

  lemma ParentStepFreezes(s: State, ev: ParentEvent, i: Id)
    requires Inv(s) && Ended(s, i)
    ensures AttemptsFrozen(s.db, NextParent(s, ev).db, i)
  {
    var s' := NextParent(s, ev);
    if ev.ECommitRetry? || ev.ECommitStart? { assert LockOk(s.db, s.open, ev.i); }
    forall t ensures FrozenAt(s.db, s'.db, i, t) {}
  }

  lemma WriteFreezes(s: State, id: Id, w: TaskWrite, now: Time, i: Id)
    requires !w.Register?
    ensures AttemptsFrozen(s.db, WriteTask(s, id, w, now).db, i)
  {
    var s' := WriteTask(s, id, w, now);
    forall t ensures FrozenAt(s.db, s'.db, i, t) {
      if WellFormed(w) && Applies(s.db, id, w) { WriteShape(s.db.tasks[id], w, now); }
    }
  }

  lemma TaskStepFreezes(s: State, ev: TaskEvent, i: Id)
    requires Inv(s)
    ensures AttemptsFrozen(s.db, NextTask(s, ev).db, i)
  {
    match ev
    case ESaveEvidence(v, now) => WriteFreezes(s, v.key.task, EvidenceWrite(v), now, i);
    case ESaveResult(rd, now) =>
      var verdict := ResultFacts(rd.result, rd.inst, rd.task);
      if verdict.Write? { WriteFreezes(s, rd.result.task, verdict.write, now, i); }
    case ESaveSettlement(id, w, now) =>
      assert SettlementOk(s.db, s.seen, id, w);
      if (id, w) in s.seen.settlements { WriteFreezes(s, id, w, now, i); }
    case _ =>
  }

  lemma StepFreezes(s: State, ev: Event, i: Id)
    requires Inv(s) && Ended(s, i)
    ensures AttemptsFrozen(s.db, Next(s, ev).db, i)
  {
    match ev
    case OnParent(p) => ParentStepFreezes(s, p, i);
    case OnTask(t) => TaskStepFreezes(s, t, i);
    case OnExecutor(x) =>
  }

  lemma EndedStays(s: State, ev: Event, i: Id)
    requires Inv(s) && Ended(s, i)
    ensures Ended(Next(s, ev), i)
  {
    StepKeeps(s, ev);
    assert ParentMoves(s.db, Next(s, ev).db, i) && ParentOk(s.db, i);
  }

  lemma {:induction false} RunFreezes(s: State, events: seq<Event>, i: Id)
    requires Inv(s) && Ended(s, i)
    ensures AttemptsFrozen(s.db, Run(s, events).db, i)
    decreases |events|
  {
    if events != [] {
      var mid := Next(s, events[0]);
      StepKeeps(s, events[0]);
      StepFreezes(s, events[0], i);
      EndedStays(s, events[0], i);
      RunFreezes(mid, events[1..], i);
      forall t ensures FrozenAt(s.db, Run(s, events).db, i, t) {
        assert FrozenAt(mid.db, Run(s, events).db, i, t) && FrozenAt(s.db, mid.db, i, t);
        assert t in mid.db.tasks ==> TaskMoves(mid.db, Run(mid, events[1..]).db, t) by { RunKeeps(mid, events[1..]); }
      }
    }
  }

  /** Once a stop decision commits no further attempt is registered, the reason is kept, only
      the state it selects can follow, and the unfinished Tasks only get fewer. */
  lemma StopIsFinal(s: State, events: seq<Event>, i: Id)
    requires Reachable(s) && i in s.db.instances && s.db.instances[i].status == InstanceStopping
    ensures var s' := Run(s, events);
            && i in s'.db.instances && s.db.instances[i].endReason.Some?
            && s'.db.instances[i].endReason == s.db.instances[i].endReason
            && (s'.db.instances[i].status == InstanceStopping || s'.db.instances[i].status == StopTarget(s.db.instances[i].endReason.value))
            && AttemptsFrozen(s.db, s'.db, i)
            && Unfinished(s'.db, i) <= Unfinished(s.db, i)
  {
    ReachableOk(s);
    RunKeeps(s, events);
    RunFreezes(s, events, i);
    var s' := Run(s, events);
    assert ParentOk(s.db, i) && ParentMoves(s.db, s'.db, i);
    forall t | t in Unfinished(s'.db, i) ensures t in Unfinished(s.db, i) {
      assert FrozenAt(s.db, s'.db, i, t) && TaskMoves(s.db, s'.db, t);
    }
  }

  // ----- cancellation converges -----

  function ListedSet(s: State, i: Id): set<Id> {
    if i in s.open && s.open[i].listed.Some? then set t | t in s.open[i].listed.value else {}
  }

  /** Tasks that are unfinished or that the open batch has listed. */
  function Remaining(s: State, i: Id): set<Id> { Unfinished(s.db, i) + ListedSet(s, i) }

  /** How many Tasks a batch has listed when its cancellation commits. */
  function BatchSize(s: State, ev: Event, i: Id): nat {
    if ev.OnParent? && ev.p.ECommitCancel? && ev.p.i == i && CancelCommits(s, i) then |s.open[i].listed.value| else 0
  }

  ghost function Listed(s: State, events: seq<Event>, i: Id): nat
    decreases |events|
  {
    if events == [] then 0 else BatchSize(s, events[0], i) + Listed(Next(s, events[0]), events[1..], i)
  }

  lemma UnfinishedShrinks(s: State, ev: Event, i: Id)
    requires Inv(s) && Ended(s, i)
    ensures Unfinished(Next(s, ev).db, i) <= Unfinished(s.db, i)
  {
    StepKeeps(s, ev);
    StepFreezes(s, ev, i);
    var s' := Next(s, ev);
    forall t | t in Unfinished(s'.db, i) ensures t in Unfinished(s.db, i) {
      assert FrozenAt(s.db, s'.db, i, t) && TaskMoves(s.db, s'.db, t);
    }
  }

  lemma ListedFromUnfinished(s: State, ev: Event, i: Id)
    ensures ListedSet(Next(s, ev), i) <= Remaining(s, i)
  {
    if ev.OnParent? && ev.p.EList? && ev.p.i == i && BatchMayList(s, i) && IsListing(s.db, i, s.open[i].purpose.limit, ev.p.ids) {
      forall t | t in ev.p.ids ensures t in Unfinished(s.db, i) { assert UnfinishedIn(s.db, i, t); }
    }
  }

  /** Whatever results win the race, a committed batch leaves every listed Task finished. */
  lemma BatchClears(s: State, i: Id, now: Time)
    requires CancelCommits(s, i)
    ensures Unfinished(CommitCancel(s, i, now).db, i) == Unfinished(s.db, i) - ListedSet(s, i)
  {
  }

  lemma StepShrinks(s: State, ev: Event, i: Id)
    requires Inv(s) && Ended(s, i)
    ensures |Remaining(Next(s, ev), i)| + BatchSize(s, ev, i) <= |Remaining(s, i)|
  {
    var s' := Next(s, ev);
    if BatchSize(s, ev, i) > 0 {
      assert LockOk(s.db, s.open, i);
      BatchClears(s, i, ev.p.now);
      AscendingCount(s.open[i].listed.value);
      assert Remaining(s', i) == Unfinished(s.db, i) - ListedSet(s, i);
      assert Remaining(s, i) == Remaining(s', i) + ListedSet(s, i);
    } else {
      UnfinishedShrinks(s, ev, i);
      ListedFromUnfinished(s, ev, i);
      SubsetCount(Remaining(s', i), Remaining(s, i));
    }
  }

  lemma {:induction false} RunShrinks(s: State, events: seq<Event>, i: Id)
    requires Inv(s) && Ended(s, i)
    ensures |Remaining(Run(s, events), i)| + Listed(s, events, i) <= |Remaining(s, i)|
    decreases |events|
  {
    if events != [] {
      StepKeeps(s, events[0]);
      EndedStays(s, events[0], i);
      StepShrinks(s, events[0], i);
      RunShrinks(Next(s, events[0]), events[1..], i);
    }
  }

  /** However batches interleave with late results, they never list more Tasks in all than were
      unfinished, so only finitely many nonempty batches commit. */
  lemma BatchesAreBounded(s: State, events: seq<Event>, i: Id)
    requires Reachable(s) && i in s.db.instances && s.db.instances[i].status == InstanceStopping && i !in s.open
    ensures |Unfinished(Run(s, events).db, i)| + Listed(s, events, i) <= |Unfinished(s.db, i)|
  {
    ReachableOk(s);
    RunShrinks(s, events, i);
    SubsetCount(Unfinished(Run(s, events).db, i), Remaining(Run(s, events), i));
    assert Remaining(s, i) == Unfinished(s.db, i);
  }

  /** An empty listing permits the final transition and it always applies. */
  lemma EmptyListingFinishes(s: State, i: Id, now: Time)
    requires Reachable(s) && i in s.open && s.open[i].listed == Some([])
    ensures i in s.db.instances && s.db.instances[i].endReason.Some?
    ensures var s' := Next(s, OnParent(ECommitFinish(i, now)));
            && i in s'.db.instances && i !in s'.open
            && s'.db.instances[i].status == StopTarget(s.db.instances[i].endReason.value)
  {
    ReachableOk(s);
    assert LockOk(s.db, s.open, i) && ParentOk(s.db, i);
    FinishKeeps(s, i, now);
  }

  lemma {:induction false} RunConcat(s: State, a: seq<Event>, b: seq<Event>)
    ensures Run(s, a + b) == Run(Run(s, a), b)
    decreases |a|
  {
    if a == [] {
      assert a + b == b;
    } else {
      assert (a + b)[1..] == a[1..] + b;
      RunConcat(Next(s, a[0]), a[1..], b);
    }
  }

  /** One whole batch: lock, list, cancel or finish. */
  function BatchEvents(i: Id, limit: nat, ids: seq<Id>, now: Time): seq<Event> {
    [OnParent(ELock(i, Batch(limit))), OnParent(EList(i, ids)),
     OnParent(if ids == [] then ECommitFinish(i, now) else ECommitCancel(i, now))]
  }

  lemma RunThree(s: State, events: seq<Event>)
    requires |events| == 3
    ensures Run(s, events) == Next(Next(Next(s, events[0]), events[1]), events[2])
  {
    assert events[1..][1..] == [events[2]];
    assert Run(Next(Next(s, events[0]), events[1]), [events[2]]) == Next(Next(Next(s, events[0]), events[1]), events[2]);
  }

  lemma ListedBatch(s: State, i: Id, limit: nat, ids: seq<Id>) returns (listed: State)
    requires Inv(s) && 0 < limit && i in s.db.instances && s.db.instances[i].status == InstanceStopping && i !in s.open
    requires IsListing(s.db, i, limit, ids)
    ensures listed == Next(Next(s, OnParent(ELock(i, Batch(limit)))), OnParent(EList(i, ids)))
    ensures Inv(listed) && listed.db == s.db && i in listed.open && listed.open[i].listed == Some(ids)
  {
    assert ParentOk(s.db, i);
    var locked := Next(s, OnParent(ELock(i, Batch(limit))));
    listed := Next(locked, OnParent(EList(i, ids)));
    StepKeeps(s, OnParent(ELock(i, Batch(limit))));
    StepKeeps(locked, OnParent(EList(i, ids)));
  }

  lemma CanceledBatch(listed: State, i: Id, now: Time)
    requires Inv(listed) && i in listed.open && listed.open[i].listed.Some? && listed.open[i].listed.value != []
    ensures var s' := Next(listed, OnParent(ECommitCancel(i, now)));
            && Inv(s') && i !in s'.open && s'.db.instances == listed.db.instances
            && Unfinished(s'.db, i) == Unfinished(listed.db, i) - ListedSet(listed, i)
  {
    assert LockOk(listed.db, listed.open, i) && ParentOk(listed.db, i);
    StepKeeps(listed, OnParent(ECommitCancel(i, now)));
    BatchClears(listed, i, now);
  }

  lemma OneBatch(s: State, i: Id, limit: nat, ids: seq<Id>, now: Time)
    requires Inv(s) && 0 < limit && i in s.db.instances && s.db.instances[i].status == InstanceStopping && i !in s.open
    requires IsListing(s.db, i, limit, ids)
    ensures var s' := Run(s, BatchEvents(i, limit, ids, now));
            && i !in s'.open && i in s'.db.instances && s.db.instances[i].endReason.Some?
            && (ids == [] ==> s'.db.instances[i].status == StopTarget(s.db.instances[i].endReason.value))
            && (ids != [] ==> Inv(s') && s'.db.instances == s.db.instances && Unfinished(s'.db, i) < Unfinished(s.db, i))
  {
    assert ParentOk(s.db, i);
    var listed := ListedBatch(s, i, limit, ids);
    RunThree(s, BatchEvents(i, limit, ids, now));
    if ids == [] {
      assert LockOk(listed.db, listed.open, i);
      FinishKeeps(listed, i, now);
    } else {
      CanceledBatch(listed, i, now);
      assert UnfinishedIn(s.db, i, ids[0]) && ids[0] in Unfinished(s.db, i);
    }
  }

  /** From every stop decision some finite sequence of batches, of any positive size, reaches
      the terminal state the reason selects. */
  lemma {:induction false} StopConverges(s: State, i: Id, limit: nat, now: Time) returns (events: seq<Event>)
    requires Inv(s) && 0 < limit && i in s.db.instances && s.db.instances[i].status == InstanceStopping && i !in s.open
    ensures i in Run(s, events).db.instances && s.db.instances[i].endReason.Some?
    ensures Run(s, events).db.instances[i].status == StopTarget(s.db.instances[i].endReason.value)
    ensures |events| <= 3 * (|Unfinished(s.db, i)| + 1)
    decreases |Unfinished(s.db, i)|
  {
    var ids := ListingExists(s.db, i, limit);
    var batch := BatchEvents(i, limit, ids, now);
    OneBatch(s, i, limit, ids, now);
    var s' := Run(s, batch);
    if ids == [] {
      events := batch;
    } else {
      ProperSubsetCount(Unfinished(s'.db, i), Unfinished(s.db, i));
      var rest := StopConverges(s', i, limit, now);
      RunConcat(s, batch, rest);
      events := batch + rest;
    }
  }

  lemma ProperSubsetCount<T>(a: set<T>, b: set<T>)
    requires a < b
    ensures |a| < |b|
  {
    var x :| x in b && x !in a;
    SubsetCount(a, b - {x});
  }
}
