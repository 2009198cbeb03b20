/** The invariant holds after every run, and rows only move forward along it. */
module ProtocolSteps {
  import opened Base
  import opened Rows
  import opened Protocol
  import opened ProtocolInvariant
  import X = ExecutorState

  // ----- locks and reads -----

  lemma LockKeeps(s: State, i: Id, purpose: Purpose)
    requires Inv(s)
    ensures Inv(Lock(s, i, purpose))
  {
    var open' := Lock(s, i, purpose).open;
    forall j ensures LockOk(s.db, open', j) { assert LockOk(s.db, s.open, j); }
  }

  lemma RollbackKeeps(s: State, i: Id)
    requires Inv(s)
    ensures Inv(Rollback(s, i))
  {
    forall j ensures LockOk(s.db, s.open - {i}, j) { assert LockOk(s.db, s.open, j); }
  }

  lemma ListKeeps(s: State, i: Id, ids: seq<Id>)
    requires Inv(s)
    ensures Inv(List(s, i, ids))
  {
    var open' := List(s, i, ids).open;
    forall j ensures LockOk(s.db, open', j) {
      assert LockOk(s.db, s.open, j);
      if j == i && open' != s.open && ids == [] {
        forall t ensures t !in Unfinished(s.db, i) { assert !UnfinishedIn(s.db, i, t); }
      }
    }
  }

  lemma ReadsKeep(s: State, seen': Seen)
    requires Inv(s) && SeenOk(s.db, seen')
    ensures Inv(s.(seen := seen'))
  {
  }

  lemma ReadResultKeeps(s: State, r: BusinessResult)
    requires Inv(s)
    ensures Inv(ReadResult(s, r))
  {
    var seen' := ReadResult(s, r).seen;
    forall rd ensures ResultReadOk(s.db, seen', rd) { assert ResultReadOk(s.db, s.seen, rd); }
    forall c ensures CheckReadOk(s.db, seen', c) { assert CheckReadOk(s.db, s.seen, c); }
    forall id, w ensures SettlementOk(s.db, seen', id, w) { assert SettlementOk(s.db, s.seen, id, w); }
    ReadsKeep(s, seen');
  }

  lemma ReadCheckKeeps(s: State, i: Id)
    requires Inv(s)
    ensures Inv(ReadCheck(s, i))
  {
    var seen' := ReadCheck(s, i).seen;
    forall rd ensures ResultReadOk(s.db, seen', rd) { assert ResultReadOk(s.db, s.seen, rd); }
    forall c ensures CheckReadOk(s.db, seen', c) { assert CheckReadOk(s.db, s.seen, c); }
    forall id, w ensures SettlementOk(s.db, seen', id, w) { assert SettlementOk(s.db, s.seen, id, w); }
    ReadsKeep(s, seen');
  }

  lemma ReadSettlementKeeps(s: State, c: Row, processedAt: Time, period: int)
    requires Inv(s)
    ensures Inv(ReadSettlement(s, c, processedAt, period))
  {
    var seen' := ReadSettlement(s, c, processedAt, period).seen;
    forall rd ensures ResultReadOk(s.db, seen', rd) { assert ResultReadOk(s.db, s.seen, rd); }
    forall d ensures CheckReadOk(s.db, seen', d) { assert CheckReadOk(s.db, s.seen, d); }
    forall id, w ensures SettlementOk(s.db, seen', id, w) { assert SettlementOk(s.db, s.seen, id, w); }
    ReadsKeep(s, seen');
  }

  // ----- dispatch calls -----

  /** Moving calls along never touches what was delivered, admitted or refunded. */
  lemma NetChangeKeeps(s: State, net': Net)
    requires Inv(s) && NetOk(s.db, net', s.hist.home) && s.net.delivered <= net'.delivered
    ensures Inv(s.(net := net'))
  {
    forall k ensures AttemptOk(s.db, net', s.hist, k) { assert AttemptOk(s.db, s.net, s.hist, k); }
  }

  lemma SendKeeps(s: State, k: X.Key)
    requires Inv(s)
    ensures Inv(Send(s, k)) && Inv(Forget(s, k))
  {
    var home, sent, forgotten := s.hist.home, Send(s, k).net, Forget(s, k).net;
    forall j ensures RouteOk(s.db, sent, home, j) && RouteOk(s.db, forgotten, home, j) { assert RouteOk(s.db, s.net, home, j); }
    forall v ensures EvidenceOk(s.db, sent, home, v) && EvidenceOk(s.db, forgotten, home, v) { assert EvidenceOk(s.db, s.net, home, v); }
    NetChangeKeeps(s, sent);
    NetChangeKeeps(s, forgotten);
  }

  /** Delivery consumes the call; a refusal is only ever recorded for work not admitted. */
  lemma DeliveredKeepsNet(db: Db, net: Net, home: map<X.Key, Id>, home': map<X.Key, Id>, k: X.Key, answer: Option<Response>)
    requires NetOk(db, net, home) && k in net.wire
    requires home'.Keys == home.Keys || (home'.Keys == home.Keys + {k} && (answer.Some? ==> answer.value.Ack?))
    ensures NetOk(db, Delivered(net, k, answer), home')
  {
    var net' := Delivered(net, k, answer);
    assert RouteOk(db, net, home, k);
    forall j ensures RouteOk(db, net', home', j) { assert RouteOk(db, net, home, j); }
    forall v ensures EvidenceOk(db, net', home', v) { assert EvidenceOk(db, net, home, v); }
  }

  lemma TurnAwayKeeps(s: State, k: X.Key, heard: bool, summary: string)
    requires Inv(s)
    ensures Inv(TurnAway(s, k, heard, summary))
  {
    if k in s.net.wire {
      DeliveredKeepsNet(s.db, s.net, s.hist.home, s.hist.home, k, if heard then Some(Refusal(summary)) else None);
      NetChangeKeeps(s, TurnAway(s, k, heard, summary).net);
    }
  }

  /** Admission of work never seen before at an executor. */
  lemma AdmissionKeepsExecs(execs: map<Id, X.Exec>, home: map<X.Key, Id>, starts: seq<X.Key>, e: Id, x': X.Exec, k: X.Key)
    requires ExecsOk(execs, home, starts) && e in execs && k !in home && X.Consistent(x')
    requires x'.active.Keys == execs[e].active.Keys + {k} && !x'.active[k].executing
    requires forall j | j in execs[e].active :: x'.active[j] == execs[e].active[j]
    ensures ExecsOk(execs[e := x'], home[k := e], starts)
  {
    var execs', home' := execs[e := x'], home[k := e];
    forall d ensures ExecOk(execs', home', starts, d) {
      assert ExecOk(execs, home, starts, d) && ExecOk(execs, home, starts, e);
    }
  }

  lemma DeliverKeeps(s: State, k: X.Key, e: Id, callLive: bool, valid: bool, now: Time, heard: bool, address: string, delay: int)
    requires Inv(s) && k in s.net.wire && e in s.execs
    ensures Inv(Deliver(s, k, e, callLive, valid, now, heard, address, delay))
  {
    var s' := Deliver(s, k, e, callLive, valid, now, heard, address, delay);
    var grant, x := s.net.wire[k], s.execs[e];
    var answer := if heard then Answer(X.Admit(x, k, grant.deadline, callLive, valid, now), e, address, delay) else None;
    assert RouteOk(s.db, s.net, s.hist.home, k) && ExecOk(s.execs, s.hist.home, s.hist.starts, e);
    X.AdmitKeepsConsistent(x, k, grant.instance, grant.deadline, callLive, valid, now);
    DeliveredKeepsNet(s.db, s.net, s.hist.home, s'.hist.home, k, answer);
    if s'.hist.home != s.hist.home {
      AdmissionKeepsExecs(s.execs, s.hist.home, s.hist.starts, e, s'.execs[e], k);
    } else {
      assert s'.execs == s.execs;
    }
    forall j ensures AttemptOk(s'.db, s'.net, s'.hist, j) { assert AttemptOk(s.db, s.net, s.hist, j); }
    forall t ensures AccountOk(s'.db, s'.hist, t) { assert AccountOk(s.db, s.hist, t); }
  }

  // ----- executors -----

  /** An executor step that admits nothing and starts nothing. */
  lemma ExecStepKeeps(s: State, e: Id, x': X.Exec)
    requires Inv(s) && X.Consistent(x')
    requires e in s.execs ==> x'.active.Keys <= s.execs[e].active.Keys
    requires e in s.execs ==> forall k | k in x'.active :: x'.active[k].executing == s.execs[e].active[k].executing
    requires e !in s.execs ==> x'.active == map[]
    ensures Inv(s.(execs := s.execs[e := x']))
  {
    var execs' := s.execs[e := x'];
    forall d ensures ExecOk(execs', s.hist.home, s.hist.starts, d) {
      assert ExecOk(s.execs, s.hist.home, s.hist.starts, d);
    }
  }

  lemma BootKeeps(s: State, e: Id, capacity: nat)
    requires Inv(s)
    ensures Inv(Boot(s, e, capacity))
  {
    if e !in s.execs {
      assert X.Queued(X.IDLE) == {} == X.Executing(X.IDLE);
      ExecStepKeeps(s, e, X.IDLE.(capacity := capacity));
    }
  }

  lemma ReadyKeeps(s: State, e: Id)
    requires Inv(s)
    ensures Inv(Ready(s, e))
  {
    if e in s.execs && !s.execs[e].stopping {
      var x := s.execs[e].(started := true);
      assert ExecOk(s.execs, s.hist.home, s.hist.starts, e);
      assert X.Queued(x) == X.Queued(s.execs[e]) && X.Executing(x) == X.Executing(s.execs[e]);
      ExecStepKeeps(s, e, x);
    }
  }

  lemma ReceiveKeeps(s: State, e: Id)
    requires Inv(s)
    ensures Inv(Receive(s, e))
  {
    if e in s.execs && s.execs[e].queue != [] {
      assert ExecOk(s.execs, s.hist.home, s.hist.starts, e);
      X.ReceiveKeepsConsistent(s.execs[e]);
      ExecStepKeeps(s, e, X.AfterReceive(s.execs[e]));
    }
  }

  lemma ReturnKeeps(s: State, e: Id, k: X.Key)
    requires Inv(s)
    ensures Inv(Return(s, e, k))
  {
    if e in s.execs && k in X.Executing(s.execs[e]) {
      assert ExecOk(s.execs, s.hist.home, s.hist.starts, e);
      X.ReturnKeepsConsistent(s.execs[e], k);
      ExecStepKeeps(s, e, X.AfterReturn(s.execs[e], k));
    }
  }

  lemma SignalKeeps(s: State, e: Id, i: Id)
    requires Inv(s)
    ensures Inv(Signal(s, e, i))
  {
    if e in s.execs {
      assert ExecOk(s.execs, s.hist.home, s.hist.starts, e);
      X.SignalsKeepConsistent(s.execs[e], i);
      ExecStepKeeps(s, e, X.AfterCancel(s.execs[e], i));
    }
  }

  lemma ShutdownKeeps(s: State, e: Id, abort: bool)
    requires Inv(s)
    ensures Inv(Shutdown(s, e, abort))
  {
    if e in s.execs {
      var x := s.execs[e].(stopping := true);
      assert ExecOk(s.execs, s.hist.home, s.hist.starts, e);
      assert X.Queued(x) == X.Queued(s.execs[e]) && X.Executing(x) == X.Executing(s.execs[e]);
      X.SignalsKeepConsistent(x, 0);
      ExecStepKeeps(s, e, if abort then X.AfterAbort(x) else x);
    }
  }

  lemma CrashKeeps(s: State, e: Id)
    requires Inv(s)
    ensures Inv(Crash(s, e))
  {
    var execs' := s.execs - {e};
    forall d ensures ExecOk(execs', s.hist.home, s.hist.starts, d) {
      assert ExecOk(s.execs, s.hist.home, s.hist.starts, d);
    }
  }

  /** Held work is begun by its one worker, so its start is the first. */
  lemma BeginKeepsExecs(execs: map<Id, X.Exec>, home: map<X.Key, Id>, starts: seq<X.Key>, e: Id, k: X.Key, now: Time)
    requires ExecsOk(execs, home, starts) && e in execs && k in execs[e].held && k in execs[e].active
    ensures ExecsOk(execs[e := X.AfterBegin(execs[e], k, now)], home, if X.Invokes(execs[e], k, now) then starts + [k] else starts)
  {
    var execs' := execs[e := X.AfterBegin(execs[e], k, now)];
    var starts' := if X.Invokes(execs[e], k, now) then starts + [k] else starts;
    assert ExecOk(execs, home, starts, e);
    assert k !in X.Executing(execs[e]);
    X.BeginKeepsConsistent(execs[e], k, now);
    forall d ensures ExecOk(execs', home, starts', d) { assert ExecOk(execs, home, starts, d); }
  }

  lemma BeginKeeps(s: State, e: Id, k: X.Key, now: Time)
    requires Inv(s)
    ensures Inv(Begin(s, e, k, now))
  {
    if e in s.execs && k in s.execs[e].held && k in s.execs[e].active {
      var s' := Begin(s, e, k, now);
      BeginKeepsExecs(s.execs, s.hist.home, s.hist.starts, e, k, now);
      forall j ensures AttemptOk(s'.db, s'.net, s'.hist, j) { assert AttemptOk(s.db, s.net, s.hist, j); }
      forall t ensures AccountOk(s'.db, s'.hist, t) { assert AccountOk(s.db, s.hist, t); }
    }
  }

  // ----- every step -----

  lemma ParentStepKeeps(s: State, ev: ParentEvent)
    requires Inv(s)
    ensures Inv(NextParent(s, ev)) && Evolves(s.db, NextParent(s, ev).db)
  {
    EvolvesReflexive(s.db);
    match ev
    case EInsert(i, inst) => if i !in s.db.instances && Fresh(inst) { InsertKeeps(s, i, inst); }
    case ELock(i, purpose) => LockKeeps(s, i, purpose);
    case ERollback(i) => RollbackKeeps(s, i);
    case ECommitStart(i, t, now, confirmed) => if StartCommits(s, i, t) { StartKeeps(s, i, t, now, confirmed); }
    case ECommitRetry(i, now, confirmed) => if RetryCommits(s, i, now) { RetryKeeps(s, i, now, confirmed); }
    case ECommitStop(i, now) => if StopCommits(s, i, now) { StopKeeps(s, i, now); }
    case EList(i, ids) => ListKeeps(s, i, ids);
    case ECommitCancel(i, now) => if CancelCommits(s, i) { CancelKeeps(s, i, now); }
    case ECommitFinish(i, now) => if FinishCommits(s, i) { FinishKeeps(s, i, now); }
    case EComplete(c, now) =>
      if c in s.seen.checks && CheckFacts(c.inst, c.child).CompleteAs? && c.instance !in s.open { CompleteKeeps(s, c, now); }
  }

  lemma TaskStepKeeps(s: State, ev: TaskEvent)
    requires Inv(s)
    ensures Inv(NextTask(s, ev)) && Evolves(s.db, NextTask(s, ev).db)
  {
    EvolvesReflexive(s.db);
    match ev
    case ESend(k) => SendKeeps(s, k);
    case EForget(k) => SendKeeps(s, k);
    case EDeliver(k, e, callLive, valid, now, heard, address, delay) =>
      if k in s.net.wire && e in s.execs { DeliverKeeps(s, k, e, callLive, valid, now, heard, address, delay); }
    case ETurnAway(k, heard, summary) => TurnAwayKeeps(s, k, heard, summary);
    case ESaveEvidence(v, now) => EvidenceKeeps(s, v, now);
    case EReadResult(r) => ReadResultKeeps(s, r);
    case ESaveResult(rd, now) => ResultKeeps(s, rd, now);
    case EReadSettlement(c, now, period) => ReadSettlementKeeps(s, c, now, period);
    case ESaveSettlement(id, w, now) => SettlementKeeps(s, id, w, now);
    case EReadCheck(i) => ReadCheckKeeps(s, i);
  }

  lemma ExecutorStepKeeps(s: State, ev: ExecutorEvent)
    requires Inv(s)
    ensures Inv(NextExecutor(s, ev)) && NextExecutor(s, ev).db == s.db
  {
    match ev
    case EBoot(e, capacity) => BootKeeps(s, e, capacity);
    case ECrash(e) => CrashKeeps(s, e);
    case EReady(e) => ReadyKeeps(s, e);
    case EReceive(e) => ReceiveKeeps(s, e);
    case EBegin(e, k, now) => BeginKeeps(s, e, k, now);
    case EReturn(e, k) => ReturnKeeps(s, e, k);
    case ESignal(e, i) => SignalKeeps(s, e, i);
    case EShutdown(e, abort) => ShutdownKeeps(s, e, abort);
  }

  /** Every event keeps the invariant and moves rows forward only. */
  lemma StepKeeps(s: State, ev: Event)
    requires Inv(s)
    ensures Inv(Next(s, ev)) && Evolves(s.db, Next(s, ev).db)
  {
    EvolvesReflexive(s.db);
    match ev
    case OnParent(p) => ParentStepKeeps(s, p);
    case OnTask(t) => TaskStepKeeps(s, t);
    case OnExecutor(x) => ExecutorStepKeeps(s, x);
  }

  lemma EvolvesTransitive(a: Db, b: Db, c: Db)
    requires Evolves(a, b) && Evolves(b, c)
    ensures Evolves(a, c)
  {
    forall t ensures TaskMoves(a, c, t) { assert TaskMoves(a, b, t) && TaskMoves(b, c, t); }
    forall i ensures ParentMoves(a, c, i) { assert ParentMoves(a, b, i) && ParentMoves(b, c, i); }
  }

  /** Every run keeps the invariant and moves rows forward only. */
  lemma {:induction false} RunKeeps(s: State, events: seq<Event>)
    requires Inv(s)
    ensures Inv(Run(s, events)) && Evolves(s.db, Run(s, events).db)
    decreases |events|
  {
    if events == [] {
      EvolvesReflexive(s.db);
    } else {
      StepKeeps(s, events[0]);
      RunKeeps(Next(s, events[0]), events[1..]);
      EvolvesTransitive(s.db, Next(s, events[0]).db, Run(s, events).db);
    }
  }

  lemma InitialOk()
    ensures Inv(INITIAL)
  {
    forall t ensures AccountOk(INITIAL.db, INITIAL.hist, t) {}
  }

  /** Reached by some run from the empty system. */
  ghost predicate Reachable(s: State) { exists events: seq<Event> :: s == Run(INITIAL, events) }

  lemma ReachableOk(s: State)
    requires Reachable(s)
    ensures Inv(s)
  {
    var events: seq<Event> :| s == Run(INITIAL, events);
    InitialOk();
    RunKeeps(INITIAL, events);
  }
}
