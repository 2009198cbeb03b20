/** What every event of the execution protocol keeps. Invariants are stated per row, per lock
    and per attempt, so that a proof names the items it needs. */
module ProtocolInvariant {
  import opened Base
  import opened Rows
  import opened Protocol
  import X = ExecutorState

  // ----- rows -----

  predicate InstanceOk(inst: Instance) {
    match inst.status
    case InstanceWaiting => inst.startedAt.None? && inst.deadlineAt.None? && inst.finishedAt.None? && inst.endReason.None?
    case InstanceRunning => RunningTimes(inst) && inst.finishedAt.None? && inst.endReason.None? && inst.config.Executable()
    case InstanceStopping => inst.finishedAt.None? && IsStopReason(inst.endReason)
    case InstanceSucceeded => inst.finishedAt.Some? && inst.endReason == Some(Success)
    case InstanceFailed => inst.finishedAt.Some? && (inst.endReason == Some(ExecutionFailed) || inst.endReason == Some(InstanceTimeout))
    case InstanceCanceled => inst.finishedAt.Some? && inst.endReason == Some(ManualStop)
  }

  /** The ordinary Task of a started Instance: its budget, its columns, and its parent's
      end state. */
  predicate TaskOk(t: Task, inst: Instance) {
    && t.kind == Ordinary && t.status != TaskWaiting && 1 <= t.attemptNo
    && inst.config.Executable() && inst.status != InstanceWaiting
    && 0 <= t.usedAttempts <= inst.config.Budget()
    && (t.status == TaskRunning ==> 1 <= t.usedAttempts)
    && (t.status == TaskRetryWaiting ==> t.usedAttempts < inst.config.Budget())
    && (t.nextDispatchAt.Some? <==> t.status == TaskRetryWaiting)
    && (t.status.Unfinished() <==> t.finishedAt.None?)
    && (t.status.Unfinished() <==> t.endReason.None?)
    && (inst.status.Terminal() ==> !t.status.Unfinished())
    && (t.status == TaskCanceled ==> IsStopReason(inst.endReason))
    && (inst.endReason == Some(Success) ==> t.status == TaskSucceeded)
    && (inst.endReason == Some(ExecutionFailed) ==> t.status == TaskFailed)
  }

  /** The parent runs its ordinary Task or has ended by that Task's result. */
  predicate NeedsTask(inst: Instance) {
    inst.status == InstanceRunning || inst.endReason == Some(Success) || inst.endReason == Some(ExecutionFailed)
  }

  ghost predicate ParentOk(db: Db, i: Id) {
    i in db.instances ==>
      && InstanceOk(db.instances[i])
      && (NeedsTask(db.instances[i]) ==> i in db.ordinary)
      && (db.instances[i].status == InstanceWaiting ==> i !in db.ordinary)
  }

  ghost predicate RowOk(db: Db, t: Id) {
    t in db.tasks ==>
      && db.tasks[t].instance in db.instances && TaskOk(db.tasks[t], db.instances[db.tasks[t].instance])
      && db.tasks[t].instance in db.ordinary && db.ordinary[db.tasks[t].instance] == t
  }

  ghost predicate IndexOk(db: Db, i: Id) {
    i in db.ordinary ==>
      i in db.instances && db.ordinary[i] in db.tasks && db.tasks[db.ordinary[i]].instance == i
  }

  ghost predicate DbOk(db: Db) {
    && (forall i {:trigger ParentOk(db, i)} :: ParentOk(db, i))
    && (forall t {:trigger RowOk(db, t)} :: RowOk(db, t))
    && (forall i {:trigger IndexOk(db, i)} :: IndexOk(db, i))
  }

  /** A locked row still is what its owner read; an empty listing stays empty. */
  ghost predicate LockOk(db: Db, open: map<Id, Tx>, i: Id) {
    i in open ==>
      && i in db.instances && open[i].view == db.instances[i]
      && (open[i].listed.Some? ==>
            && open[i].purpose.Batch? && open[i].view.status == InstanceStopping && Ascending(open[i].listed.value)
            && (open[i].listed.value == [] ==> Unfinished(db, i) == {}))
  }

  ghost predicate LocksOk(db: Db, open: map<Id, Tx>) {
    forall i {:trigger LockOk(db, open, i)} :: LockOk(db, open, i)
  }

  // ----- messages -----

  predicate Known(db: Db, k: X.Key) { k.task in db.tasks && 1 <= k.attemptNo <= db.tasks[k.task].attemptNo }

  predicate GrantOk(db: Db, k: X.Key, g: Grant) {
    && Known(db, k) && g.instance == db.tasks[k.task].instance
    && g.instance in db.instances && g.config == db.instances[g.instance].config
  }

  /** An attempt is permitted, then sent, then delivered, each at most once. */
  ghost predicate RouteOk(db: Db, net: Net, home: map<X.Key, Id>, k: X.Key) {
    && (k in net.permits ==> GrantOk(db, k, net.permits[k]) && k !in net.sent)
    && (k in net.wire ==> GrantOk(db, k, net.wire[k]) && k in net.sent && k !in net.delivered)
    && (k in net.sent ==> Known(db, k))
    && (k in net.delivered ==> k in net.sent)
    && (k in home ==> k in net.delivered)
  }

  /** A refusal proves that no executor admitted the attempt. */
  ghost predicate EvidenceOk(db: Db, net: Net, home: map<X.Key, Id>, v: Evidence) {
    v in net.evidence ==>
      GrantOk(db, v.key, v.grant) && v.key in net.delivered && (!v.response.Ack? ==> v.key !in home)
  }

  ghost predicate NetOk(db: Db, net: Net, home: map<X.Key, Id>) {
    && (forall k {:trigger RouteOk(db, net, home, k)} :: RouteOk(db, net, home, k))
    && (forall v {:trigger EvidenceOk(db, net, home, v)} :: EvidenceOk(db, net, home, v))
  }

  // ----- attempts -----

  ghost function RefundsOf(refunded: set<X.Key>, t: Id): set<X.Key> { set k | k in refunded && k.task == t }

  ghost predicate AttemptOk(db: Db, net: Net, hist: History, k: X.Key) {
    && (k in hist.refunded ==> Known(db, k) && k in net.delivered && k !in hist.home)
    && (k in hist.closed ==> Known(db, k) && hist.closed[k] == 1)
  }

  /** Conservation of opportunities: what is used plus what was refunded is what was numbered. */
  ghost predicate AccountOk(db: Db, hist: History, t: Id) {
    t in db.tasks ==>
      && db.tasks[t].usedAttempts + |RefundsOf(hist.refunded, t)| == db.tasks[t].attemptNo
      && (db.tasks[t].status == TaskRunning ==>
            X.Key(t, db.tasks[t].attemptNo) !in hist.closed && X.Key(t, db.tasks[t].attemptNo) !in hist.refunded)
  }

  ghost predicate LedgerOk(db: Db, net: Net, hist: History) {
    && (forall k {:trigger AttemptOk(db, net, hist, k)} :: AttemptOk(db, net, hist, k))
    && (forall t {:trigger AccountOk(db, hist, t)} :: AccountOk(db, hist, t))
  }

  /** Business code runs only for work its executor admitted, and once. */
  ghost predicate ExecOk(execs: map<Id, X.Exec>, home: map<X.Key, Id>, starts: seq<X.Key>, e: Id) {
    e in execs ==>
      && X.Consistent(execs[e])
      && (forall k | k in execs[e].active ::
            k in home && home[k] == e && (!execs[e].active[k].executing ==> k !in starts))
  }

  ghost predicate ExecsOk(execs: map<Id, X.Exec>, home: map<X.Key, Id>, starts: seq<X.Key>) {
    && (forall e {:trigger ExecOk(execs, home, starts, e)} :: ExecOk(execs, home, starts, e))
    && (forall a, b | 0 <= a < b < |starts| :: starts[a] != starts[b])
    && (forall k | k in starts :: k in home)
  }

  // ----- how rows move -----

  /** How a row may differ from an earlier version of itself: attempts only advance, an attempt
      still running is the attempt that was read, and a finished row is frozen. */
  predicate TaskEvolves(x: Task, y: Task) {
    && y.instance == x.instance && y.kind == x.kind && x.attemptNo <= y.attemptNo
    && (y.attemptNo == x.attemptNo && y.status == TaskRunning ==> x.status == TaskRunning && y.usedAttempts == x.usedAttempts)
    && (!x.status.Unfinished() ==> y == x)
  }

  /** A parent's snapshot and times are frozen, it gets one end decision, and a stop decision
      leads only to the terminal state its reason selects. */
  predicate InstanceEvolves(x: Instance, y: Instance) {
    && y.job == x.job && y.group == x.group && y.config == x.config
    && (x.startedAt.Some? ==> y.startedAt == x.startedAt && y.deadlineAt == x.deadlineAt)
    && (x.endReason.Some? ==> y.endReason == x.endReason)
    && (x.status == InstanceStopping && x.endReason.Some? ==> y.status == InstanceStopping || y.status == StopTarget(x.endReason.value))
    && (x.status.Terminal() ==> y == x)
    && (x.status != InstanceWaiting ==> y.status != InstanceWaiting)
  }

  ghost predicate TaskMoves(a: Db, b: Db, t: Id) { t in a.tasks ==> t in b.tasks && TaskEvolves(a.tasks[t], b.tasks[t]) }

  ghost predicate ParentMoves(a: Db, b: Db, i: Id) {
    && (i in a.instances ==> i in b.instances && InstanceEvolves(a.instances[i], b.instances[i]))
    && (i in a.ordinary ==> i in b.ordinary && b.ordinary[i] == a.ordinary[i])
  }

  ghost predicate Evolves(a: Db, b: Db) {
    && (forall t {:trigger TaskMoves(a, b, t)} :: TaskMoves(a, b, t))
    && (forall i {:trigger ParentMoves(a, b, i)} :: ParentMoves(a, b, i))
  }

  // ----- stale reads -----

  ghost predicate ResultReadOk(db: Db, seen: Seen, rd: ResultRead) {
    rd in seen.results ==>
      && rd.result.task in db.tasks && rd.task.instance in db.instances
      && TaskEvolves(rd.task, db.tasks[rd.result.task])
      && rd.inst.config == db.instances[rd.task.instance].config
      && rd.inst.job == db.instances[rd.task.instance].job && rd.inst.group == db.instances[rd.task.instance].group
  }

  ghost predicate CheckReadOk(db: Db, seen: Seen, c: CheckRead) {
    c in seen.checks ==>
      && c.instance in db.instances && c.inst.config == db.instances[c.instance].config
      && (c.child.Some? ==>
            c.instance in db.ordinary && db.ordinary[c.instance] in db.tasks
            && TaskEvolves(c.child.value, db.tasks[db.ordinary[c.instance]]))
  }

  ghost predicate SettlementOk(db: Db, seen: Seen, id: Id, w: TaskWrite) {
    (id, w) in seen.settlements ==>
      && w.Settle? && id in db.tasks && w.instance == db.tasks[id].instance && w.instance in db.instances
      && w.maxAttempts == db.instances[w.instance].config.Budget()
      && w.retryAt == w.processedAt + db.instances[w.instance].config.retryInterval * SECOND
  }

  ghost predicate SeenOk(db: Db, seen: Seen) {
    && (forall rd {:trigger ResultReadOk(db, seen, rd)} :: ResultReadOk(db, seen, rd))
    && (forall c {:trigger CheckReadOk(db, seen, c)} :: CheckReadOk(db, seen, c))
    && (forall id, w {:trigger SettlementOk(db, seen, id, w)} :: SettlementOk(db, seen, id, w))
  }

  ghost predicate Inv(s: State) {
    && DbOk(s.db) && LocksOk(s.db, s.open) && NetOk(s.db, s.net, s.hist.home)
    && LedgerOk(s.db, s.net, s.hist) && ExecsOk(s.execs, s.hist.home, s.hist.starts) && SeenOk(s.db, s.seen)
  }

  // ----- facts that only move forward -----

  lemma GrantEvolves(a: Db, b: Db, k: X.Key, g: Grant)
    requires Evolves(a, b) && GrantOk(a, k, g)
    ensures GrantOk(b, k, g)
  {
    assert TaskMoves(a, b, k.task) && ParentMoves(a, b, g.instance);
  }

  lemma NetEvolves(a: Db, b: Db, net: Net, home: map<X.Key, Id>)
    requires Evolves(a, b) && NetOk(a, net, home)
    ensures NetOk(b, net, home)
  {
    forall k ensures RouteOk(b, net, home, k) {
      assert RouteOk(a, net, home, k) && TaskMoves(a, b, k.task);
      if k in net.permits { GrantEvolves(a, b, k, net.permits[k]); }
      if k in net.wire { GrantEvolves(a, b, k, net.wire[k]); }
    }
    forall v ensures EvidenceOk(b, net, home, v) {
      assert EvidenceOk(a, net, home, v);
      if v in net.evidence { GrantEvolves(a, b, v.key, v.grant); }
    }
  }

  lemma SeenEvolves(a: Db, b: Db, seen: Seen)
    requires Evolves(a, b) && SeenOk(a, seen)
    ensures SeenOk(b, seen)
  {
    forall rd ensures ResultReadOk(b, seen, rd) {
      assert ResultReadOk(a, seen, rd) && TaskMoves(a, b, rd.result.task) && ParentMoves(a, b, rd.task.instance);
    }
    forall c ensures CheckReadOk(b, seen, c) {
      assert CheckReadOk(a, seen, c) && ParentMoves(a, b, c.instance);
      if c in seen.checks && c.child.Some? { assert TaskMoves(a, b, a.ordinary[c.instance]); }
    }
    forall id, w ensures SettlementOk(b, seen, id, w) {
      assert SettlementOk(a, seen, id, w) && TaskMoves(a, b, id) && ParentMoves(a, b, w.instance);
    }
  }

  /** Locks survive a change that leaves their rows alone and only finishes their Tasks. */
  lemma LocksEvolve(a: Db, b: Db, open: map<Id, Tx>, open': map<Id, Tx>)
    requires Evolves(a, b) && LocksOk(a, open)
    requires forall i | i in open' :: i in open && open'[i] == open[i]
    requires forall i | i in open' && i in a.instances :: i in b.instances && b.instances[i] == a.instances[i]
    requires forall t | t in b.tasks && t !in a.tasks :: b.tasks[t].instance !in open'
    ensures LocksOk(b, open')
  {
    forall i ensures LockOk(b, open', i) {
      assert LockOk(a, open, i);
      if i in open' && Unfinished(a, i) == {} {
        forall t | t in Unfinished(b, i) ensures t in Unfinished(a, i) { assert TaskMoves(a, b, t); }
        assert Unfinished(b, i) <= Unfinished(a, i);
      }
    }
  }

  /** A commit may change the row it locked and add Tasks to it, and releases the lock. */
  lemma CommitKeeps(s: State, db': Db, i: Id)
    requires Inv(s) && Evolves(s.db, db')
    requires forall j | j in s.db.instances && j != i :: j in db'.instances && db'.instances[j] == s.db.instances[j]
    requires forall t | t in db'.tasks && t !in s.db.tasks :: db'.tasks[t].instance == i
    ensures LocksOk(db', s.open - {i}) && NetOk(db', s.net, s.hist.home) && SeenOk(db', s.seen)
  {
    LocksEvolve(s.db, db', s.open, s.open - {i});
    NetEvolves(s.db, db', s.net, s.hist.home);
    SeenEvolves(s.db, db', s.seen);
  }

  // ----- one Task row changes -----

  lemma RowChangeKeepsDb(db: Db, id: Id, y: Task)
    requires DbOk(db) && id in db.tasks && TaskEvolves(db.tasks[id], y)
    requires db.tasks[id].instance in db.instances && TaskOk(y, db.instances[db.tasks[id].instance])
    ensures DbOk(db.(tasks := db.tasks[id := y])) && Evolves(db, db.(tasks := db.tasks[id := y]))
  {
    var db' := db.(tasks := db.tasks[id := y]);
    forall t ensures RowOk(db', t) && TaskMoves(db, db', t) { assert RowOk(db, t) && RowOk(db, id); }
    forall i ensures ParentOk(db', i) && IndexOk(db', i) && ParentMoves(db, db', i) { assert ParentOk(db, i) && IndexOk(db, i); }
  }

  lemma RowChangeKeepsRest(s: State, id: Id, y: Task)
    requires Inv(s) && id in s.db.tasks && Evolves(s.db, s.db.(tasks := s.db.tasks[id := y]))
    ensures LocksOk(s.db.(tasks := s.db.tasks[id := y]), s.open)
    ensures NetOk(s.db.(tasks := s.db.tasks[id := y]), s.net, s.hist.home)
    ensures SeenOk(s.db.(tasks := s.db.tasks[id := y]), s.seen)
  {
    var db' := s.db.(tasks := s.db.tasks[id := y]);
    LocksEvolve(s.db, db', s.open, s.open);
    NetEvolves(s.db, db', s.net, s.hist.home);
    SeenEvolves(s.db, db', s.seen);
  }

  lemma CloseKeepsLedger(db: Db, net: Net, hist: History, id: Id, y: Task, close: bool, refund: bool)
    requires LedgerOk(db, net, hist) && id in db.tasks && db.tasks[id].status == TaskRunning
    requires 1 <= db.tasks[id].attemptNo == y.attemptNo && (close <==> y.status != TaskRunning)
    requires y.usedAttempts == if refund then db.tasks[id].usedAttempts - 1 else db.tasks[id].usedAttempts
    requires refund ==> close && X.Key(id, y.attemptNo) in net.delivered && X.Key(id, y.attemptNo) !in hist.home
    ensures LedgerOk(db.(tasks := db.tasks[id := y]), net, AfterClose(hist, X.Key(id, y.attemptNo), close, refund))
  {
    var k, db' := X.Key(id, y.attemptNo), db.(tasks := db.tasks[id := y]);
    var hist' := AfterClose(hist, k, close, refund);
    assert AccountOk(db, hist, id);
    forall j ensures AttemptOk(db', net, hist', j) { assert AttemptOk(db, net, hist, j); }
    forall t ensures AccountOk(db', hist', t) {
      assert AccountOk(db, hist, t);
      assert RefundsOf(hist'.refunded, t) ==
             if refund && t == id then RefundsOf(hist.refunded, t) + {k} else RefundsOf(hist.refunded, t);
    }
  }

  lemma RowChangeKeeps(s: State, id: Id, y: Task, close: bool, refund: bool)
    requires Inv(s) && id in s.db.tasks && s.db.tasks[id].status == TaskRunning
    requires TaskEvolves(s.db.tasks[id], y)
    requires s.db.tasks[id].instance in s.db.instances && TaskOk(y, s.db.instances[s.db.tasks[id].instance])
    requires y.attemptNo == s.db.tasks[id].attemptNo && (close <==> y.status != TaskRunning)
    requires y.usedAttempts == if refund then s.db.tasks[id].usedAttempts - 1 else s.db.tasks[id].usedAttempts
    requires refund ==> close && X.Key(id, y.attemptNo) in s.net.delivered && X.Key(id, y.attemptNo) !in s.hist.home
    ensures Inv(s.(db := s.db.(tasks := s.db.tasks[id := y]), hist := AfterClose(s.hist, X.Key(id, y.attemptNo), close, refund)))
    ensures Evolves(s.db, s.db.(tasks := s.db.tasks[id := y]))
  {
    assert RowOk(s.db, id);
    RowChangeKeepsDb(s.db, id, y);
    RowChangeKeepsRest(s, id, y);
    CloseKeepsLedger(s.db, s.net, s.hist, id, y, close, refund);
  }

  // ----- independent writes -----

  /** The budget a write carries is the parent's frozen one, and a retry was decided with
      budget left. */
  predicate BudgetAgrees(w: TaskWrite, t: Task, config: Config) {
    && (w.Reject? ==> w.maxRetries == config.maxRetries)
    && (w.Settle? || w.Register? ==> w.maxAttempts == config.Budget())
    && (w.Report? && w.status == TaskRetryWaiting ==> t.usedAttempts < config.Budget())
  }

  lemma WriteKeepsRow(t: Task, w: TaskWrite, now: Time, inst: Instance)
    requires TaskOk(t, inst) && InstanceOk(inst) && Matches(t, w) && BudgetAgrees(w, t, inst.config)
    requires w.Register? || WellFormed(w)
    requires w.Register? ==> inst.status == InstanceRunning
    ensures TaskOk(Assign(t, w, now), inst) && TaskEvolves(t, Assign(t, w, now))
  {
  }

  lemma WriteShape(t: Task, w: TaskWrite, now: Time)
    requires Matches(t, w) && WellFormed(w) && !w.Register?
    ensures t.status == TaskRunning && Assign(t, w, now).attemptNo == t.attemptNo == w.attemptNo
    ensures Assign(t, w, now).usedAttempts == if w.Busy? then t.usedAttempts - 1 else t.usedAttempts
    ensures Closes(w) <==> Assign(t, w, now).status != TaskRunning
  {
  }

  lemma WriteTaskKeeps(s: State, id: Id, w: TaskWrite, now: Time)
    requires Inv(s) && !w.Register?
    requires (id in s.db.tasks && w.instance in s.db.instances && Matches(s.db.tasks[id], w)) ==>
               BudgetAgrees(w, s.db.tasks[id], s.db.instances[w.instance].config)
    requires w.Busy? ==> X.Key(id, w.attemptNo) in s.net.delivered && X.Key(id, w.attemptNo) !in s.hist.home
    ensures Inv(WriteTask(s, id, w, now)) && Evolves(s.db, WriteTask(s, id, w, now).db)
  {
    if WellFormed(w) && Applies(s.db, id, w) {
      assert RowOk(s.db, id) && ParentOk(s.db, w.instance);
      WriteKeepsRow(s.db.tasks[id], w, now, s.db.instances[w.instance]);
      WriteShape(s.db.tasks[id], w, now);
      RowChangeKeeps(s, id, Assign(s.db.tasks[id], w, now), Closes(w), w.Busy?);
    } else {
      EvolvesReflexive(s.db);
    }
  }

  lemma EvolvesReflexive(db: Db)
    ensures Evolves(db, db)
  {
  }

  lemma EvidenceKeeps(s: State, v: Evidence, now: Time)
    requires Inv(s)
    ensures Inv(SaveEvidence(s, v, now)) && Evolves(s.db, SaveEvidence(s, v, now).db)
  {
    EvolvesReflexive(s.db);
    if v in s.net.evidence {
      assert EvidenceOk(s.db, s.net, s.hist.home, v);
      WriteTaskKeeps(s, v.key.task, EvidenceWrite(v), now);
    }
  }

  /** The branch chosen from an earlier read is the one the row itself would choose whenever
      the write still applies. */
  lemma StaleResultAgrees(s: State, rd: ResultRead)
    requires SeenOk(s.db, s.seen) && rd in s.seen.results
    requires ResultFacts(rd.result, rd.inst, rd.task).Write?
    requires Applies(s.db, rd.result.task, ResultFacts(rd.result, rd.inst, rd.task).write)
    ensures rd.result.instance in s.db.instances
    ensures ResultWrite(rd.result, s.db.instances[rd.result.instance].config, s.db.tasks[rd.result.task].usedAttempts)
         == ResultFacts(rd.result, rd.inst, rd.task)
  {
    assert ResultReadOk(s.db, s.seen, rd);
  }

  lemma ResultKeeps(s: State, rd: ResultRead, now: Time)
    requires Inv(s)
    ensures Inv(SaveResult(s, rd, now)) && Evolves(s.db, SaveResult(s, rd, now).db)
  {
    EvolvesReflexive(s.db);
    var verdict := ResultFacts(rd.result, rd.inst, rd.task);
    if rd in s.seen.results && verdict.Write? {
      if Applies(s.db, rd.result.task, verdict.write) {
        StaleResultAgrees(s, rd);
      }
      WriteTaskKeeps(s, rd.result.task, verdict.write, now);
    }
  }

  lemma SettlementKeeps(s: State, id: Id, w: TaskWrite, now: Time)
    requires Inv(s)
    ensures Inv(SaveSettlement(s, id, w, now)) && Evolves(s.db, SaveSettlement(s, id, w, now).db)
  {
    EvolvesReflexive(s.db);
    if (id, w) in s.seen.settlements {
      assert SettlementOk(s.db, s.seen, id, w);
      WriteTaskKeeps(s, id, w, now);
    }
  }

  // ----- first start and retry registration -----

  lemma InsertKeeps(s: State, i: Id, inst: Instance)
    requires Inv(s) && i !in s.db.instances && Fresh(inst)
    ensures Inv(Insert(s, i, inst)) && Evolves(s.db, Insert(s, i, inst).db)
  {
    var db' := Insert(s, i, inst).db;
    InsertKeepsDb(s.db, i, inst);
    CommitKeeps(s, db', i);
    assert LockOk(s.db, s.open, i);
    assert s.open - {i} == s.open;
    forall k ensures AttemptOk(db', s.net, s.hist, k) { assert AttemptOk(s.db, s.net, s.hist, k); }
    forall t ensures AccountOk(db', s.hist, t) { assert AccountOk(s.db, s.hist, t); }
  }

  lemma InsertKeepsDb(db: Db, i: Id, inst: Instance)
    requires DbOk(db) && i !in db.instances && Fresh(inst)
    ensures DbOk(db.(instances := db.instances[i := inst])) && Evolves(db, db.(instances := db.instances[i := inst]))
  {
    var db' := db.(instances := db.instances[i := inst]);
    forall t ensures RowOk(db', t) && TaskMoves(db, db', t) { assert RowOk(db, t); }
    forall j ensures ParentOk(db', j) && IndexOk(db', j) && ParentMoves(db, db', j) { assert ParentOk(db, j) && IndexOk(db, j); }
  }

  lemma StartKeepsDb(db: Db, i: Id, t: Id, now: Time)
    requires DbOk(db) && StartApplies(db, i, t) && StartVerdict(db.instances[i]).Go?
    ensures DbOk(AfterStart(db, i, t, now)) && Evolves(db, AfterStart(db, i, t, now))
  {
    var db' := AfterStart(db, i, t, now);
    forall t' ensures RowOk(db', t') && TaskMoves(db, db', t') { assert RowOk(db, t') && ParentOk(db, i); }
    forall j ensures ParentOk(db', j) && IndexOk(db', j) && ParentMoves(db, db', j) { assert ParentOk(db, j) && IndexOk(db, j); }
  }

  lemma StartKeepsLedger(db: Db, net: Net, hist: History, i: Id, t: Id, now: Time)
    requires LedgerOk(db, net, hist) && i in db.instances && t !in db.tasks
    ensures LedgerOk(AfterStart(db, i, t, now), net, hist)
  {
    var db' := AfterStart(db, i, t, now);
    forall k ensures AttemptOk(db', net, hist, k) { assert AttemptOk(db, net, hist, k); }
    forall t' ensures AccountOk(db', hist, t') {
      assert AccountOk(db, hist, t') && AttemptOk(db, net, hist, X.Key(t, 1));
      if t' == t {
        forall k | k in hist.refunded ensures k.task != t { assert AttemptOk(db, net, hist, k); }
        assert RefundsOf(hist.refunded, t) == {};
      }
    }
  }

  /** A permission for an attempt just numbered is new. */
  lemma AuthorizeKeeps(s: State, k: X.Key, grant: Grant, confirmed: bool)
    requires Inv(s) && GrantOk(s.db, k, grant) && k !in s.net.sent
    ensures Inv(Authorize(s, k, grant, confirmed))
  {
    var net' := Authorize(s, k, grant, confirmed).net;
    forall j ensures RouteOk(s.db, net', s.hist.home, j) { assert RouteOk(s.db, s.net, s.hist.home, j); }
    forall v ensures EvidenceOk(s.db, net', s.hist.home, v) { assert EvidenceOk(s.db, s.net, s.hist.home, v); }
    forall j ensures AttemptOk(s.db, net', s.hist, j) { assert AttemptOk(s.db, s.net, s.hist, j); }
  }

  lemma StartKeeps(s: State, i: Id, t: Id, now: Time, confirmed: bool)
    requires Inv(s) && StartCommits(s, i, t)
    ensures Inv(CommitStart(s, i, t, now, confirmed)) && Evolves(s.db, CommitStart(s, i, t, now, confirmed).db)
  {
    var view := s.open[i].view;
    var s' := s.(db := AfterStart(s.db, i, t, now), open := s.open - {i});
    assert LockOk(s.db, s.open, i);
    StartKeepsDb(s.db, i, t, now);
    StartKeepsLedger(s.db, s.net, s.hist, i, t, now);
    CommitKeeps(s, s'.db, i);
    assert RouteOk(s.db, s.net, s.hist.home, X.Key(t, 1));
    AuthorizeKeeps(s', X.Key(t, 1), Grant(i, view.config, now + view.config.timeoutSeconds * SECOND), confirmed);
  }

  lemma RegisterKeepsLedger(db: Db, net: Net, hist: History, id: Id, y: Task)
    requires LedgerOk(db, net, hist) && id in db.tasks
    requires y.attemptNo == db.tasks[id].attemptNo + 1 && y.usedAttempts == db.tasks[id].usedAttempts + 1
    ensures LedgerOk(db.(tasks := db.tasks[id := y]), net, hist)
  {
    var db' := db.(tasks := db.tasks[id := y]);
    forall k ensures AttemptOk(db', net, hist, k) { assert AttemptOk(db, net, hist, k); }
    forall t ensures AccountOk(db', hist, t) {
      assert AccountOk(db, hist, t) && AttemptOk(db, net, hist, X.Key(id, y.attemptNo));
    }
  }

  lemma RegistrationKeeps(s: State, i: Id, id: Id, y: Task, grant: Grant, confirmed: bool)
    requires Inv(s) && i in s.open && id in s.db.tasks && s.db.tasks[id].instance == i == grant.instance
    requires grant.config == s.open[i].view.config && i in s.db.instances
    requires y.attemptNo == s.db.tasks[id].attemptNo + 1 && y.usedAttempts == s.db.tasks[id].usedAttempts + 1
    requires TaskEvolves(s.db.tasks[id], y) && TaskOk(y, s.db.instances[i])
    ensures Inv(Authorize(s.(db := s.db.(tasks := s.db.tasks[id := y]), open := s.open - {i}), X.Key(id, y.attemptNo), grant, confirmed))
    ensures Evolves(s.db, s.db.(tasks := s.db.tasks[id := y]))
  {
    var db', k := s.db.(tasks := s.db.tasks[id := y]), X.Key(id, y.attemptNo);
    assert LockOk(s.db, s.open, i) && RouteOk(s.db, s.net, s.hist.home, k);
    RowChangeKeepsDb(s.db, id, y);
    RegisterKeepsLedger(s.db, s.net, s.hist, id, y);
    CommitKeeps(s, db', i);
    AuthorizeKeeps(s.(db := db', open := s.open - {i}), k, grant, confirmed);
  }

  lemma RetryKeeps(s: State, i: Id, now: Time, confirmed: bool)
    requires Inv(s) && RetryCommits(s, i, now)
    ensures Inv(CommitRetry(s, i, now, confirmed)) && Evolves(s.db, CommitRetry(s, i, now, confirmed).db)
  {
    var id, w, view := s.open[i].purpose.task, RetryWrite(s, i, now), s.open[i].view;
    assert LockOk(s.db, s.open, i) && RowOk(s.db, id) && ParentOk(s.db, i);
    WriteKeepsRow(s.db.tasks[id], w, now, s.db.instances[i]);
    RegistrationKeeps(s, i, id, Assign(s.db.tasks[id], w, now), Grant(i, view.config, view.deadlineAt.value), confirmed);
  }

  // ----- end decisions -----

  /** The locked parent alone changes. */
  lemma ParentChangeKeepsDb(db: Db, i: Id, y: Instance)
    requires DbOk(db) && i in db.instances && InstanceOk(y) && InstanceEvolves(db.instances[i], y)
    requires y.status != InstanceRunning && y.status != InstanceWaiting && (NeedsTask(y) ==> i in db.ordinary)
    requires forall t | t in db.tasks && db.tasks[t].instance == i :: TaskOk(db.tasks[t], y)
    ensures DbOk(db.(instances := db.instances[i := y])) && Evolves(db, db.(instances := db.instances[i := y]))
  {
    var db' := db.(instances := db.instances[i := y]);
    forall t ensures RowOk(db', t) && TaskMoves(db, db', t) { assert RowOk(db, t); }
    forall j ensures ParentOk(db', j) && IndexOk(db', j) && ParentMoves(db, db', j) { assert ParentOk(db, j) && IndexOk(db, j); }
  }

  lemma ParentChangeKeeps(s: State, i: Id, y: Instance)
    requires Inv(s) && i in s.db.instances && InstanceOk(y) && InstanceEvolves(s.db.instances[i], y)
    requires y.status != InstanceRunning && y.status != InstanceWaiting && (NeedsTask(y) ==> i in s.db.ordinary)
    requires forall t | t in s.db.tasks && s.db.tasks[t].instance == i :: TaskOk(s.db.tasks[t], y)
    ensures Inv(s.(db := s.db.(instances := s.db.instances[i := y]), open := s.open - {i}))
    ensures Evolves(s.db, s.db.(instances := s.db.instances[i := y]))
  {
    var db' := s.db.(instances := s.db.instances[i := y]);
    ParentChangeKeepsDb(s.db, i, y);
    CommitKeeps(s, db', i);
    forall k ensures AttemptOk(db', s.net, s.hist, k) { assert AttemptOk(s.db, s.net, s.hist, k); }
    forall t ensures AccountOk(db', s.hist, t) { assert AccountOk(s.db, s.hist, t); }
  }

  lemma StopKeeps(s: State, i: Id, now: Time)
    requires Inv(s) && StopCommits(s, i, now)
    ensures Inv(CommitStop(s, i, now)) && Evolves(s.db, CommitStop(s, i, now).db)
  {
    assert LockOk(s.db, s.open, i) && ParentOk(s.db, i);
    var y := Stopped(s.db.instances[i], StopReason(s.open[i].purpose.timeout));
    forall t | t in s.db.tasks && s.db.tasks[t].instance == i ensures TaskOk(s.db.tasks[t], y) { assert RowOk(s.db, t); }
    ParentChangeKeeps(s, i, y);
  }

  lemma FinishKeeps(s: State, i: Id, now: Time)
    requires Inv(s) && FinishCommits(s, i)
    ensures Inv(CommitFinish(s, i, now)) && Evolves(s.db, CommitFinish(s, i, now).db)
    ensures FinishApplies(s.db, i, s.open[i].view.endReason.value)
  {
    assert LockOk(s.db, s.open, i) && ParentOk(s.db, i);
    var reason := s.open[i].view.endReason.value;
    var y := s.db.instances[i].(status := StopTarget(reason), finishedAt := Some(now));
    forall t | t in s.db.tasks && s.db.tasks[t].instance == i ensures TaskOk(s.db.tasks[t], y) {
      assert RowOk(s.db, t) && t !in Unfinished(s.db, i);
    }
    ParentChangeKeeps(s, i, y);
  }

  /** A completion that applies agrees with its Task as it is now. */
  lemma StaleCheckAgrees(s: State, c: CheckRead)
    requires SeenOk(s.db, s.seen) && c in s.seen.checks && CheckFacts(c.inst, c.child).CompleteAs?
    ensures c.instance in s.db.instances && c.instance in s.db.ordinary && s.db.ordinary[c.instance] in s.db.tasks
    ensures c.child == Some(s.db.tasks[s.db.ordinary[c.instance]])
    ensures s.db.instances[c.instance].status == InstanceRunning ==>
              CheckFacts(s.db.instances[c.instance], Child(s.db, c.instance)) == CheckFacts(c.inst, c.child)
  {
    assert CheckReadOk(s.db, s.seen, c);
  }

  lemma CompleteKeeps(s: State, c: CheckRead, now: Time)
    requires Inv(s) && c in s.seen.checks && CheckFacts(c.inst, c.child).CompleteAs? && c.instance !in s.open
    ensures Inv(Complete(s, c, now)) && Evolves(s.db, Complete(s, c, now).db)
  {
    EvolvesReflexive(s.db);
    var verdict, i := CheckFacts(c.inst, c.child), c.instance;
    if CompleteApplies(s.db, i) {
      StaleCheckAgrees(s, c);
      assert ParentOk(s.db, i);
      var y := Completed(s.db.instances[i], verdict.target, verdict.summary, now);
      forall t | t in s.db.tasks && s.db.tasks[t].instance == i ensures TaskOk(s.db.tasks[t], y) { assert RowOk(s.db, t); }
      ParentChangeKeeps(s, i, y);
      assert s.open - {i} == s.open;
    }
  }

  lemma CancelKeepsRow(db: Db, i: Id, ids: seq<Id>, reason: EndReason, now: Time, t: Id)
    requires DbOk(db) && i in db.instances
    requires db.instances[i].status == InstanceStopping && db.instances[i].endReason == Some(reason)
    ensures var db' := AfterCancel(db, i, ids, reason, now); RowOk(db', t) && TaskMoves(db, db', t)
  {
    assert ParentOk(db, i) && RowOk(db, t);
  }

  lemma CancelKeepsDb(db: Db, i: Id, ids: seq<Id>, reason: EndReason, now: Time)
    requires DbOk(db) && i in db.instances
    requires db.instances[i].status == InstanceStopping && db.instances[i].endReason == Some(reason)
    ensures DbOk(AfterCancel(db, i, ids, reason, now)) && Evolves(db, AfterCancel(db, i, ids, reason, now))
  {
    var db' := AfterCancel(db, i, ids, reason, now);
    forall t ensures RowOk(db', t) && TaskMoves(db, db', t) { CancelKeepsRow(db, i, ids, reason, now, t); }
    forall j ensures ParentOk(db', j) && IndexOk(db', j) && ParentMoves(db, db', j) { assert ParentOk(db, j) && IndexOk(db, j); }
  }

  lemma CancelKeepsLedger(db: Db, net: Net, hist: History, i: Id, ids: seq<Id>, reason: EndReason, now: Time)
    requires LedgerOk(db, net, hist) && DbOk(db)
    ensures LedgerOk(AfterCancel(db, i, ids, reason, now), net, hist.(closed := hist.closed + multiset(RunningKeys(db, i, ids))))
  {
    var running, db' := RunningKeys(db, i, ids), AfterCancel(db, i, ids, reason, now);
    var hist' := hist.(closed := hist.closed + multiset(running));
    forall k ensures AttemptOk(db', net, hist', k) {
      assert AttemptOk(db, net, hist, k) && AccountOk(db, hist, k.task) && RowOk(db, k.task);
    }
    forall t ensures AccountOk(db', hist', t) { assert AccountOk(db, hist, t); }
  }

  lemma CancelKeeps(s: State, i: Id, now: Time)
    requires Inv(s) && CancelCommits(s, i)
    ensures Inv(CommitCancel(s, i, now)) && Evolves(s.db, CommitCancel(s, i, now).db)
  {
    assert LockOk(s.db, s.open, i);
    var ids, reason := s.open[i].listed.value, s.open[i].view.endReason.value;
    CancelKeepsDb(s.db, i, ids, reason, now);
    CancelKeepsLedger(s.db, s.net, s.hist, i, ids, reason, now);
    CommitKeeps(s, AfterCancel(s.db, i, ids, reason, now), i);
  }
}
