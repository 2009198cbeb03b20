/** The durable execution protocol: scheduler nodes, executors and recovery scans racing on
    the Instance and Task rows. Each event is one database statement, one commit or one
    mutex-protected section; an event whose guard does not hold changes nothing, as the call
    then waits, fails or matches no row. A run is therefore any sequence of events. */
module Protocol {
  import opened Base
  import opened Rows
  import X = ExecutorState

  // ----- what the participants hold -----

  /** Why a transaction locked its parent row. */
  datatype Purpose = Start | Retry(task: Id, attemptNo: int) | Stop(timeout: bool) | Batch(limit: nat)

  /** An open transaction: the parent row as read under the lock and, for a cancellation
      batch, its listed Task IDs. */
  datatype Tx = Tx(view: Instance, purpose: Purpose, listed: Option<seq<Id>>)

  /** A confirmed registration, with the frozen facts its dispatch carries. */
  datatype Grant = Grant(instance: Id, config: Config, deadline: Time)

  datatype Response = Ack(executor: Id, address: string) | BusyReply(delay: int) | Refusal(summary: string)

  /** A definite response to the one dispatch call of an attempt. */
  datatype Evidence = Evidence(key: X.Key, grant: Grant, response: Response)

  /** Dispatch permissions, calls on the wire, calls ever sent or delivered, responses kept. */
  datatype Net = Net(permits: map<X.Key, Grant>, wire: map<X.Key, Grant>,
                     sent: set<X.Key>, delivered: set<X.Key>, evidence: set<Evidence>)

  datatype ResultRead = ResultRead(result: BusinessResult, inst: Instance, task: Task)
  datatype CheckRead = CheckRead(instance: Id, inst: Instance, child: Option<Task>)

  /** Facts read without locks, kept until some later write uses them. */
  datatype Seen = Seen(results: set<ResultRead>, checks: set<CheckRead>, settlements: set<(Id, TaskWrite)>)

  /** What has happened: refunded attempts, how often each attempt was closed, which executor
      admitted an attempt, and every call of business code in order. */
  datatype History = History(refunded: set<X.Key>, closed: multiset<X.Key>, home: map<X.Key, Id>, starts: seq<X.Key>)

  datatype State = State(db: Db, open: map<Id, Tx>, net: Net, execs: map<Id, X.Exec>, seen: Seen, hist: History)

  const INITIAL := State(Db(map[], map[], map[]), map[], Net(map[], map[], {}, {}, {}), map[],
                         Seen({}, {}, {}), History({}, multiset{}, map[], []))

  // ----- registration, stop and completion transactions -----

  predicate Fresh(inst: Instance) {
    && inst.status == InstanceWaiting && inst.startedAt.None? && inst.deadlineAt.None?
    && inst.finishedAt.None? && inst.endReason.None?
  }

  function Insert(s: State, i: Id, inst: Instance): State {
    if i !in s.db.instances && Fresh(inst) then s.(db := s.db.(instances := s.db.instances[i := inst])) else s
  }

  function Lock(s: State, i: Id, purpose: Purpose): State {
    if i in s.db.instances && i !in s.open then s.(open := s.open[i := Tx(s.db.instances[i], purpose, None)]) else s
  }

  function Rollback(s: State, i: Id): State { s.(open := s.open - {i}) }

  predicate StartCommits(s: State, i: Id, t: Id) {
    && i in s.open && s.open[i].purpose.Start? && StartVerdict(s.open[i].view).Go?
    && StartApplies(s.db, i, t)
  }

  function CommitStart(s: State, i: Id, t: Id, now: Time, confirmed: bool): State {
    if StartCommits(s, i, t) then
      var view := s.open[i].view;
      Authorize(s.(db := AfterStart(s.db, i, t, now), open := s.open - {i}), X.Key(t, 1),
                Grant(i, view.config, now + view.config.timeoutSeconds * SECOND), confirmed)
    else s
  }

  /** Only a confirmed commit grants the one permission to send. */
  function Authorize(s: State, k: X.Key, grant: Grant, confirmed: bool): State {
    if confirmed then s.(net := s.net.(permits := s.net.permits[k := grant])) else s
  }

  function RetryWrite(s: State, i: Id, now: Time): TaskWrite
    requires i in s.open && s.open[i].purpose.Retry?
  {
    Register(i, s.open[i].purpose.attemptNo, s.open[i].view.config.Budget(), now)
  }

  predicate RetryCommits(s: State, i: Id, now: Time) {
    && i in s.open && s.open[i].purpose.Retry? && RetryVerdict(s.open[i].view, now).Go?
    && Applies(s.db, s.open[i].purpose.task, RetryWrite(s, i, now))
  }

  function CommitRetry(s: State, i: Id, now: Time, confirmed: bool): State {
    if RetryCommits(s, i, now) then
      var view, purpose := s.open[i].view, s.open[i].purpose;
      Authorize(s.(db := AfterWrite(s.db, purpose.task, RetryWrite(s, i, now), now), open := s.open - {i}),
                X.Key(purpose.task, purpose.attemptNo + 1), Grant(i, view.config, view.deadlineAt.value), confirmed)
    else s
  }

  predicate StopCommits(s: State, i: Id, now: Time) {
    && i in s.open && s.open[i].purpose.Stop? && StopVerdict(s.open[i].view, s.open[i].purpose.timeout, now).Go?
    && i in s.db.instances && s.db.instances[i].status == s.open[i].view.status
  }

  function CommitStop(s: State, i: Id, now: Time): State {
    if StopCommits(s, i, now) then
      s.(db := AfterStop(s.db, i, StopReason(s.open[i].purpose.timeout)), open := s.open - {i})
    else s
  }

  predicate BatchMayList(s: State, i: Id) {
    && i in s.open && s.open[i].purpose.Batch? && 0 < s.open[i].purpose.limit && s.open[i].listed.None?
    && s.open[i].view.status == InstanceStopping && IsStopReason(s.open[i].view.endReason)
    && s.open[i].view.finishedAt.None?
  }

  ghost function List(s: State, i: Id, ids: seq<Id>): State {
    if BatchMayList(s, i) && IsListing(s.db, i, s.open[i].purpose.limit, ids) then
      s.(open := s.open[i := s.open[i].(listed := Some(ids))])
    else s
  }

  predicate CancelCommits(s: State, i: Id) {
    && i in s.open && s.open[i].listed.Some? && s.open[i].listed.value != [] && s.open[i].view.endReason.Some?
  }

  function RunningKeys(db: Db, i: Id, ids: seq<Id>): set<X.Key> {
    set t | t in db.tasks && t in ids && db.tasks[t].instance == i && db.tasks[t].status == TaskRunning
      :: X.Key(t, db.tasks[t].attemptNo)
  }

  function CommitCancel(s: State, i: Id, now: Time): State {
    if CancelCommits(s, i) then
      var ids := s.open[i].listed.value;
      s.(db := AfterCancel(s.db, i, ids, s.open[i].view.endReason.value, now), open := s.open - {i},
         hist := s.hist.(closed := s.hist.closed + multiset(RunningKeys(s.db, i, ids))))
    else s
  }

  predicate FinishCommits(s: State, i: Id) {
    i in s.open && s.open[i].listed == Some([]) && s.open[i].view.endReason.Some?
  }

  function CommitFinish(s: State, i: Id, now: Time): State {
    if FinishCommits(s, i) then
      s.(db := AfterFinish(s.db, i, s.open[i].view.endReason.value, now), open := s.open - {i})
    else s
  }

  // ----- dispatch -----

  function Send(s: State, k: X.Key): State {
    if k in s.net.permits then
      s.(net := s.net.(permits := s.net.permits - {k}, wire := s.net.wire[k := s.net.permits[k]], sent := s.net.sent + {k}))
    else s
  }

  /** The dispatch budget ran out before sending, or the call never arrives. */
  function Forget(s: State, k: X.Key): State {
    s.(net := s.net.(permits := s.net.permits - {k}, wire := s.net.wire - {k}))
  }

  function Delivered(net: Net, k: X.Key, answer: Option<Response>): Net
    requires k in net.wire
  {
    net.(wire := net.wire - {k}, delivered := net.delivered + {k},
         evidence := if answer.Some? then net.evidence + {Evidence(k, net.wire[k], answer.value)} else net.evidence)
  }

  /** The executor's admission decision as the dispatcher hears it; None is an unknown outcome. */
  function Answer(a: X.Admission, executor: Id, address: string, delay: int): Option<Response> {
    match a
    case Accepted => Some(Ack(executor, address))
    case Full => Some(BusyReply(delay))
    case Uncertain => None
    case _ => Some(Refusal("executor rejected dispatch before admission"))
  }

  function Deliver(s: State, k: X.Key, e: Id, callLive: bool, valid: bool, now: Time, heard: bool, address: string, delay: int): State {
    if k in s.net.wire && e in s.execs then
      var grant := s.net.wire[k];
      var admission := X.Admit(s.execs[e], k, grant.deadline, callLive, valid, now);
      var admitted := admission.Accepted? && k !in s.execs[e].active;
      s.(execs := s.execs[e := X.AfterAdmit(s.execs[e], k, grant.instance, grant.deadline, callLive, valid, now)],
         net := Delivered(s.net, k, if heard then Answer(admission, e, address, delay) else None),
         hist := if admitted then s.hist.(home := s.hist.home[k := e]) else s.hist)
    else s
  }

  /** Authentication, request or processor checks refuse the call before admission. */
  function TurnAway(s: State, k: X.Key, heard: bool, summary: string): State {
    if k in s.net.wire then s.(net := Delivered(s.net, k, if heard then Some(Refusal(summary)) else None)) else s
  }

  // ----- independent task writes -----

  /** Whether a write ends the attempt it matches. */
  predicate Closes(w: TaskWrite) { !w.Bind? && !w.Register? }

  function AfterClose(hist: History, k: X.Key, close: bool, refund: bool): History {
    hist.(closed := if close then hist.closed + multiset{k} else hist.closed,
          refunded := if refund then hist.refunded + {k} else hist.refunded)
  }

  function WriteTask(s: State, id: Id, w: TaskWrite, now: Time): State {
    if WellFormed(w) && Applies(s.db, id, w) then
      s.(db := AfterWrite(s.db, id, w, now), hist := AfterClose(s.hist, X.Key(id, w.attemptNo), Closes(w), w.Busy?))
    else s
  }

  function EvidenceWrite(ev: Evidence): TaskWrite {
    match ev.response
    case Ack(executor, address) => Bind(ev.grant.instance, ev.key.attemptNo, executor, address)
    case BusyReply(delay) => Busy(ev.grant.instance, ev.key.attemptNo, delay)
    case Refusal(summary) =>
      Reject(ev.grant.instance, ev.key.attemptNo, ev.grant.config.maxRetries, ev.grant.config.retryInterval, summary)
  }

  function SaveEvidence(s: State, ev: Evidence, now: Time): State {
    if ev in s.net.evidence then WriteTask(s, ev.key.task, EvidenceWrite(ev), now) else s
  }

  function ReadResult(s: State, r: BusinessResult): State {
    if r.Valid() && r.task in s.db.tasks && s.db.tasks[r.task].instance in s.db.instances then
      var t := s.db.tasks[r.task];
      s.(seen := s.seen.(results := s.seen.results + {ResultRead(r, s.db.instances[t.instance], t)}))
    else s
  }

  function SaveResult(s: State, rd: ResultRead, now: Time): State {
    var verdict := ResultFacts(rd.result, rd.inst, rd.task);
    if rd in s.seen.results && verdict.Write? then WriteTask(s, rd.result.task, verdict.write, now) else s
  }

  function ReadSettlement(s: State, c: Row, processedAt: Time, period: int): State {
    if 0 < period && c.id in s.db.tasks && s.db.tasks[c.id].instance in s.db.instances then
      var t := s.db.tasks[c.id];
      var verdict := SettleFacts(c, s.db.instances[t.instance], t, processedAt, period);
      if verdict.Proceed? then s.(seen := s.seen.(settlements := s.seen.settlements + {(c.id, verdict.write)})) else s
    else s
  }

  function SaveSettlement(s: State, id: Id, w: TaskWrite, now: Time): State {
    if (id, w) in s.seen.settlements then WriteTask(s, id, w, now) else s
  }

  function Child(db: Db, i: Id): Option<Task> {
    if i in db.ordinary && db.ordinary[i] in db.tasks then Some(db.tasks[db.ordinary[i]]) else None
  }

  function ReadCheck(s: State, i: Id): State {
    if i in s.db.instances then
      s.(seen := s.seen.(checks := s.seen.checks + {CheckRead(i, s.db.instances[i], Child(s.db, i))}))
    else s
  }

  /** The completing UPDATE waits while another transaction holds the parent row. */
  function Complete(s: State, c: CheckRead, now: Time): State {
    var verdict := CheckFacts(c.inst, c.child);
    if c in s.seen.checks && verdict.CompleteAs? && c.instance !in s.open then
      s.(db := AfterComplete(s.db, c.instance, verdict.target, verdict.summary, now))
    else s
  }

  // ----- executor processes -----

  function Boot(s: State, e: Id, capacity: nat): State {
    if e !in s.execs then s.(execs := s.execs[e := X.IDLE.(capacity := capacity)]) else s
  }

  function Crash(s: State, e: Id): State { s.(execs := s.execs - {e}) }

  function Ready(s: State, e: Id): State {
    if e in s.execs && !s.execs[e].stopping then s.(execs := s.execs[e := s.execs[e].(started := true)]) else s
  }

  function Receive(s: State, e: Id): State {
    if e in s.execs && s.execs[e].queue != [] then s.(execs := s.execs[e := X.AfterReceive(s.execs[e])]) else s
  }

  function Begin(s: State, e: Id, k: X.Key, now: Time): State {
    if e in s.execs && k in s.execs[e].held && k in s.execs[e].active then
      s.(execs := s.execs[e := X.AfterBegin(s.execs[e], k, now)],
         hist := if X.Invokes(s.execs[e], k, now) then s.hist.(starts := s.hist.starts + [k]) else s.hist)
    else s
  }

  function Return(s: State, e: Id, k: X.Key): State {
    if e in s.execs && k in X.Executing(s.execs[e]) then s.(execs := s.execs[e := X.AfterReturn(s.execs[e], k)]) else s
  }

  function Signal(s: State, e: Id, i: Id): State {
    if e in s.execs then s.(execs := s.execs[e := X.AfterCancel(s.execs[e], i)]) else s
  }

  function Shutdown(s: State, e: Id, abort: bool): State {
    if e in s.execs then
      var x := s.execs[e].(stopping := true);
      s.(execs := s.execs[e := if abort then X.AfterAbort(x) else x])
    else s
  }

  // ----- runs -----

  datatype ParentEvent =
    | EInsert(i: Id, inst: Instance) | ELock(i: Id, purpose: Purpose) | ERollback(i: Id)
    | ECommitStart(i: Id, t: Id, now: Time, confirmed: bool) | ECommitRetry(i: Id, now: Time, confirmed: bool)
    | ECommitStop(i: Id, now: Time) | EList(i: Id, ids: seq<Id>) | ECommitCancel(i: Id, now: Time) | ECommitFinish(i: Id, now: Time)
    | EComplete(check: CheckRead, now: Time)

  datatype TaskEvent =
    | ESend(k: X.Key) | EForget(k: X.Key)
    | EDeliver(k: X.Key, e: Id, callLive: bool, valid: bool, now: Time, heard: bool, address: string, delay: int)
    | ETurnAway(k: X.Key, heard: bool, summary: string)
    | ESaveEvidence(ev: Evidence, now: Time) | EReadResult(r: BusinessResult) | ESaveResult(rd: ResultRead, now: Time)
    | EReadSettlement(c: Row, now: Time, period: int) | ESaveSettlement(id: Id, w: TaskWrite, now: Time)
    | EReadCheck(i: Id)

  datatype ExecutorEvent =
    | EBoot(e: Id, capacity: nat) | ECrash(e: Id) | EReady(e: Id) | EReceive(e: Id) | EBegin(e: Id, k: X.Key, now: Time)
    | EReturn(e: Id, k: X.Key) | ESignal(e: Id, i: Id) | EShutdown(e: Id, abort: bool)

  datatype Event = OnParent(p: ParentEvent) | OnTask(t: TaskEvent) | OnExecutor(x: ExecutorEvent)

  ghost function NextParent(s: State, ev: ParentEvent): State {
    match ev
    case EInsert(i, inst) => Insert(s, i, inst)
    case ELock(i, purpose) => Lock(s, i, purpose)
    case ERollback(i) => Rollback(s, i)
    case ECommitStart(i, t, now, confirmed) => CommitStart(s, i, t, now, confirmed)
    case ECommitRetry(i, now, confirmed) => CommitRetry(s, i, now, confirmed)
    case ECommitStop(i, now) => CommitStop(s, i, now)
    case EList(i, ids) => List(s, i, ids)
    case ECommitCancel(i, now) => CommitCancel(s, i, now)
    case ECommitFinish(i, now) => CommitFinish(s, i, now)
    case EComplete(c, now) => Complete(s, c, now)
  }

  function NextTask(s: State, ev: TaskEvent): State {
    match ev
    case ESend(k) => Send(s, k)
    case EForget(k) => Forget(s, k)
    case EDeliver(k, e, callLive, valid, now, heard, address, delay) => Deliver(s, k, e, callLive, valid, now, heard, address, delay)
    case ETurnAway(k, heard, summary) => TurnAway(s, k, heard, summary)
    case ESaveEvidence(v, now) => SaveEvidence(s, v, now)
    case EReadResult(r) => ReadResult(s, r)
    case ESaveResult(rd, now) => SaveResult(s, rd, now)
    case EReadSettlement(c, now, period) => ReadSettlement(s, c, now, period)
    case ESaveSettlement(id, w, now) => SaveSettlement(s, id, w, now)
    case EReadCheck(i) => ReadCheck(s, i)
  }

  function NextExecutor(s: State, ev: ExecutorEvent): State {
    match ev
    case EBoot(e, capacity) => Boot(s, e, capacity)
    case ECrash(e) => Crash(s, e)
    case EReady(e) => Ready(s, e)
    case EReceive(e) => Receive(s, e)
    case EBegin(e, k, now) => Begin(s, e, k, now)
    case EReturn(e, k) => Return(s, e, k)
    case ESignal(e, i) => Signal(s, e, i)
    case EShutdown(e, abort) => Shutdown(s, e, abort)
  }

  ghost function Next(s: State, ev: Event): State {
    match ev
    case OnParent(p) => NextParent(s, p)
    case OnTask(t) => NextTask(s, t)
    case OnExecutor(x) => NextExecutor(s, x)
  }

  ghost function Run(s: State, events: seq<Event>): State
    decreases |events|
  {
    if events == [] then s else Run(Next(s, events[0]), events[1..])
  }
}
