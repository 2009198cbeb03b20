/** The conditional UPDATE statements on job_task and job_instance as guards and
    assignments on rows, and the decisions the scheduler takes from rows it has read. */
module Rows {
  import opened Base
  import opened Collections

  /** The committed rows. `ordinary` is the singleton index from an Instance to its
      ordinary Task. */
  datatype Db = Db(instances: map<Id, Instance>, tasks: map<Id, Task>, ordinary: map<Id, Id>)

  /** One conditional UPDATE of a single Task row; every case carries the identity it was
      decided for, never one reread later. */
  datatype TaskWrite =
    | Bind(instance: Id, attemptNo: int, executor: Id, address: string)
    | Busy(instance: Id, attemptNo: int, delay: int)
    | Reject(instance: Id, attemptNo: int, maxRetries: int, retryInterval: int, summary: string)
    | Report(instance: Id, attemptNo: int, executor: Id, status: TaskStatus, data: Option<string>,
             summary: string, retryInterval: int)
    | Settle(instance: Id, attemptNo: int, maxAttempts: int, processedAt: Time, cutoff: Time, retryAt: Time)
    | Register(instance: Id, attemptNo: int, maxAttempts: int, registeredAt: Time)

  /** The parameter checks made before any statement is issued. */
  predicate WellFormed(w: TaskWrite) {
    && 0 < w.instance && 0 < w.attemptNo
    && match w
       case Bind(_, _, _, _) => true
       case Busy(_, _, delay) => 0 < delay
       case Reject(_, _, maxRetries, retryInterval, _) => 0 <= maxRetries && 0 < retryInterval
       case Report(_, _, _, status, _, _, retryInterval) =>
         status == TaskSucceeded || status == TaskFailed || (status == TaskRetryWaiting && 0 < retryInterval)
       case Settle(_, _, maxAttempts, processedAt, cutoff, retryAt) =>
         0 < maxAttempts && cutoff < processedAt < retryAt
       case Register(_, _, maxAttempts, _) => 0 < maxAttempts
  }

  /** The WHERE clause. */
  predicate Matches(t: Task, w: TaskWrite) {
    && t.instance == w.instance && t.attemptNo == w.attemptNo
    && match w
       case Bind(_, _, _, _) => t.status == TaskRunning && Unbound(t)
       case Busy(_, _, _) => t.status == TaskRunning && t.kind == Ordinary && 0 < t.usedAttempts && Unbound(t)
       case Reject(_, _, _, _, _) => t.status == TaskRunning && t.kind == Ordinary && 0 < t.usedAttempts && Unbound(t)
       case Report(_, _, executor, _, _, _, _) =>
         t.status == TaskRunning && (t.executor.None? || t.executor == Some(executor))
       case Settle(_, _, _, _, cutoff, _) =>
         t.status == TaskRunning && t.kind == Ordinary && Unbound(t)
         && t.registeredAt.Some? && t.registeredAt.value <= cutoff
       case Register(_, _, maxAttempts, registeredAt) =>
         t.status == TaskRetryWaiting && t.kind == Ordinary && t.usedAttempts < maxAttempts
         && t.nextDispatchAt.Some? && t.nextDispatchAt.value <= registeredAt
  }

  predicate Unbound(t: Task) { t.executor.None? && t.address.None? }

  /** The SET clause, at database time `now`. */
  function Assign(t: Task, w: TaskWrite, now: Time): Task {
    match w
    case Bind(_, _, executor, address) => t.(executor := Some(executor), address := Some(address), updatedAt := now)
    case Busy(_, _, delay) =>
      Reopened(t, now + delay, "executor is busy; task was not accepted", now).(usedAttempts := t.usedAttempts - 1)
    case Reject(_, _, maxRetries, retryInterval, summary) =>
      if t.usedAttempts < maxRetries + 1 then Reopened(t, now + retryInterval * SECOND, summary, now)
      else Ended(t, TaskFailed, DispatchRejected, None, summary, now)
    case Report(_, _, _, status, data, summary, retryInterval) =>
      if status == TaskRetryWaiting then Reopened(t, now + retryInterval * SECOND, summary, now)
      else if status == TaskSucceeded then Ended(t, TaskSucceeded, Success, data, summary, now)
      else Ended(t, TaskFailed, ExecutionFailed, None, summary, now)
    case Settle(_, _, maxAttempts, processedAt, _, retryAt) =>
      if t.usedAttempts < maxAttempts then Reopened(t, retryAt, UNKNOWN_SUMMARY, processedAt)
      else Ended(t, TaskFailed, ResultUnknown, None, UNKNOWN_SUMMARY, processedAt)
    case Register(_, _, _, registeredAt) =>
      t.(status := TaskRunning, attemptNo := t.attemptNo + 1, usedAttempts := t.usedAttempts + 1,
         registeredAt := Some(registeredAt), nextDispatchAt := None, executor := None, address := None,
         data := None, finishedAt := None, endReason := None, updatedAt := registeredAt)
  }

  const UNKNOWN_SUMMARY := "execution result is unknown; executor binding and result were not recorded"

  /** The attempt is closed and another may follow at `retryAt`. */
  function Reopened(t: Task, retryAt: Time, summary: string, now: Time): Task {
    t.(status := TaskRetryWaiting, nextDispatchAt := Some(retryAt), data := None, summary := Some(summary),
       finishedAt := None, endReason := None, updatedAt := now)
  }

  /** A finished Task. */
  function Ended(t: Task, status: TaskStatus, reason: EndReason, data: Option<string>, summary: string, now: Time): Task {
    t.(status := status, nextDispatchAt := None, data := data, summary := Some(summary),
       finishedAt := Some(now), endReason := Some(reason), updatedAt := now)
  }

  /** PostgreSQL rejects the increments of a registration that leave their columns. */
  predicate Overflows(t: Task, w: TaskWrite) {
    w.Register? && (t.attemptNo == MAX_INT64 || t.usedAttempts == MAX_INT32)
  }

  predicate Applies(db: Db, id: Id, w: TaskWrite) {
    id in db.tasks && Matches(db.tasks[id], w) && !Overflows(db.tasks[id], w)
  }

  function AfterWrite(db: Db, id: Id, w: TaskWrite, now: Time): Db {
    if Applies(db, id, w) then db.(tasks := db.tasks[id := Assign(db.tasks[id], w, now)]) else db
  }

  // ----- parent transitions -----

  /** A locked parent is skipped, refused as inconsistent, or may go on. */
  datatype Verdict = Skip(checkParent: bool) | Refuse(error: Failure) | Go

  /** Only settings registration needs are decoded: a sharded snapshot is skipped undecoded. */
  function ConfigVerdict(config: Config): Verdict {
    if config.schemaVersion != 1 then Refuse(InvalidConfig)
    else if config.mode == Sharded then Skip(false)
    else if !config.Executable() then Refuse(InvalidConfig)
    else Go
  }

  function StartVerdict(inst: Instance): Verdict {
    if inst.status != InstanceWaiting then Skip(false)
    else if inst.startedAt.Some? || inst.deadlineAt.Some? || inst.finishedAt.Some? then Refuse(InvalidState)
    else if !ConfigVerdict(inst.config).Go? then ConfigVerdict(inst.config)
    else if inst.job <= 0 || inst.group <= 0 then Refuse(InvalidState)
    else Go
  }

  function RetryVerdict(inst: Instance, now: Time): Verdict {
    if inst.status != InstanceRunning then Skip(inst.status == InstanceStopping)
    else if !RunningTimes(inst) || inst.finishedAt.Some? || inst.job <= 0 || inst.group <= 0 then Refuse(InvalidState)
    else if inst.deadlineAt.value <= now then Skip(true)
    else ConfigVerdict(inst.config)
  }

  predicate RunningTimes(inst: Instance) {
    inst.startedAt.Some? && inst.deadlineAt.Some? && inst.startedAt.value < inst.deadlineAt.value
  }

  predicate ValidActiveTimes(inst: Instance) {
    && inst.finishedAt.None?
    && if inst.status == InstanceWaiting then inst.startedAt.None? && inst.deadlineAt.None? else RunningTimes(inst)
  }

  function StopVerdict(inst: Instance, timeout: bool, now: Time): Verdict {
    if inst.status.Terminal() || inst.status == InstanceStopping then Skip(false)
    else if inst.status == InstanceWaiting && timeout then Skip(false)
    else if inst.group <= 0 || !ValidActiveTimes(inst) then Refuse(InvalidState)
    else if timeout && now < inst.deadlineAt.value then Skip(false)
    else Go
  }

  function StopReason(timeout: bool): EndReason { if timeout then InstanceTimeout else ManualStop }

  /** The terminal state a frozen stop reason selects. */
  function StopTarget(reason: EndReason): InstanceStatus {
    if reason == InstanceTimeout then InstanceFailed else InstanceCanceled
  }

  predicate IsStopReason(reason: Option<EndReason>) {
    reason == Some(ManualStop) || reason == Some(InstanceTimeout)
  }

  function FirstTask(i: Id, now: Time): Task {
    Task(i, Ordinary, TaskRunning, 1, 1, Some(now), None, None, None, None, None, None, Some(now), None, now)
  }

  function Started(inst: Instance, now: Time): Instance {
    inst.(status := InstanceRunning, startedAt := Some(now), deadlineAt := Some(now + inst.config.timeoutSeconds * SECOND))
  }

  /** The first-start UPDATE matches, and the new Task conflicts with neither index. */
  predicate StartApplies(db: Db, i: Id, t: Id) {
    && i in db.instances && db.instances[i].status == InstanceWaiting
    && db.instances[i].startedAt.None? && db.instances[i].deadlineAt.None? && db.instances[i].finishedAt.None?
    && t !in db.tasks && i !in db.ordinary
  }

  function AfterStart(db: Db, i: Id, t: Id, now: Time): Db
    requires i in db.instances
  {
    Db(db.instances[i := Started(db.instances[i], now)], db.tasks[t := FirstTask(i, now)], db.ordinary[i := t])
  }

  function Stopped(inst: Instance, reason: EndReason): Instance {
    inst.(status := InstanceStopping, finishedAt := None, endReason := Some(reason),
          summary := Some(if reason == InstanceTimeout then "Instance execution deadline reached."
                          else "Manual stop requested for this instance."))
  }

  function AfterStop(db: Db, i: Id, reason: EndReason): Db
    requires i in db.instances
  {
    db.(instances := db.instances[i := Stopped(db.instances[i], reason)])
  }

  predicate UnfinishedIn(db: Db, i: Id, t: Id) {
    t in db.tasks && db.tasks[t].instance == i && db.tasks[t].status.Unfinished()
  }

  function Unfinished(db: Db, i: Id): set<Id> { set t | t in db.tasks && UnfinishedIn(db, i, t) }

  ghost predicate Ascending(ids: seq<Id>) { forall a, b | 0 <= a < b < |ids| :: ids[a] < ids[b] }

  lemma AscendingCount(ids: seq<Id>)
    requires Ascending(ids)
    ensures |set t | t in ids| == |ids|
  {
    DistinctCount(ids);
  }

  /** `ids` is the smallest-first page of at most `limit` unfinished Tasks. */
  ghost predicate IsListing(db: Db, i: Id, limit: int, ids: seq<Id>) {
    && |ids| <= limit
    && Ascending(ids)
    && (forall t | t in ids :: UnfinishedIn(db, i, t))
    && (forall t | UnfinishedIn(db, i, t) && t !in ids :: |ids| == limit && forall k | k in ids :: k < t)
  }

  /** Such a page exists, whatever the rows. */
  lemma ListingExists(db: Db, i: Id, limit: nat) returns (ids: seq<Id>)
    ensures IsListing(db, i, limit, ids)
  {
    ids := SmallestFirst(Unfinished(db, i), limit);
    assert forall t | UnfinishedIn(db, i, t) :: t in Unfinished(db, i);
  }

  lemma {:induction false} SmallestFirst(s: set<Id>, limit: nat) returns (ids: seq<Id>)
    ensures |ids| <= limit && Ascending(ids)
    ensures forall k | k in ids :: k in s
    ensures forall t | t in s && t !in ids :: |ids| == limit && forall k | k in ids :: k < t
    decreases limit
  {
    if limit == 0 || s == {} {
      ids := [];
    } else {
      var least := Least(s);
      var rest := SmallestFirst(s - {least}, limit - 1);
      ids := [least] + rest;
      forall a, b | 0 <= a < b < |ids| ensures ids[a] < ids[b] {
        assert ids[b] == rest[b - 1] && rest[b - 1] in s - {least};
      }
    }
  }

  lemma {:induction false} Least(s: set<Id>) returns (least: Id)
    requires s != {}
    ensures least in s && forall k | k in s :: least <= k
  {
    least := Member(s);
    if s != {least} {
      var rest := s - {least};
      assert s == rest + {least};
      var other := Least(rest);
      if other < least { least := other; }
    }
  }

  function CancelSummary(reason: EndReason): string {
    if reason == InstanceTimeout then "Task canceled because its instance timed out."
    else "Task canceled because its instance was manually stopped."
  }

  function Canceled(t: Task, reason: EndReason, now: Time): Task {
    Ended(t, TaskCanceled, reason, None, CancelSummary(reason), now)
  }

  function AfterCancel(db: Db, i: Id, ids: seq<Id>, reason: EndReason, now: Time): Db {
    db.(tasks := map t | t in db.tasks ::
          if t in ids && UnfinishedIn(db, i, t) then Canceled(db.tasks[t], reason, now) else db.tasks[t])
  }

  predicate FinishApplies(db: Db, i: Id, reason: EndReason) {
    && i in db.instances && db.instances[i].status == InstanceStopping
    && db.instances[i].endReason == Some(reason) && Unfinished(db, i) == {}
  }

  function AfterFinish(db: Db, i: Id, reason: EndReason, now: Time): Db {
    if FinishApplies(db, i, reason) then
      db.(instances := db.instances[i := db.instances[i].(status := StopTarget(reason), finishedAt := Some(now))])
    else db
  }

  predicate CompleteApplies(db: Db, i: Id) { i in db.instances && db.instances[i].status == InstanceRunning }

  function Completed(inst: Instance, target: InstanceStatus, summary: Option<string>, now: Time): Instance {
    inst.(status := target, endReason := Some(if target == InstanceFailed then ExecutionFailed else Success),
          summary := summary, finishedAt := Some(now))
  }

  function AfterComplete(db: Db, i: Id, target: InstanceStatus, summary: Option<string>, now: Time): Db {
    if CompleteApplies(db, i) then
      db.(instances := db.instances[i := Completed(db.instances[i], target, summary, now)])
    else db
  }

  // ----- decisions taken from unlocked reads -----

  /** What one completion check concludes from a parent and its ordinary child. */
  datatype CheckVerdict = Finished | Uninteresting | AlreadyStopping | NotReady | Broken(error: Failure)
                        | CompleteAs(target: InstanceStatus, summary: Option<string>)

  function CheckFacts(inst: Instance, child: Option<Task>): CheckVerdict {
    match inst.status
    case InstanceSucceeded => Finished
    case InstanceFailed => Finished
    case InstanceCanceled => Finished
    case InstanceWaiting => Uninteresting
    case InstanceStopping => AlreadyStopping
    case InstanceRunning =>
      if inst.config.schemaVersion != 1 then Broken(InvalidConfig)
      else match inst.config.mode
        case Sharded => Uninteresting
        case OtherMode => Broken(InvalidConfig)
        case Normal =>
          if inst.config.postEnabled then Broken(InvalidConfig)
          else match child
            case None => NotReady
            case Some(t) =>
              if t.status == TaskSucceeded then CompleteAs(InstanceSucceeded, t.summary)
              else if t.status == TaskFailed then CompleteAs(InstanceFailed, t.summary)
              else NotReady
  }

  /** A business result as received; the flags stand for identity, text and JSON checks. */
  datatype BusinessResult = BusinessResult(
    group: Id, job: Id, instance: Id, task: Id, attemptNo: int, executor: Id, identityValid: bool,
    success: bool, data: Option<string>, outputValid: bool, summary: string)
  {
    predicate Valid() { 0 < group && 0 < job && 0 < instance && 0 < task && 0 < attemptNo && identityValid }
  }

  /** A result is dropped, ignored as obsolete, kept for another try, or written. */
  datatype ResultVerdict = Discard | Obsolete | Retain(error: Failure) | Write(write: TaskWrite)

  function ResultFacts(r: BusinessResult, inst: Instance, t: Task): ResultVerdict {
    if t.instance != r.instance || inst.job != r.job || inst.group != r.group then Discard
    else if t.attemptNo != r.attemptNo || t.status != TaskRunning then Obsolete
    else if t.executor.Some? && t.executor.value != r.executor then Obsolete
    else if t.kind != Ordinary then Retain(Unsupported)
    else if !r.outputValid then Discard
    else ResultWrite(r, inst.config, t.usedAttempts)
  }

  /** Retry or fail, chosen from the count read earlier. */
  function ResultWrite(r: BusinessResult, config: Config, usedAttempts: int): ResultVerdict {
    if config.schemaVersion != 1 || config.mode != Normal then Retain(InvalidConfig)
    else if r.success then Write(Report(r.instance, r.attemptNo, r.executor, TaskSucceeded, r.data, r.summary, 0))
    else if config.maxRetries < 0 || config.retryInterval <= 0 then Retain(InvalidConfig)
    else if usedAttempts <= 0 then Retain(InvalidState)
    else if usedAttempts < config.Budget() then
      Write(Report(r.instance, r.attemptNo, r.executor, TaskRetryWaiting, None, r.summary, config.retryInterval))
    else Write(Report(r.instance, r.attemptNo, r.executor, TaskFailed, None, r.summary, 0))
  }

  /** A row as a cursor scan lists it: its time, where the scan has one, its ID and, for a Task,
      its parent and attempt. */
  datatype Row = Row(at: Time, id: Id, instance: Id, attemptNo: int)

  datatype SettleVerdict = Pass(checkParent: bool) | Halt(error: Failure) | Proceed(write: TaskWrite)

  /** What to do about a running attempt once listed without an executor binding. */
  function SettleFacts(c: Row, inst: Instance, t: Task, processedAt: Time, period: int): SettleVerdict {
    var cutoff := processedAt - period;
    if t.instance != c.instance || t.attemptNo != c.attemptNo then Pass(false)
    else if t.kind != Ordinary || t.status != TaskRunning || t.executor.Some? || t.address.Some? then Pass(false)
    else if t.registeredAt.None? || cutoff < t.registeredAt.value then Pass(false)
    else if inst.status != InstanceRunning then Pass(inst.status == InstanceStopping)
    else if !RunningTimes(inst) then Pass(false)
    else if inst.deadlineAt.value <= processedAt then Pass(true)
    else if inst.config.schemaVersion != 1 then Halt(InvalidConfig)
    else if inst.config.mode == Sharded then Pass(false)
    else if inst.config.mode != Normal || inst.config.maxRetries < 0 || inst.config.retryInterval <= 0 then Halt(InvalidConfig)
    else Proceed(Settle(c.instance, c.attemptNo, inst.config.Budget(), processedAt, cutoff,
                        processedAt + inst.config.retryInterval * SECOND))
  }
}
