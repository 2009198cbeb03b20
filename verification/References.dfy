/** Jobs, executor groups and triggered rounds under concurrent transactions. Every event is
    one READ COMMITTED statement; the last write of a transaction and its commit are one
    event, since nobody sees the write before. An event whose guard fails changes nothing:
    the call waits for a row lock or returns a refusal. */
module References {
  import opened Base

  datatype Job = Job(group: Id, enabled: bool, deleted: bool, discard: bool, ignoreMisfire: bool,
                     params: string, next: Option<Time>)

  /** What identifies a round within its Job. */
  datatype Identity = Request(request: Id) | Scheduled(at: Time)

  /** An Instance as the referential protocol sees it; `params` are the effective ones. */
  datatype Round = Round(job: Id, group: Id, identity: Identity, overridden: bool, params: string, active: bool)

  /** The editable configuration of a Job. */
  datatype Definition = Definition(group: Id, discard: bool, ignoreMisfire: bool, params: string)

  /** A transaction that locked a group row first. */
  datatype GroupTx =
    | Creating(def: Definition, enable: bool)
    | Updating(job: Id, def: Definition)
    | Deleting(noJobs: bool, noRounds: bool)

  datatype JobPurpose = Manual(request: Id, overridden: bool, params: string) | Automatic | Deletion | Enabling

  /** A transaction that locked a Job row, with the row it read and the answers of its later
      statements. */
  datatype JobTx = JobTx(view: Job, purpose: JobPurpose, unseen: bool, available: bool, active: Option<bool>)

  /** A confirmed reply to a manual trigger. */
  datatype Reply = Reply(job: Id, request: Id, overridden: bool, params: string, round: Id)

  /** `loosened` holds the Jobs that ever allowed overlapping rounds. */
  datatype State = State(groups: map<Id, bool>, jobs: map<Id, Job>, rounds: map<Id, Round>,
                         groupTx: map<Id, GroupTx>, jobTx: map<Id, JobTx>, replies: set<Reply>, loosened: set<Id>)

  const INITIAL := State(map[], map[], map[], map[], map[], {}, {})

  /** The order of the two checks of a group deletion. */
  datatype Order = JobsFirst | RoundsFirst

  const MISFIRE_TOLERANCE: Time := 5 * SECOND

  // ----- what statements read -----

  predicate Available(s: State, g: Id) { g in s.groups && s.groups[g] }

  predicate RefersTo(jobs: map<Id, Job>, j: Id, g: Id) { j in jobs && !jobs[j].deleted && jobs[j].group == g }

  predicate HasGroupReferences(s: State, g: Id) { exists j | j in s.jobs :: RefersTo(s.jobs, j, g) }

  predicate ActiveIn(rounds: map<Id, Round>, r: Id, g: Id) { r in rounds && rounds[r].active && rounds[r].group == g }

  predicate HasActiveForGroup(s: State, g: Id) { exists r | r in s.rounds :: ActiveIn(s.rounds, r, g) }

  predicate ActiveFor(rounds: map<Id, Round>, r: Id, j: Id) { r in rounds && rounds[r].active && rounds[r].job == j }

  predicate HasActive(s: State, j: Id) { exists r | r in s.rounds :: ActiveFor(s.rounds, r, j) }

  predicate Identified(rounds: map<Id, Round>, r: Id, j: Id, identity: Identity) {
    r in rounds && rounds[r].job == j && rounds[r].identity == identity
  }

  predicate Taken(s: State, j: Id, identity: Identity) { exists r | r in s.rounds :: Identified(s.rounds, r, j, identity) }

  // ----- transactions that lock a group -----

  function NewGroup(s: State, g: Id): State { if g !in s.groups then s.(groups := s.groups[g := true]) else s }

  predicate Targets(tx: GroupTx, g: Id) {
    match tx
    case Creating(def, _) => def.group == g
    case Updating(_, def) => def.group == g
    case Deleting(noJobs, noRounds) => !noJobs && !noRounds
  }

  function LockGroup(s: State, g: Id, tx: GroupTx): State {
    if Available(s, g) && g !in s.groupTx && Targets(tx, g) then s.(groupTx := s.groupTx[g := tx]) else s
  }

  function RollbackGroup(s: State, g: Id): State { s.(groupTx := s.groupTx - {g}) }

  function Loosen(s: State, j: Id, def: Definition): set<Id> { if def.discard then s.loosened else s.loosened + {j} }

  function CommitCreate(s: State, g: Id, j: Id, now: Time, next: Time): State {
    if g in s.groupTx && s.groupTx[g].Creating? && j !in s.jobs && (s.groupTx[g].enable ==> now < next) then
      var def := s.groupTx[g].def;
      var job := Job(g, s.groupTx[g].enable, false, def.discard, def.ignoreMisfire, def.params,
                     if s.groupTx[g].enable then Some(next) else None);
      s.(jobs := s.jobs[j := job], groupTx := s.groupTx - {g}, loosened := Loosen(s, j, def))
    else s
  }

  /** The UPDATE of a disabled Job waits while another transaction holds its row. */
  predicate UpdateCommits(s: State, g: Id) {
    && g in s.groupTx && s.groupTx[g].Updating? && s.groupTx[g].job !in s.jobTx
    && s.groupTx[g].job in s.jobs && !s.jobs[s.groupTx[g].job].deleted && !s.jobs[s.groupTx[g].job].enabled
  }

  function CommitUpdate(s: State, g: Id): State {
    if UpdateCommits(s, g) then
      var j, def := s.groupTx[g].job, s.groupTx[g].def;
      var job := s.jobs[j].(group := g, discard := def.discard, ignoreMisfire := def.ignoreMisfire, params := def.params);
      s.(jobs := s.jobs[j := job], groupTx := s.groupTx - {g}, loosened := Loosen(s, j, def))
    else s
  }

  function CheckJobs(order: Order, s: State, g: Id): State {
    if g in s.groupTx && s.groupTx[g].Deleting? && (order.RoundsFirst? ==> s.groupTx[g].noRounds) && !HasGroupReferences(s, g) then
      s.(groupTx := s.groupTx[g := s.groupTx[g].(noJobs := true)])
    else s
  }

  function CheckRounds(order: Order, s: State, g: Id): State {
    if g in s.groupTx && s.groupTx[g].Deleting? && (order.JobsFirst? ==> s.groupTx[g].noJobs) && !HasActiveForGroup(s, g) then
      s.(groupTx := s.groupTx[g := s.groupTx[g].(noRounds := true)])
    else s
  }

  function CommitDeleteGroup(s: State, g: Id): State {
    if g in s.groupTx && s.groupTx[g] == Deleting(true, true) then
      s.(groups := s.groups[g := false], groupTx := s.groupTx - {g})
    else s
  }

  // ----- transactions that lock a Job -----

  function LockJob(s: State, j: Id, purpose: JobPurpose): State {
    if j in s.jobs && !s.jobs[j].deleted && j !in s.jobTx then
      s.(jobTx := s.jobTx[j := JobTx(s.jobs[j], purpose, false, false, None)])
    else s
  }

  function RollbackJob(s: State, j: Id): State { s.(jobTx := s.jobTx - {j}) }

  function FindManual(s: State, j: Id): State {
    if j in s.jobTx && s.jobTx[j].purpose.Manual? && !Taken(s, j, Request(s.jobTx[j].purpose.request)) then
      s.(jobTx := s.jobTx[j := s.jobTx[j].(unseen := true)])
    else s
  }

  /** A request replays a round if it overrides the parameters alike. */
  predicate SameRequest(round: Round, overridden: bool, params: string) {
    round.overridden == overridden && (overridden ==> round.params == params)
  }

  function Replay(s: State, j: Id, r: Id, confirmed: bool): State {
    if && j in s.jobTx && s.jobTx[j].purpose.Manual? && Identified(s.rounds, r, j, Request(s.jobTx[j].purpose.request))
       && SameRequest(s.rounds[r], s.jobTx[j].purpose.overridden, s.jobTx[j].purpose.params)
    then
      s.(jobTx := s.jobTx - {j}, replies := Answered(s, j, s.jobTx[j].purpose, r, confirmed))
    else s
  }

  function Answered(s: State, j: Id, p: JobPurpose, r: Id, confirmed: bool): set<Reply>
    requires p.Manual?
  {
    if confirmed then s.replies + {Reply(j, p.request, p.overridden, p.params, r)} else s.replies
  }

  function CheckAvailable(s: State, j: Id): State {
    if j in s.jobTx && Available(s, s.jobTx[j].view.group) then s.(jobTx := s.jobTx[j := s.jobTx[j].(available := true)]) else s
  }

  function CheckActive(s: State, j: Id): State {
    if j in s.jobTx then s.(jobTx := s.jobTx[j := s.jobTx[j].(active := Some(HasActive(s, j)))]) else s
  }

  function Snapshot(j: Id, job: Job, identity: Identity): Round { Round(j, job.group, identity, false, job.params, true) }

  /** The row a manual trigger inserts. */
  function ManualRound(j: Id, tx: JobTx): Round
    requires tx.purpose.Manual?
  {
    var round := Snapshot(j, tx.view, Request(tx.purpose.request));
    if tx.purpose.overridden then round.(overridden := true, params := tx.purpose.params) else round
  }

  predicate ManualInserts(s: State, j: Id, r: Id) {
    && j in s.jobTx && s.jobTx[j].purpose.Manual? && s.jobTx[j].unseen && s.jobTx[j].available
    && (s.jobTx[j].view.discard ==> s.jobTx[j].active == Some(false)) && r !in s.rounds
  }

  /** ON CONFLICT DO NOTHING, then a commit of what was inserted. */
  function CommitManual(s: State, j: Id, r: Id, confirmed: bool): State {
    if ManualInserts(s, j, r) && !Taken(s, j, Request(s.jobTx[j].purpose.request)) then
      s.(rounds := s.rounds[r := ManualRound(j, s.jobTx[j])], jobTx := s.jobTx - {j},
         replies := Answered(s, j, s.jobTx[j].purpose, r, confirmed))
    else s
  }

  datatype Decision = MisfireIgnored | Blocked | Duplicate | Created

  predicate Due(s: State, j: Id, now: Time, next: Time) {
    && j in s.jobTx && s.jobTx[j].purpose.Automatic? && s.jobTx[j].view.enabled
    && s.jobTx[j].view.next.Some? && s.jobTx[j].view.next.value <= now < next
    && (!Ignores(s.jobTx[j].view, now) && s.jobTx[j].view.discard ==> s.jobTx[j].active.Some?)
  }

  predicate Ignores(job: Job, now: Time)
    requires job.next.Some?
  {
    MISFIRE_TOLERANCE < now - job.next.value && job.ignoreMisfire
  }

  function Decide(s: State, j: Id, now: Time): Decision
    requires j in s.jobTx && s.jobTx[j].view.next.Some?
  {
    var tx := s.jobTx[j];
    if Ignores(tx.view, now) then MisfireIgnored
    else if tx.view.discard && tx.active == Some(true) then Blocked
    else if Taken(s, j, Scheduled(tx.view.next.value)) then Duplicate
    else Created
  }

  /** Every due decision advances the Job; only a created one inserts a round. */
  function CommitAutomatic(s: State, j: Id, r: Id, now: Time, next: Time): State {
    if Due(s, j, now, next) && j in s.jobs && r !in s.rounds then
      var round := Snapshot(j, s.jobTx[j].view, Scheduled(s.jobTx[j].view.next.value));
      s.(rounds := if Decide(s, j, now).Created? then s.rounds[r := round] else s.rounds,
         jobs := s.jobs[j := s.jobs[j].(next := Some(next))], jobTx := s.jobTx - {j})
    else s
  }

  function CommitDeleteJob(s: State, j: Id): State {
    if && j in s.jobTx && s.jobTx[j].purpose.Deletion? && !s.jobTx[j].view.enabled && s.jobTx[j].active == Some(false)
       && j in s.jobs
    then s.(jobs := s.jobs[j := s.jobs[j].(deleted := true)], jobTx := s.jobTx - {j})
    else s
  }

  function CommitEnable(s: State, j: Id, now: Time, next: Time): State {
    if && j in s.jobTx && s.jobTx[j].purpose.Enabling? && !s.jobTx[j].view.enabled && s.jobTx[j].available
       && j in s.jobs && now < next
    then s.(jobs := s.jobs[j := s.jobs[j].(enabled := true, next := Some(next))], jobTx := s.jobTx - {j})
    else s
  }

  /** A single statement outside any transaction. */
  function Disable(s: State, j: Id): State {
    if j in s.jobs && !s.jobs[j].deleted && j !in s.jobTx then s.(jobs := s.jobs[j := s.jobs[j].(enabled := false)]) else s
  }

  function Finish(s: State, r: Id): State {
    if r in s.rounds then s.(rounds := s.rounds[r := s.rounds[r].(active := false)]) else s
  }

  // ----- runs -----

  datatype GroupEvent =
    | ENewGroup(g: Id) | ELockGroup(g: Id, tx: GroupTx) | ERollbackGroup(g: Id)
    | ECreateJob(g: Id, j: Id, now: Time, next: Time) | EUpdateJob(g: Id)
    | ECheckJobs(g: Id) | ECheckRounds(g: Id) | EDeleteGroup(g: Id)

  datatype JobEvent =
    | ELockJob(j: Id, purpose: JobPurpose) | ERollbackJob(j: Id) | EFindManual(j: Id) | EReplay(j: Id, r: Id, confirmed: bool)
    | ECheckAvailable(j: Id) | ECheckActive(j: Id) | EManual(j: Id, r: Id, confirmed: bool)
    | EAutomatic(j: Id, r: Id, now: Time, next: Time) | EDeleteJob(j: Id) | EEnable(j: Id, now: Time, next: Time)
    | EDisable(j: Id) | EFinish(r: Id)

  datatype Event = OnGroup(g: GroupEvent) | OnJob(j: JobEvent)

  function NextGroup(order: Order, s: State, ev: GroupEvent): State {
    match ev
    case ENewGroup(g) => NewGroup(s, g)
    case ELockGroup(g, tx) => LockGroup(s, g, tx)
    case ERollbackGroup(g) => RollbackGroup(s, g)
    case ECreateJob(g, j, now, next) => CommitCreate(s, g, j, now, next)
    case EUpdateJob(g) => CommitUpdate(s, g)
    case ECheckJobs(g) => CheckJobs(order, s, g)
    case ECheckRounds(g) => CheckRounds(order, s, g)
    case EDeleteGroup(g) => CommitDeleteGroup(s, g)
  }

  function NextJob(s: State, ev: JobEvent): State {
    match ev
    case ELockJob(j, purpose) => LockJob(s, j, purpose)
    case ERollbackJob(j) => RollbackJob(s, j)
    case EFindManual(j) => FindManual(s, j)
    case EReplay(j, r, confirmed) => Replay(s, j, r, confirmed)
    case ECheckAvailable(j) => CheckAvailable(s, j)
    case ECheckActive(j) => CheckActive(s, j)
    case EManual(j, r, confirmed) => CommitManual(s, j, r, confirmed)
    case EAutomatic(j, r, now, next) => CommitAutomatic(s, j, r, now, next)
    case EDeleteJob(j) => CommitDeleteJob(s, j)
    case EEnable(j, now, next) => CommitEnable(s, j, now, next)
    case EDisable(j) => Disable(s, j)
    case EFinish(r) => Finish(s, r)
  }

  function Next(order: Order, s: State, ev: Event): State {
    match ev
    case OnGroup(g) => NextGroup(order, s, g)
    case OnJob(j) => NextJob(s, j)
  }

  function Run(order: Order, s: State, events: seq<Event>): State
    decreases |events|
  {
    if events == [] then s else Run(order, Next(order, s, events[0]), events[1..])
  }
}
