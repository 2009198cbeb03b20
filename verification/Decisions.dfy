/** Decisions from facts read without locks, as code on the stored rows: the completion check,
    the result save and the batch that settles unknown attempts. Others commit between the read
    and the write. */
module Decisions {
  import opened Base
  import opened Rows
  import opened Changes
  import opened JobStore
  import opened Sources
  import opened StopController
  import P = Protocol

  // ----- completion -----

  datatype Outcome = OutcomeSkipped | OutcomeNotReady | OutcomeNotApplied | OutcomeStopping | OutcomeTerminal

  /** `stops` says whether timeouts are wired up; `later` is the time read for the deadline. */
  method CheckInstance(store: Store, i: Id, stops: bool, meanwhile: seq<Change>, now: Time, later: Time, fate: Fate, ghost s: P.State)
    returns (r: Result<Outcome>)
    requires s.db == ApplyAll(store.db, meanwhile) && i !in s.open
    modifies store`db
    // The parent is completed only as the facts read, and stopped only by the timeout step.
    ensures var facts := if i in old(store.db).instances then CheckFacts(old(store.db).instances[i], P.Child(old(store.db), i)) else Uninteresting;
            var late := stops && facts.NotReady? && old(store.db).instances[i].deadlineAt.Some? && old(store.db).instances[i].deadlineAt.value <= later;
            var mid := ApplyAll(old(store.db), meanwhile);
            store.db == if i <= 0 then mid
                        else if facts.CompleteAs? && !fate.RolledBack? then AfterComplete(mid, i, facts.target, facts.summary, now)
                        else if late && !fate.RolledBack? && P.StopCommits(P.Lock(s, i, P.Stop(true)), i, now) then AfterStop(mid, i, InstanceTimeout)
                        else mid
    // The answer for every verdict and fate; a timeout answers with the status then stored.
    ensures i <= 0 ==> r == Err(InvalidInput)
    ensures 0 < i && i !in old(store.db).instances ==> r == Ok(OutcomeSkipped)
    ensures 0 < i && i in old(store.db).instances ==>
              var inst, mid := old(store.db).instances[i], ApplyAll(old(store.db), meanwhile);
              match CheckFacts(inst, P.Child(old(store.db), i))
              case Finished => r == Ok(OutcomeTerminal)
              case Uninteresting => r == Ok(OutcomeSkipped)
              case AlreadyStopping => r == Ok(OutcomeStopping)
              case Broken(e) => r == Err(e)
              case CompleteAs(_, _) =>
                r == if !fate.Confirmed? then Err(Technical) else Ok(if CompleteApplies(mid, i) then OutcomeTerminal else OutcomeNotApplied)
              case NotReady =>
                if stops && inst.deadlineAt.None? then r == Err(InvalidState)
                else if !stops || later < inst.deadlineAt.value then r == Ok(OutcomeNotReady)
                else if fate.Confirmed? && i in mid.instances && !StopVerdict(mid.instances[i], true, now).Refuse? then
                  i in store.db.instances && r == Ok(TimeoutOutcome(store.db.instances[i].status))
                else r.Err?
    ensures r == Ok(OutcomeTerminal) && i in old(store.db).instances && !old(store.db).instances[i].status.Terminal() ==>
              i in store.db.instances && store.db.instances[i].status.Terminal()
  {
    if i <= 0 { store.Others(meanwhile); return Err(InvalidInput); }
    if i !in store.db.instances { store.Others(meanwhile); return Ok(OutcomeSkipped); }
    var inst := store.db.instances[i];
    var verdict := CheckFacts(inst, P.Child(store.db, i));
    store.Others(meanwhile);
    match verdict
    case Finished => return Ok(OutcomeTerminal);
    case Uninteresting => return Ok(OutcomeSkipped);
    case AlreadyStopping => return Ok(OutcomeStopping);
    case Broken(e) => return Err(e);
    case CompleteAs(target, summary) =>
      if fate.RolledBack? { return Err(Technical); }
      var applies := CompleteApplies(store.db, i);
      store.db := AfterComplete(store.db, i, target, summary, now);
      if fate.ConfirmationLost? { return Err(Technical); }
      return Ok(if applies then OutcomeTerminal else OutcomeNotApplied);
    case NotReady =>
      if !stops { return Ok(OutcomeNotReady); }
      if inst.deadlineAt.None? { return Err(InvalidState); }
      if later < inst.deadlineAt.value { return Ok(OutcomeNotReady); }
      var decision := RequestStop(store, i, true, now, fate, s);
      if decision.Err? { return Err(decision.error); }
      return Ok(TimeoutOutcome(decision.value.status));
  }

  function TimeoutOutcome(status: InstanceStatus): Outcome {
    if status == InstanceStopping then OutcomeStopping
    else if status.Terminal() then OutcomeTerminal
    else if status == InstanceWaiting then OutcomeSkipped
    else OutcomeNotReady
  }

  // ----- results -----

  /** Err keeps the report for another try; Ok says whether it took effect. */
  method SaveReport(store: Store, report: BusinessResult, meanwhile: seq<Change>, now: Time, fate: Fate) returns (r: Result<bool>)
    modifies store
    ensures var db0, mid := old(store.db), ApplyAll(old(store.db), meanwhile);
            var found := report.Valid() && report.task in db0.tasks && db0.tasks[report.task].instance in db0.instances;
            var verdict := if found then ResultFacts(report, db0.instances[db0.tasks[report.task].instance], db0.tasks[report.task]) else Discard;
            if verdict.Write? && WellFormed(verdict.write) then
              && store.db == (if fate.RolledBack? then mid else AfterWrite(mid, report.task, verdict.write, now))
              && r == (if fate.Confirmed? then Ok(Applies(mid, report.task, verdict.write)) else Err(Technical))
            else store.db == mid && (r == Ok(false) || r.Err?) && (verdict.Discard? || verdict.Obsolete? ==> r == Ok(false))
  {
    if !report.Valid() || report.task !in store.db.tasks || store.db.tasks[report.task].instance !in store.db.instances {
      store.Others(meanwhile);
      return Ok(false);
    }
    var task := store.db.tasks[report.task];
    var verdict := ResultFacts(report, store.db.instances[task.instance], task);
    store.Others(meanwhile);
    match verdict
    case Discard => return Ok(false);
    case Obsolete => return Ok(false);
    case Retain(e) => return Err(e);
    case Write(w) => r := store.Update(report.task, w, now, fate);
  }

  // ----- unknown attempts -----

  const MAX_BATCH: nat := 16

  /** What one candidate asks for, from the rows read once for the whole batch. */
  function Plan(db: Db, c: Row, processedAt: Time, period: int): SettleVerdict {
    if c.id in db.tasks && db.tasks[c.id].instance in db.instances then
      SettleFacts(c, db.instances[db.tasks[c.id].instance], db.tasks[c.id], processedAt, period)
    else Pass(false)
  }

  /** The circumstances of one candidate's write. */
  datatype Step = Step(live: bool, meanwhile: seq<Change>, fate: Fate, expired: bool)

  predicate Smooth(step: Step) { step.live && step.fate.Confirmed? && !step.expired }

  /** A batch goes no further than this candidate. */
  ghost predicate Stalls(rows: Db, c: Row, processedAt: Time, period: int, step: Step) {
    !Smooth(step) || Plan(rows, c, processedAt, period).Halt?
  }

  /** Running parents have usable settings, as they have in every reachable state of the protocol. */
  ghost predicate Sane(db: Db) { forall i | i in db.instances && db.instances[i].status == InstanceRunning :: db.instances[i].config.Executable() }

  lemma SaneNeverHalts(db: Db, c: Row, processedAt: Time, period: int)
    requires Sane(db)
    ensures !Plan(db, c, processedAt, period).Halt?
  {
  }

  lemma {:induction false} SaneStays(db: Db, cs: seq<Change>)
    requires Sane(db)
    ensures Sane(ApplyAll(db, cs))
    decreases |cs|
  {
    if cs != [] { SaneStays(Apply(db, cs[0]), cs[1..]); }
  }

  /** The write one candidate asks for. */
  function Asked(db: Db, c: Row, processedAt: Time, period: int): multiset<(Id, TaskWrite)> {
    var plan := Plan(db, c, processedAt, period);
    if plan.Proceed? then multiset{(c.id, plan.write)} else multiset{}
  }

  function Writes(db: Db, cs: seq<Row>, processedAt: Time, period: int): multiset<(Id, TaskWrite)> {
    if cs == [] then multiset{} else Writes(db, cs[..|cs| - 1], processedAt, period) + Asked(db, cs[|cs| - 1], processedAt, period)
  }

  /** Candidates in their original order, each with its own commit. `processed` counts a prefix:
      an item whose settings are unusable or whose turn never came is not in it, one whose write
      failed is. Exactly the prefix is recorded and exactly its writes are issued, each once; nothing
      else takes effect. */
  method SettleBatch(store: Store, out: Outside, candidates: seq<Row>, period: int, steps: nat -> Step, first: nat)
    returns (processed: nat, applied: nat, failed: bool, ghost processedAt: Time)
    requires 0 < period && out.Valid()
    modifies store, out`next, out`read, out`taken
    ensures out.Valid() && old(out.next) <= out.next <= old(out.next) + 2 && old(out.read) <= out.read
    ensures applied <= processed <= |candidates|
    ensures !failed ==> processed == |candidates|
    ensures failed ==> out.Cut() || MAX_BATCH < |candidates| || (exists k | 0 <= k < |candidates| :: !Identified(candidates[k]))
                       || exists k | 0 <= k < |candidates| :: Stalls(old(store.db), candidates[k], processedAt, period, steps(first + k))
    ensures Sane(old(store.db)) ==> Sane(store.db)
    ensures out.taken == old(out.taken) + candidates[..processed]
    ensures store.issued == old(store.issued) + Writes(old(store.db), candidates[..processed], processedAt, period)
    ensures store.effects <= old(store.effects) + Writes(old(store.db), candidates[..processed], processedAt, period)
    ensures applied <= |store.effects| - |old(store.effects)|
  {
    processed, applied, failed, processedAt := 0, 0, true, 0;
    if |candidates| > MAX_BATCH { return; }
    if candidates == [] { failed := false; return; }
    if exists k | 0 <= k < |candidates| :: !Identified(candidates[k]) { return; }
    var now := out.Clock();
    if now.None? { return; }
    var read := out.Try();
    if !read { return; }
    processedAt := now.value;
    processed, applied, failed := SettleAll(store, out, store.db, candidates, now.value, period, steps, first);
  }

  /** What dealing with a prefix has done to the records. */
  ghost predicate Settled(was: multiset<(Id, TaskWrite)>, did: multiset<(Id, TaskWrite)>, effects0: multiset<(Id, TaskWrite)>,
                          effects: multiset<(Id, TaskWrite)>, asked: multiset<(Id, TaskWrite)>, applied: nat) {
    did == was + asked && effects <= effects0 + asked && applied <= |effects| - |effects0|
  }

  method SettleAll(store: Store, out: Outside, rows: Db, candidates: seq<Row>, processedAt: Time, period: int, steps: nat -> Step, first: nat)
    returns (processed: nat, applied: nat, failed: bool)
    requires 0 < period && forall k | 0 <= k < |candidates| :: Identified(candidates[k])
    modifies store, out`taken
    ensures applied <= processed <= |candidates|
    ensures if failed then exists k | 0 <= k < |candidates| :: Stalls(rows, candidates[k], processedAt, period, steps(first + k)) else processed == |candidates|
    ensures Sane(old(store.db)) ==> Sane(store.db)
    ensures out.taken == old(out.taken) + candidates[..processed]
    ensures Settled(old(store.issued), store.issued, old(store.effects), store.effects, Writes(rows, candidates[..processed], processedAt, period), applied)
  {
    processed, applied, failed := 0, 0, true;
    while processed < |candidates|
      invariant applied <= processed <= |candidates| && out.taken == old(out.taken) + candidates[..processed]
      invariant Sane(old(store.db)) ==> Sane(store.db)
      invariant Settled(old(store.issued), store.issued, old(store.effects), store.effects, Writes(rows, candidates[..processed], processedAt, period), applied)
    {
      var counted, changed, go := SettleNext(store, out, rows, candidates, processed, processedAt, period, steps(first + processed),
                                             old(store.issued), old(store.effects), applied);
      if !counted { return; }
      assert candidates[..processed + 1] == candidates[..processed] + [candidates[processed]];
      processed := processed + 1;
      if changed { applied := applied + 1; }
      if !go { return; }
    }
    failed := false;
  }

  /** The next candidate of a batch, with the records carried along. */
  method SettleNext(store: Store, out: Outside, rows: Db, candidates: seq<Row>, k: nat, processedAt: Time, period: int, step: Step,
                    ghost issued0: multiset<(Id, TaskWrite)>, ghost effects0: multiset<(Id, TaskWrite)>, ghost applied: nat)
    returns (counted: bool, changed: bool, go: bool)
    requires 0 < period && k < |candidates| && Identified(candidates[k])
    requires Settled(issued0, store.issued, effects0, store.effects, Writes(rows, candidates[..k], processedAt, period), applied)
    modifies store, out`taken
    ensures out.taken == if counted then old(out.taken) + [candidates[k]] else old(out.taken)
    ensures (changed ==> counted) && if go then counted else Stalls(rows, candidates[k], processedAt, period, step)
    ensures Sane(old(store.db)) ==> Sane(store.db)
    ensures Settled(issued0, store.issued, effects0, store.effects, Writes(rows, candidates[..if counted then k + 1 else k], processedAt, period),
                    if changed then applied + 1 else applied)
  {
    ghost var issued, effects := store.issued, store.effects;
    counted, changed, go := SettleOne(store, out, rows, candidates[k], processedAt, period, step);
    if counted {
      WritesAppend(rows, candidates, k, processedAt, period);
      SettledMore(issued0, issued, store.issued, effects0, effects, store.effects,
                  Writes(rows, candidates[..k], processedAt, period), Asked(rows, candidates[k], processedAt, period), applied, changed);
    }
  }

  lemma SettledMore(was: multiset<(Id, TaskWrite)>, mid: multiset<(Id, TaskWrite)>, did: multiset<(Id, TaskWrite)>,
                    effects0: multiset<(Id, TaskWrite)>, effects: multiset<(Id, TaskWrite)>, effects': multiset<(Id, TaskWrite)>,
                    asked: multiset<(Id, TaskWrite)>, more: multiset<(Id, TaskWrite)>, applied: nat, changed: bool)
    requires Settled(was, mid, effects0, effects, asked, applied) && did == mid + more
    requires (effects' == effects || effects' == effects + more) && |effects| <= |effects'| && (changed ==> |effects'| == |effects| + 1)
    ensures Settled(was, did, effects0, effects', asked + more, if changed then applied + 1 else applied)
  {
    assert (was + asked) + more == was + (asked + more);
    assert (effects0 + asked) + more == effects0 + (asked + more);
  }

  lemma WritesAppend(db: Db, cs: seq<Row>, k: nat, processedAt: Time, period: int)
    requires k < |cs|
    ensures Writes(db, cs[..k + 1], processedAt, period) == Writes(db, cs[..k], processedAt, period) + Asked(db, cs[k], processedAt, period)
  {
    assert cs[..k + 1][..k] == cs[..k];
  }

  /** One candidate: passed over, or written once. Only a candidate that was dealt with is counted. */
  method SettleOne(store: Store, out: Outside, rows: Db, c: Row, processedAt: Time, period: int, step: Step) returns (counted: bool, changed: bool, go: bool)
    requires 0 < period && Identified(c)
    modifies store, out`taken
    ensures out.taken == if counted then old(out.taken) + [c] else old(out.taken)
    ensures store.issued == if counted then old(store.issued) + Asked(rows, c, processedAt, period) else old(store.issued)
    ensures store.effects == old(store.effects) || (counted && store.effects == old(store.effects) + Asked(rows, c, processedAt, period))
    ensures changed ==> counted && |store.effects| == |old(store.effects)| + 1
    ensures |old(store.effects)| <= |store.effects| && if go then counted else Stalls(rows, c, processedAt, period, step)
    ensures Sane(old(store.db)) ==> Sane(store.db)
  {
    counted, changed, go := false, false, false;
    if !step.live { return; }
    var plan := Plan(rows, c, processedAt, period);
    if plan.Halt? { return; }
    out.Take(c);
    counted := true;
    if plan.Pass? { go := true; return; }
    if Sane(store.db) { SaneStays(store.db, step.meanwhile); }
    store.Others(step.meanwhile);
    var r := store.Update(c.id, plan.write, processedAt, step.fate);
    changed := r == Ok(true);
    go := r.Ok? && !step.expired;
  }
}
