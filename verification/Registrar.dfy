/** The two registration transactions and the one response save that follows, as code on the
    stored rows, tied to the steps of the execution protocol. */
module Registrar {
  import opened Base
  import opened Rows
  import opened Changes
  import opened JobStore
  import P = Protocol
  import X = ExecutorState

  /** What a confirmed registration authorizes: one send of this attempt. */
  datatype Attempt = Attempt(key: X.Key, grant: P.Grant)

  /** `held` means that another transaction holds the parent row; `newTask` is the ID that the
      sequence would assign. A technical failure is one of the errors. */
  method StartOrdinary(store: Store, i: Id, newTask: Id, now: Time, held: bool, fate: Fate, ghost s: P.State)
    returns (r: Result<Option<Attempt>>)
    requires s.db == store.db && (held <==> i in s.open) && newTask !in store.db.tasks
    modifies store`db
    // The row is changed exactly by the protocol's commit, and a permission to send exists
    // exactly when that commit was confirmed.
    ensures var locked := P.Lock(s, i, P.Start);
            var commits := 0 < i && !held && !fate.RolledBack? && P.StartCommits(locked, i, newTask);
            var after := P.CommitStart(locked, i, newTask, now, fate.Confirmed?);
            && store.db == (if commits then after.db else s.db)
            && (r.Ok? && r.value.Some? <==> commits && fate.Confirmed?)
            && (r.Ok? && r.value.Some? ==> after.net.permits == s.net.permits[r.value.value.key := r.value.value.grant])
            && (commits && !fate.Confirmed? ==> after.net.permits == s.net.permits)
    ensures 0 < i && i in store.db.instances && held ==> r == Err(Locked)
  {
    if i <= 0 { return Err(InvalidInput); }
    if i !in store.db.instances { if fate.Confirmed? { return Ok(None); } return Err(Technical); }
    if held { return Err(Locked); }
    var view := store.db.instances[i];
    var verdict := StartVerdict(view);
    if verdict.Refuse? { return Err(verdict.error); }
    if verdict.Skip? { if fate.Confirmed? { return Ok(None); } return Err(Technical); }
    if !StartApplies(store.db, i, newTask) { return Err(InvalidState); }
    if fate.RolledBack? { return Err(Technical); }
    store.db := AfterStart(store.db, i, newTask, now);
    if fate.ConfirmationLost? { return Err(Technical); }
    return Ok(Some(Attempt(X.Key(newTask, 1), P.Grant(i, view.config, now + view.config.timeoutSeconds * SECOND))));
  }

  /** The next attempt of an original candidate; `check` asks for a parent check afterwards. */
  method RetryOrdinary(store: Store, i: Id, task: Id, attemptNo: int, now: Time, held: bool, fate: Fate, ghost s: P.State)
    returns (r: Result<Option<Attempt>>, check: bool)
    requires s.db == store.db && (held <==> i in s.open)
    modifies store`db
    ensures var locked := P.Lock(s, i, P.Retry(task, attemptNo));
            var commits := 0 < i && 0 < task && 0 < attemptNo && !held && !fate.RolledBack? && P.RetryCommits(locked, i, now);
            var after := P.CommitRetry(locked, i, now, fate.Confirmed?);
            && store.db == (if commits then after.db else s.db)
            && (r.Ok? && r.value.Some? <==> commits && fate.Confirmed?)
            && (r.Ok? && r.value.Some? ==> after.net.permits == s.net.permits[r.value.value.key := r.value.value.grant])
            && (commits && !fate.Confirmed? ==> after.net.permits == s.net.permits)
    ensures check ==> r == Ok(None)
  {
    check := false;
    if i <= 0 || task <= 0 || attemptNo <= 0 { return Err(InvalidInput), false; }
    if i !in store.db.instances { if fate.Confirmed? { return Ok(None), false; } return Err(Technical), false; }
    if held { return Err(Locked), false; }
    var view := store.db.instances[i];
    var verdict := RetryVerdict(view, now);
    if verdict.Refuse? { return Err(verdict.error), false; }
    if verdict.Skip? { if fate.Confirmed? { return Ok(None), verdict.checkParent; } return Err(Technical), false; }
    var w := Register(i, attemptNo, view.config.Budget(), now);
    if !Applies(store.db, task, w) {
      if fate.Confirmed? && !(task in store.db.tasks && Matches(store.db.tasks[task], w)) { return Ok(None), false; }
      return Err(Technical), false;
    }
    if fate.RolledBack? { return Err(Technical), false; }
    store.db := store.db.(tasks := store.db.tasks[task := Assign(store.db.tasks[task], w, now)]);
    if fate.ConfirmationLost? { return Err(Technical), false; }
    return Ok(Some(Attempt(X.Key(task, attemptNo + 1), P.Grant(i, view.config, view.deadlineAt.value)))), false;
  }

  // ----- saving one response -----

  const WRITE_ATTEMPTS: nat := 3

  /** One try: what others commit before it, whether the budget lasts, and its fate. */
  datatype Try = Try(meanwhile: seq<Change>, live: bool, fate: Fate, now: Time)

  /** The finite loop that saves one piece of evidence: at most three identical writes, of which
      at most one takes effect, whatever is lost or committed in between. */
  method SaveResponse(store: Store, id: Id, w: TaskWrite, tries: seq<Try>) returns (r: Result<bool>, calls: nat)
    requires |tries| == WRITE_ATTEMPTS && forall k | 0 <= k < |tries| :: AllWellFormed(tries[k].meanwhile)
    modifies store
    ensures calls <= WRITE_ATTEMPTS
    ensures store.effects[(id, w)] <= old(store.effects)[(id, w)] + 1
    ensures forall e | e != (id, w) :: store.effects[e] == old(store.effects)[e]
    ensures r == Ok(true) ==> store.effects[(id, w)] == old(store.effects)[(id, w)] + 1 && SpentIn(store.db, id, w)
    ensures r == Err(InvalidInput) ==> store.effects == old(store.effects)
  {
    calls := 0;
    ghost var before := store.effects[(id, w)];
    while calls < WRITE_ATTEMPTS
      invariant calls <= WRITE_ATTEMPTS
      invariant if calls == 0 then store.effects == old(store.effects) else WellFormed(w)
      invariant before <= store.effects[(id, w)] <= before + 1
      invariant store.effects[(id, w)] > before ==> SpentIn(store.db, id, w)
      invariant forall e | e != (id, w) :: store.effects[e] == old(store.effects)[e]
    {
      var try := tries[calls];
      ghost var db0 := store.db;
      store.Others(try.meanwhile);
      if store.effects[(id, w)] > before { SpentForGood(db0, try.meanwhile, id, w); }
      if !try.live { return Err(Technical), calls; }
      ghost var db1 := store.db;
      var written := store.Update(id, w, try.now, try.fate);
      if WellFormed(w) && Applies(db1, id, w) { EffectSpends(db1, id, w, try.now); }
      calls := calls + 1;
      if written.Ok? { return written, calls; }
      if written == Err(InvalidInput) { return written, calls; }
    }
    return Err(Technical), calls;
  }
}
