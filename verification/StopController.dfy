/** Stop decisions and cancellation batches as code on the stored rows, and the bounded turn of
    the stop queue that drives them. */
module StopController {
  import opened Base
  import opened Collections
  import opened Rows
  import opened Changes
  import opened JobStore
  import P = Protocol

  datatype Decision = Decision(status: InstanceStatus, endReason: Option<EndReason>, isNew: bool)

  /** Record a stop under the parent lock, which may be waited for; existing end facts stay. */
  method RequestStop(store: Store, i: Id, timeout: bool, now: Time, fate: Fate, ghost s: P.State) returns (r: Result<Decision>)
    requires s.db == store.db && i !in s.open
    modifies store`db
    ensures var locked := P.Lock(s, i, P.Stop(timeout));
            var commits := 0 < i && !fate.RolledBack? && P.StopCommits(locked, i, now);
            && store.db == (if commits then P.CommitStop(locked, i, now).db else s.db)
            && (r.Ok? && r.value.isNew <==> commits && fate.Confirmed?)
            && (r.Ok? <==> 0 < i && i in s.db.instances && !StopVerdict(s.db.instances[i], timeout, now).Refuse? && fate.Confirmed?)
            && (r.Ok? ==> i in store.db.instances && r.value.status == store.db.instances[i].status
                          && r.value.endReason == store.db.instances[i].endReason)
  {
    if i <= 0 { return Err(InvalidInput); }
    if i !in store.db.instances { return Err(NotFound); }
    var view := store.db.instances[i];
    var verdict := StopVerdict(view, timeout, now);
    if verdict.Refuse? { return Err(verdict.error); }
    if verdict.Skip? {
      if !fate.Confirmed? { return Err(Technical); }
      return Ok(Decision(view.status, view.endReason, false));
    }
    if fate.RolledBack? { return Err(Technical); }
    store.db := AfterStop(store.db, i, StopReason(timeout));
    if fate.ConfirmationLost? { return Err(Technical); }
    return Ok(Decision(InstanceStopping, Some(StopReason(timeout)), true));
  }

  datatype BatchResult = BatchResult(status: InstanceStatus, canceled: nat, more: bool, completed: bool)

  /** The circumstances of one batch: what others commit before it, lock contention, what others
      commit while it runs, its time and its fate. */
  datatype Turn = Turn(before: seq<Change>, held: bool, meanwhile: seq<Change>, now: Time, fate: Fate)

  predicate MayCancel(inst: Instance) {
    inst.status == InstanceStopping && IsStopReason(inst.endReason) && inst.finishedAt.None?
  }

  /** One transaction: lock, list a page, then cancel it or finish the parent. */
  method ProcessBatch(store: Store, i: Id, limit: nat, turn: Turn) returns (r: Result<Option<BatchResult>>, ghost page: seq<Id>)
    requires 0 < limit
    modifies store`db
    ensures 0 < i && i in old(store.db).instances && MayCancel(old(store.db).instances[i]) && !turn.held ==>
              && IsListing(old(store.db), i, limit, page)
              && var reason := old(store.db).instances[i].endReason.value;
                 store.db == if turn.fate.RolledBack? then ApplyAll(old(store.db), turn.meanwhile)
                             else AfterBatch(old(store.db), i, Batch([], page, turn.meanwhile, turn.now), reason)
    ensures !(0 < i && i in old(store.db).instances && MayCancel(old(store.db).instances[i]) && !turn.held) ==>
              store.db == ApplyAll(old(store.db), turn.meanwhile)
    ensures r.Ok? ==> turn.fate.Confirmed?
    ensures r.Ok? && r.value.Some? && r.value.value.more ==>
              page != [] && 0 < i && i in old(store.db).instances && MayCancel(old(store.db).instances[i]) && !turn.held
              && r.value.value.canceled == |Listed(page) * Unfinished(ApplyAll(old(store.db), turn.meanwhile), i)|
    ensures r.Ok? && r.value.Some? && r.value.value.completed ==>
              i in store.db.instances && store.db.instances[i].status == r.value.value.status && r.value.value.status.Terminal()
  {
    page := [];
    ghost var before := store.db;
    if i <= 0 || i !in store.db.instances || turn.held || !MayCancel(store.db.instances[i]) {
      var known := 0 < i && i in store.db.instances;
      var row := if known then Some(store.db.instances[i]) else None;
      store.Others(turn.meanwhile);
      return Refused(i, turn, row), [];
    }
    var reason := store.db.instances[i].endReason.value;
    var ids := store.ListUnfinished(i, limit);
    page := ids;
    store.Others(turn.meanwhile);
    if turn.fate.RolledBack? { return Err(Technical), ids; }
    if ids == [] {
      var applies := FinishApplies(store.db, i, reason);
      store.db := AfterFinish(store.db, i, reason, turn.now);
      if turn.fate.ConfirmationLost? { return Err(Technical), ids; }
      return Ok(Some(BatchResult(if applies then StopTarget(reason) else InstanceStopping, 0, false, applies))), ids;
    }
    var canceled := store.CancelUnfinished(i, ids, reason, turn.now);
    if turn.fate.ConfirmationLost? { return Err(Technical), ids; }
    return Ok(Some(BatchResult(InstanceStopping, canceled, true, false))), ids;
  }

  /** The answers that write nothing. */
  function Refused(i: Id, turn: Turn, row: Option<Instance>): Result<Option<BatchResult>> {
    if i <= 0 then Err(InvalidInput)
    else if row.Some? && turn.held then Err(Locked)
    else if row.Some? && row.value.status == InstanceStopping && !MayCancel(row.value) then Err(InvalidState)
    else if !turn.fate.Confirmed? then Err(Technical)
    else if row.None? then Ok(None)
    else Ok(Some(BatchResult(row.value.status, 0, false, false)))
  }

  /** One turn of the stop queue: at most `maxBatches` batches, ended by an error, by the last
      page, or between two confirmed batches once its time is up. */
  method Process(store: Store, i: Id, limit: nat, maxBatches: nat, turns: seq<Turn>, timeUp: seq<bool>) returns (more: bool, failed: bool, calls: nat)
    requires 0 < limit && |turns| == maxBatches == |timeUp|
    requires 0 < i && forall k | 0 <= k < |turns| :: Harmless(turns[k].before, i) && Harmless(turns[k].meanwhile, i)
    modifies store`db
    ensures calls <= maxBatches && !(more && failed)
    ensures Unfinished(store.db, i) <= Unfinished(old(store.db), i)
    // Each confirmed batch that leaves more to do has finished a full page.
    ensures more && i in old(store.db).instances ==>
              |Unfinished(store.db, i)| + limit * calls <= |Unfinished(old(store.db), i)| || Unfinished(store.db, i) == {}
  {
    calls := 0;
    while calls < maxBatches
      invariant calls <= maxBatches
      invariant Shrunk(old(store.db), store.db, i, limit, calls)
    {
      var again, error := ProcessOne(store, i, limit, turns[calls], old(store.db), calls);
      calls := calls + 1;
      if error { return false, true, calls; }
      if !again { return false, false, calls; }
      if timeUp[calls - 1] { return true, false, calls; }
    }
    return true, false, calls;
  }

  /** What `calls` confirmed unfinished batches have achieved. */
  ghost predicate Shrunk(before: Db, after: Db, i: Id, limit: nat, calls: nat) {
    && Unfinished(after, i) <= Unfinished(before, i)
    && (i in before.instances ==>
          i in after.instances && (|Unfinished(after, i)| + limit * calls <= |Unfinished(before, i)| || Unfinished(after, i) == {}))
  }

  lemma OthersShrunk(before: Db, mid: Db, cs: seq<Change>, i: Id, limit: nat, calls: nat)
    requires Shrunk(before, mid, i, limit, calls) && Harmless(cs, i)
    ensures Shrunk(before, ApplyAll(mid, cs), i, limit, calls)
  {
    OthersShrink(mid, cs, i);
    SubsetCount(Unfinished(ApplyAll(mid, cs), i), Unfinished(mid, i));
  }

  lemma BatchShrunk(before: Db, mid: Db, i: Id, limit: nat, b: Batch, reason: EndReason, calls: nat)
    requires Shrunk(before, mid, i, limit, calls) && Legal(mid, i, limit, b)
    ensures Unfinished(AfterBatch(mid, i, b, reason), i) <= Unfinished(before, i)
    ensures b.ids != [] && b.before == [] ==> Shrunk(before, AfterBatch(mid, i, b, reason), i, limit, calls + 1)
  {
    AnyBatchShrinks(mid, i, limit, b, reason);
    assert limit * (calls + 1) == limit * calls + limit;
    if b.ids != [] && b.before == [] {
      assert UnfinishedIn(mid, i, b.ids[0]) && b.ids[0] in Unfinished(mid, i);
    }
  }

  /** What others have committed, then one batch. */
  method ProcessOne(store: Store, i: Id, limit: nat, turn: Turn, ghost before: Db, ghost calls: nat) returns (again: bool, error: bool)
    requires 0 < limit && 0 < i && Harmless(turn.before, i) && Harmless(turn.meanwhile, i) && Shrunk(before, store.db, i, limit, calls)
    modifies store`db
    ensures Unfinished(store.db, i) <= Unfinished(before, i)
    ensures again ==> !error && Shrunk(before, store.db, i, limit, calls + 1)
  {
    OthersShrunk(before, store.db, turn.before, i, limit, calls);
    store.Others(turn.before);
    ghost var mid := store.db;
    var r, page := ProcessBatch(store, i, limit, turn);
    OthersShrink(mid, turn.meanwhile, i);
    if i in mid.instances && MayCancel(mid.instances[i]) && !turn.held && !turn.fate.RolledBack? {
      BatchShrunk(before, mid, i, limit, Batch([], page, turn.meanwhile, turn.now), mid.instances[i].endReason.value, calls);
    }
    return r.Ok? && r.value.Some? && r.value.value.more, r.Err?;
  }

  lemma AnyBatchShrinks(db: Db, i: Id, limit: nat, b: Batch, reason: EndReason)
    requires Legal(db, i, limit, b)
    ensures var db' := AfterBatch(db, i, b, reason);
            && Unfinished(db', i) <= Unfinished(db, i) && (i in db.instances ==> i in db'.instances)
            && (b.ids != [] ==> |Unfinished(db', i)| + limit <= |Unfinished(db, i)| || Unfinished(db', i) == {})
  {
    OthersShrink(db, b.before, i);
    OthersShrink(ApplyAll(db, b.before), b.meanwhile, i);
    if b.ids != [] { BatchShrinks(db, i, limit, b, reason); }
  }
}
