/** Sequences of committed changes to the rows, whoever makes them: a write decided once takes
    effect at most once, and cancellation batches converge for any set of Tasks. */
module Changes {
  import opened Base
  import opened Collections
  import opened Rows

  /** One committed statement. */
  datatype Change =
    | Write(id: Id, w: TaskWrite, now: Time)
    | Cancel(i: Id, ids: seq<Id>, reason: EndReason, now: Time)
    | Complete(i: Id, target: InstanceStatus, summary: Option<string>, now: Time)

  function Apply(db: Db, c: Change): Db {
    match c
    case Write(id, w, now) => AfterWrite(db, id, w, now)
    case Cancel(i, ids, reason, now) => AfterCancel(db, i, ids, reason, now)
    case Complete(i, target, summary, now) => AfterComplete(db, i, target, summary, now)
  }

  function ApplyAll(db: Db, cs: seq<Change>): Db
    decreases |cs|
  {
    if cs == [] then db else ApplyAll(Apply(db, cs[0]), cs[1..])
  }

  // ----- once only -----

  /** The row has moved past what the write was decided for. */
  predicate Spent(t: Task, w: TaskWrite) {
    || w.attemptNo < t.attemptNo
    || (w.attemptNo == t.attemptNo && !w.Register? && (t.status != TaskRunning || (w.Bind? && !Unbound(t))))
  }

  ghost predicate SpentIn(db: Db, id: Id, w: TaskWrite) { id in db.tasks && Spent(db.tasks[id], w) }

  lemma EffectSpends(db: Db, id: Id, w: TaskWrite, now: Time)
    requires Applies(db, id, w) && WellFormed(w)
    ensures SpentIn(AfterWrite(db, id, w, now), id, w)
  {
  }

  lemma SpentStays(db: Db, c: Change, id: Id, w: TaskWrite)
    requires SpentIn(db, id, w) && (c.Write? ==> WellFormed(c.w))
    ensures SpentIn(Apply(db, c), id, w)
  {
  }

  ghost predicate AllWellFormed(cs: seq<Change>) { forall k | 0 <= k < |cs| && cs[k].Write? :: WellFormed(cs[k].w) }

  /** After a write has taken effect it never matches again, whatever else is committed. */
  lemma {:induction false} SpentForGood(db: Db, cs: seq<Change>, id: Id, w: TaskWrite)
    requires SpentIn(db, id, w) && AllWellFormed(cs)
    ensures SpentIn(ApplyAll(db, cs), id, w) && !Applies(ApplyAll(db, cs), id, w)
    decreases |cs|
  {
    if cs != [] {
      SpentStays(db, cs[0], id, w);
      SpentForGood(Apply(db, cs[0]), cs[1..], id, w);
    }
  }

  /** Repeating a decided write, any number of times and however late, changes nothing more. */
  lemma OnceOnly(db: Db, cs: seq<Change>, id: Id, w: TaskWrite, first: Time, again: Time)
    requires Applies(db, id, w) && WellFormed(w) && AllWellFormed(cs)
    ensures var later := ApplyAll(AfterWrite(db, id, w, first), cs);
            AfterWrite(later, id, w, again) == later
  {
    EffectSpends(db, id, w, first);
    SpentForGood(AfterWrite(db, id, w, first), cs, id, w);
  }

  // ----- cancellation batches -----

  /** Others may finish Tasks of a stopping Instance, but nobody registers attempts for it. */
  ghost predicate Harmless(cs: seq<Change>, i: Id) {
    && AllWellFormed(cs)
    && (forall k | 0 <= k < |cs| && cs[k].Write? && cs[k].w.Register? :: cs[k].w.instance != i)
    && (forall k | 0 <= k < |cs| && cs[k].Complete? :: cs[k].i != i)
  }

  lemma OthersOnlyFinish(db: Db, c: Change, i: Id)
    requires (c.Write? ==> WellFormed(c.w) && (c.w.Register? ==> c.w.instance != i)) && (c.Complete? ==> c.i != i)
    ensures Unfinished(Apply(db, c), i) <= Unfinished(db, i)
    ensures i in db.instances ==> i in Apply(db, c).instances && Apply(db, c).instances[i] == db.instances[i]
  {
    forall t | t in Unfinished(Apply(db, c), i) ensures t in Unfinished(db, i) {}
  }

  lemma {:induction false} OthersShrink(db: Db, cs: seq<Change>, i: Id)
    requires Harmless(cs, i)
    ensures Unfinished(ApplyAll(db, cs), i) <= Unfinished(db, i)
    ensures i in db.instances ==> i in ApplyAll(db, cs).instances && ApplyAll(db, cs).instances[i] == db.instances[i]
    decreases |cs|
  {
    if cs != [] {
      OthersOnlyFinish(db, cs[0], i);
      OthersShrink(Apply(db, cs[0]), cs[1..], i);
    }
  }

  /** One batch of a stopping Instance: what others commit before it lists its page, the page, and
      what others commit before the listed Tasks are cancelled. */
  datatype Batch = Batch(before: seq<Change>, ids: seq<Id>, meanwhile: seq<Change>, now: Time)

  function AfterBatch(db: Db, i: Id, b: Batch, reason: EndReason): Db {
    var mid := ApplyAll(ApplyAll(db, b.before), b.meanwhile);
    if b.ids == [] then AfterFinish(mid, i, reason, b.now) else AfterCancel(mid, i, b.ids, reason, b.now)
  }

  ghost predicate Legal(db: Db, i: Id, limit: nat, b: Batch) {
    Harmless(b.before, i) && IsListing(ApplyAll(db, b.before), i, limit, b.ids) && Harmless(b.meanwhile, i)
  }

  /** A batch finishes every Task it listed, so it shrinks the unfinished set by a full page or
      empties it. */
  lemma BatchShrinks(db: Db, i: Id, limit: nat, b: Batch, reason: EndReason)
    requires Legal(db, i, limit, b) && b.ids != []
    ensures Unfinished(AfterBatch(db, i, b, reason), i) <= Unfinished(db, i) - (set t | t in b.ids)
    ensures |Unfinished(AfterBatch(db, i, b, reason), i)| + limit <= |Unfinished(db, i)| || Unfinished(AfterBatch(db, i, b, reason), i) == {}
    ensures i in db.instances ==> i in AfterBatch(db, i, b, reason).instances && AfterBatch(db, i, b, reason).instances[i] == db.instances[i]
  {
    var listed, db', page := ApplyAll(db, b.before), AfterBatch(db, i, b, reason), set t | t in b.ids;
    var mid := ApplyAll(listed, b.meanwhile);
    OthersShrink(db, b.before, i);
    OthersShrink(listed, b.meanwhile, i);
    forall t | t in Unfinished(db', i) ensures t in Unfinished(listed, i) && t !in page { assert t in Unfinished(mid, i); }
    AscendingCount(b.ids);
    forall t | t in page ensures t in Unfinished(listed, i) { assert UnfinishedIn(listed, i, t); }
    SubsetCount(Unfinished(db', i), Unfinished(db, i) - page);
    if |b.ids| < limit {
      forall t | t in Unfinished(listed, i) ensures t in page { assert UnfinishedIn(listed, i, t); }
    }
  }

  function AfterBatches(db: Db, i: Id, batches: seq<Batch>, reason: EndReason): Db
    decreases |batches|
  {
    if batches == [] then db else AfterBatches(AfterBatch(db, i, batches[0], reason), i, batches[1..], reason)
  }

  ghost predicate AllLegal(db: Db, i: Id, limit: nat, batches: seq<Batch>, reason: EndReason)
    decreases |batches|
  {
    batches != [] ==> Legal(db, i, limit, batches[0]) && AllLegal(AfterBatch(db, i, batches[0], reason), i, limit, batches[1..], reason)
  }

  /** An empty page finishes the Instance, and then nothing more happens to it. */
  lemma EmptyPageFinishes(db: Db, i: Id, limit: nat, b: Batch, reason: EndReason)
    requires Legal(db, i, limit, b) && b.ids == [] && 0 < limit
    requires i in db.instances && db.instances[i].status == InstanceStopping && db.instances[i].endReason == Some(reason)
    ensures var db' := AfterBatch(db, i, b, reason);
            i in db'.instances && db'.instances[i].status == StopTarget(reason) && Unfinished(db', i) == {}
  {
    var listed := ApplyAll(db, b.before);
    OthersShrink(db, b.before, i);
    OthersShrink(listed, b.meanwhile, i);
    forall t ensures t !in Unfinished(listed, i) { assert UnfinishedIn(listed, i, t) ==> t in b.ids; }
  }

  /** Batches of any positive size reach the terminal state the reason selects, at a full page
      each, for any number of Tasks of any kind and whatever results arrive between batches and
      during them. */
  lemma {:induction false} BatchesConverge(db: Db, i: Id, limit: nat, batches: seq<Batch>, reason: EndReason)
    requires AllLegal(db, i, limit, batches, reason) && 0 < limit
    requires i in db.instances && db.instances[i].status == InstanceStopping && db.instances[i].endReason == Some(reason)
    requires |Unfinished(db, i)| <= limit * (|batches| - 1)
    ensures exists n :: 0 < n <= |batches| && FinishedAt(db, i, batches[..n], reason)
    decreases |batches|
  {
    var db', first, rest := AfterBatch(db, i, batches[0], reason), batches[0], batches[1..];
    if first.ids == [] {
      EmptyPageFinishes(db, i, limit, first, reason);
      assert batches[..1] == [first] && AfterBatches(db', i, [], reason) == db';
      assert FinishedAt(db, i, batches[..1], reason);
    } else {
      BatchShrinks(db, i, limit, first, reason);
      OthersShrink(db, first.before, i);
      assert UnfinishedIn(ApplyAll(db, first.before), i, first.ids[0]) && first.ids[0] in Unfinished(ApplyAll(db, first.before), i);
      RoomLeft(|Unfinished(db, i)|, |Unfinished(db', i)|, limit, |batches|);
      BatchesConverge(db', i, limit, rest, reason);
      var n :| 0 < n <= |rest| && FinishedAt(db', i, rest[..n], reason);
      assert batches[..n + 1][1..] == rest[..n];
      assert FinishedAt(db, i, batches[..n + 1], reason);
    }
  }

  ghost predicate FinishedAt(db: Db, i: Id, batches: seq<Batch>, reason: EndReason) {
    var db' := AfterBatches(db, i, batches, reason);
    i in db'.instances && db'.instances[i].status == StopTarget(reason)
  }

  lemma RoomLeft(before: nat, after: nat, limit: nat, count: nat)
    requires 0 < before <= limit * (count - 1) && (after + limit <= before || after == 0)
    ensures 2 <= count && after <= limit * (count - 2)
  {
    Positive(limit, count - 1);
    assert limit * (count - 1) == limit * (count - 2) + limit;
    NotNegative(limit, count - 2);
  }

  lemma Positive(a: nat, b: int)
    requires 0 < a * b
    ensures 0 < b
  {
  }

  lemma NotNegative(a: nat, b: int)
    ensures 0 <= b ==> 0 <= a * b
  {
  }
}
