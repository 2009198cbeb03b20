/** The stored rows and the statements on them, in place. `fate` says what became of one
    independently committed write. */
module JobStore {
  import opened Base
  import opened Collections
  import opened Rows
  import opened Changes

  /** ORDER BY ... LIMIT 1. */
  method Smallest(s: set<Id>) returns (least: Id)
    requires s != {}
    ensures least in s && forall k | k in s :: least <= k
  {
    var left;
    least, left := Pick(s);
    while left != {}
      invariant left <= s && least in s && forall k | k in s && k !in left :: least <= k
      decreases left
    {
      var k, rest := Pick(left);
      if k < least { least := k; }
      left := rest;
    }
  }

  class Store {
    var db: Db
    /** How often each decided write has changed a row. */
    ghost var effects: multiset<(Id, TaskWrite)>
    /** How often each was sent to the database, whatever became of it. */
    ghost var issued: multiset<(Id, TaskWrite)>

    constructor (db: Db)
      ensures this.db == db && effects == issued == multiset{}
    {
      this.db := db;
      effects, issued := multiset{}, multiset{};
    }

    /** What others commit between two of our statements. */
    method Others(cs: seq<Change>)
      modifies `db
      ensures db == ApplyAll(old(db), cs)
    {
      var i := 0;
      while i < |cs|
        invariant 0 <= i <= |cs| && ApplyAll(db, cs[i..]) == ApplyAll(old(db), cs)
      {
        assert cs[i..][0] == cs[i] && cs[i..][1..] == cs[i + 1..];
        db := Apply(db, cs[i]);
        i := i + 1;
      }
    }

    /** A conditional UPDATE of one Task with its own commit. */
    method Update(id: Id, w: TaskWrite, now: Time, fate: Fate) returns (r: Result<bool>)
      modifies this
      ensures !WellFormed(w) ==> r == Err(InvalidInput) && db == old(db) && effects == old(effects)
      ensures issued == if WellFormed(w) then old(issued) + multiset{(id, w)} else old(issued)
      ensures WellFormed(w) ==> r == if fate.Confirmed? then Ok(Applies(old(db), id, w)) else Err(Technical)
      ensures WellFormed(w) ==> db == if fate.RolledBack? then old(db) else AfterWrite(old(db), id, w, now)
      ensures effects == if WellFormed(w) && !fate.RolledBack? && Applies(old(db), id, w) then old(effects) + multiset{(id, w)} else old(effects)
    {
      if !WellFormed(w) { return Err(InvalidInput); }
      issued := issued + multiset{(id, w)};
      var applied := Applies(db, id, w);
      if applied && !fate.RolledBack? {
        db := db.(tasks := db.tasks[id := Assign(db.tasks[id], w, now)]);
        effects := effects + multiset{(id, w)};
      }
      if fate.Confirmed? { return Ok(applied); }
      return Err(Technical);
    }

    /** The smallest unfinished Task IDs of an Instance, at most a page. */
    method ListUnfinished(i: Id, limit: nat) returns (ids: seq<Id>)
      ensures IsListing(db, i, limit, ids)
    {
      ids := [];
      var left := Unfinished(db, i);
      while |ids| < limit && left != {}
        invariant |ids| <= limit && Ascending(ids)
        invariant forall t :: t in Unfinished(db, i) <==> t in left || t in ids
        invariant forall t, k | t in left && k in ids :: k < t
        decreases limit - |ids|
      {
        var least := Smallest(left);
        forall k | 0 <= k < |ids| ensures ids[k] < least {
          var t := ids[k];
          assert t in ids && least in left;
        }
        ids := ids + [least];
        left := left - {least};
      }
      forall t | UnfinishedIn(db, i, t) ensures t in left || t in ids { assert t in Unfinished(db, i); }
      forall t | t in ids ensures UnfinishedIn(db, i, t) { assert t in Unfinished(db, i); }
    }

    /** UPDATE ... WHERE id IN (...) AND status unfinished, counting the affected rows. */
    method CancelUnfinished(i: Id, ids: seq<Id>, reason: EndReason, now: Time) returns (count: nat)
      modifies `db
      ensures db == AfterCancel(old(db), i, ids, reason, now) && count == |Listed(ids) * Unfinished(old(db), i)|
    {
      ghost var before := db;
      count := 0;
      CancelNone(before, i, reason, now);
      for k := 0 to |ids|
        invariant db == AfterCancel(before, i, ids[..k], reason, now) && count == |Listed(ids[..k]) * Unfinished(before, i)|
      {
        CancelNext(before, i, ids, k, reason, now);
        if UnfinishedIn(db, i, ids[k]) {
          db := db.(tasks := db.tasks[ids[k] := Canceled(db.tasks[ids[k]], reason, now)]);
          count := count + 1;
        }
      }
      assert ids[..|ids|] == ids;
    }
  }

  function Listed(ids: seq<Id>): set<Id> { set t | t in ids }

  lemma CountOne(db: Db, i: Id, ids: seq<Id>, t: Id, reason: EndReason, now: Time)
    ensures var before, after := Listed(ids) * Unfinished(db, i), Listed(ids + [t]) * Unfinished(db, i);
            |after| == |before| + if UnfinishedIn(AfterCancel(db, i, ids, reason, now), i, t) then 1 else 0
  {
    var before, after := Listed(ids) * Unfinished(db, i), Listed(ids + [t]) * Unfinished(db, i);
    if UnfinishedIn(AfterCancel(db, i, ids, reason, now), i, t) {
      assert after == before + {t} && t !in before;
    } else {
      assert after == before;
    }
  }

  /** One more listed ID: what the statement does to its row, and what it counts. */
  lemma CancelNext(db: Db, i: Id, ids: seq<Id>, k: nat, reason: EndReason, now: Time)
    requires k < |ids|
    ensures var mid := AfterCancel(db, i, ids[..k], reason, now);
            AfterCancel(db, i, ids[..k + 1], reason, now) ==
            if UnfinishedIn(mid, i, ids[k]) then mid.(tasks := mid.tasks[ids[k] := Canceled(mid.tasks[ids[k]], reason, now)]) else mid
    ensures |Listed(ids[..k + 1]) * Unfinished(db, i)| == |Listed(ids[..k]) * Unfinished(db, i)|
              + if UnfinishedIn(AfterCancel(db, i, ids[..k], reason, now), i, ids[k]) then 1 else 0
  {
    assert ids[..k + 1] == ids[..k] + [ids[k]];
    CancelOne(db, i, ids[..k], ids[k], reason, now);
    CountOne(db, i, ids[..k], ids[k], reason, now);
  }

  lemma CancelNone(db: Db, i: Id, reason: EndReason, now: Time)
    ensures AfterCancel(db, i, [], reason, now) == db
  {
    assert AfterCancel(db, i, [], reason, now).tasks == db.tasks;
  }

  /** Cancelling one more listed ID. */
  lemma CancelOne(db: Db, i: Id, ids: seq<Id>, t: Id, reason: EndReason, now: Time)
    ensures var mid := AfterCancel(db, i, ids, reason, now);
            AfterCancel(db, i, ids + [t], reason, now) ==
            if UnfinishedIn(mid, i, t) then mid.(tasks := mid.tasks[t := Canceled(mid.tasks[t], reason, now)]) else mid
  {
    var mid, all := AfterCancel(db, i, ids, reason, now), AfterCancel(db, i, ids + [t], reason, now);
    var tasks := if UnfinishedIn(mid, i, t) then mid.tasks[t := Canceled(mid.tasks[t], reason, now)] else mid.tasks;
    assert all.tasks.Keys == tasks.Keys;
    forall k | k in db.tasks ensures all.tasks[k] == tasks[k] { CancelAt(db, i, ids, t, k, reason, now); }
    assert all.tasks == tasks;
  }

  lemma CancelAt(db: Db, i: Id, ids: seq<Id>, t: Id, k: Id, reason: EndReason, now: Time)
    requires k in db.tasks
    ensures var mid, all := AfterCancel(db, i, ids, reason, now), AfterCancel(db, i, ids + [t], reason, now);
            && k in mid.tasks && k in all.tasks
            && all.tasks[k] == if k == t && UnfinishedIn(mid, i, t) then Canceled(mid.tasks[t], reason, now) else mid.tasks[k]
  {
    assert k in ids + [t] <==> k in ids || k == t;
  }
}
