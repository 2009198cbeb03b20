/** The cursor scans. A pass may be cut anywhere by a failure, a refusal or its budget, and the
    source may change between any two queries; a later pass goes on from the last row handed on. */
module Scans {
  import opened Base
  import opened Rows
  import opened JobStore
  import opened Decisions
  import opened Sources

  /** Where a traversal stands. `begun` means that its bound is fixed. What it has handed on starts at
      `from` in the outside's record, its queries at `since`. */
  class Position {
    var begun: bool
    var bound: Bound
    var cursor: Option<Row>
    ghost var from: nat
    ghost var since: nat

    constructor ()
      ensures !begun && cursor == None && from == since == 0
    {
      begun, bound, cursor, from, since := false, All, None, 0, 0;
    }

    method Begin(bound: Bound)
      modifies `begun, `bound
      ensures begun && this.bound == bound
    {
      this.begun, this.bound := true, bound;
    }

    /** The traversal is over; another one may begin. */
    method Reset(out: Outside)
      modifies `begun, `cursor, `from, `since
      ensures !begun && cursor == None && from == |out.taken| && since == |out.seen|
    {
      begun, cursor := false, None;
      from, since := |out.taken|, |out.seen|;
    }
  }

  /** The cursor is on the last row handed on, and what was handed on is what the traversal owes up to
      there. */
  ghost predicate Standing(p: Position, out: Outside)
    reads p, out
  {
    && p.from <= |out.taken| && p.since <= |out.seen| && p.cursor == LastOf(out.taken[p.from..])
    && if p.begun then Progress(out.taken[p.from..], out.seen[p.since..], p.bound) && Tops(p.bound, out.seen[p.since..])
       else p.from == |out.taken| && p.since == |out.seen|
  }

  /** How a pass leaves the traversal: resumable where it stands, or traversed from its beginning, over
      all its passes, and ready for the next one. */
  twostate predicate Passed(p: Position, out: Outside, complete: bool, bound: Bound)
    reads p, out
  {
    && Standing(p, out) && |old(out.seen)| <= |out.seen| && |old(out.taken)| <= |out.taken| && out.taken[..|old(out.taken)|] == old(out.taken)
    && old(p.from) <= |out.taken| && old(p.since) <= |out.seen|
    && if complete then !p.begun && p.from == |out.taken| && Traversed(out.taken[old(p.from)..], out.seen[old(p.since)..], bound)
       else p.from == old(p.from) && p.since == old(p.since)
  }

  // ----- one page -----

  lemma Suffix<T>(s: seq<T>, from: nat, x: seq<T>)
    requires from <= |s|
    ensures (s + x)[from..] == s[from..] + x
  {
  }

  lemma OneMore<T>(s: seq<T>, page: seq<T>, k: nat)
    requires k < |page|
    ensures s + page[..k] + [page[k]] == s + page[..k + 1]
  {
  }

  /** What is known once a page is listed: it follows what was handed on in the latest view. */
  ghost predicate Listed(before: seq<Row>, views: seq<set<Row>>, bound: Bound, limit: nat, page: seq<Row>) {
    views != [] && IsPage(views[|views| - 1], LastOf(before), bound, limit, page) && Progress(before, views, bound)
  }

  /** List the next page. */
  method NextPage(out: Outside, p: Position, limit: nat) returns (page: Option<seq<Row>>)
    requires out.Valid() && Standing(p, out) && p.begun
    modifies out`next, out`seen
    ensures out.Valid() && Standing(p, out) && |old(out.seen)| <= |out.seen|
    ensures out.next == if old(out.next) < |out.script| then old(out.next) + 1 else old(out.next)
    ensures if page.None? then out.Cut() else old(out.next) < out.next && Listed(out.taken[p.from..], out.seen[p.since..], p.bound, limit, page.value)
    ensures page.Some? && Usual(out.script, false) ==> Positive(page.value)
    ensures page.Some? && Usual(out.script, true) ==> forall k | 0 <= k < |page.value| :: Identified(page.value[k])
  {
    ghost var handed, views := out.taken[p.from..], out.seen[p.since..];
    page := out.Query(p.cursor, p.bound, limit);
    if page.Some? {
      ghost var view := out.seen[|out.seen| - 1];
      assert out.seen[p.since..] == views + [view];
      QueryKeeps(handed, views, p.bound, view);
    }
  }

  /** The answers used since then: at most four for each row handed on, and `extra`. */
  twostate predicate Spent(out: Outside, extra: nat)
    reads out
  {
    old(out.next) <= out.next <= old(out.next) + 4 * (|out.taken| - |old(out.taken)|) + extra
  }

  /** Hand on the rows of a page one by one; the first refusal ends the pass, and nothing else does. */
  method HandOn(out: Outside, p: Position, limit: nat, page: seq<Row>) returns (ok: bool)
    requires out.Valid() && Standing(p, out) && p.begun && Listed(out.taken[p.from..], out.seen[p.since..], p.bound, limit, page)
    modifies out`next, out`taken, p`cursor
    ensures out.Valid() && Standing(p, out) && old(out.taken) <= out.taken
    ensures ok ==> out.taken == old(out.taken) + page && out.taken[p.from..] == old(out.taken[p.from..]) + page
    ensures old(out.next) <= out.next && if ok then out.next == old(out.next) + |page| else out.Cut() && out.next <= old(out.next) + |out.taken| - |old(out.taken)| + 1
  {
    ok := false;
    ghost var before, views := out.taken[p.from..], out.seen[p.since..];
    assert before + page[..0] == before;
    var k := 0;
    while k < |page|
      invariant k <= |page| && out.Valid() && out.next == old(out.next) + k && out.taken == old(out.taken) + page[..k]
      invariant p.cursor == LastOf(before + page[..k]) && Progress(before + page[..k], views, p.bound)
    {
      var taken := out.Offer([page[k]]);
      if !taken {
        Suffix(old(out.taken), p.from, page[..k]);
        return;
      }
      HandOnOne(before, views, p.bound, limit, page, k);
      OneMore(old(out.taken), page, k);
      OneMore(before, page, k);
      p.cursor := Some(page[k]);
      k := k + 1;
    }
    assert page[..k] == page;
    Suffix(old(out.taken), p.from, page);
    ok := true;
  }

  /** The traversal ends with a short page. */
  method Finish(out: Outside, p: Position, limit: nat, page: seq<Row>, ghost before: seq<Row>)
    requires Standing(p, out) && p.begun && Listed(before, out.seen[p.since..], p.bound, limit, page)
    requires |page| < limit && out.taken[p.from..] == before + page
    modifies p`begun, p`cursor, p`from, p`since
    ensures Standing(p, out) && !p.begun && p.from == |out.taken| && Traversed(out.taken[old(p.from)..], out.seen[old(p.since)..], p.bound)
  {
    ShortPageEnds(before, out.seen[p.since..], p.bound, limit, page);
    p.Reset(out);
  }

  /** Fix the bound of an ID traversal. Nothing in the source ends the traversal at once. */
  method FixTop(out: Outside, p: Position) returns (ok: bool, complete: bool)
    requires out.Valid() && Standing(p, out) && !p.begun
    modifies out`next, out`seen, p
    ensures out.Valid() && out.next == if old(out.next) < |out.script| then old(out.next) + 1 else old(out.next)
    ensures out.taken == old(out.taken) && (ok || complete || out.Cut())
    ensures Passed(p, out, complete, All) && (if ok then p.begun && p.bound.UpTo? && !complete else !p.begun)
  {
    ok, complete := false, false;
    var top := out.Top();
    if top.None? { return; }
    ghost var view := out.seen[|out.seen| - 1];
    assert out.seen[p.since..] == [view] && out.taken[p.from..] == [];
    if top.value.None? {
      assert Traversed([], [view], All) by { assert [view][0] == {}; }
      p.Reset(out);
      complete := true;
    } else {
      p.Begin(UpTo(top.value.value));
      ok := true;
    }
  }

  /** Whether the row handed on last is the bound of an ID traversal. */
  predicate AtTop(bound: Bound, cursor: Option<Row>) {
    bound.UpTo? && cursor.Some? && cursor.value.at == bound.top.at && cursor.value.id == bound.top.id
  }

  method FinishAtTop(out: Outside, p: Position)
    requires Standing(p, out) && p.begun && AtTop(p.bound, p.cursor)
    modifies p`begun, p`cursor, p`from, p`since
    ensures Standing(p, out) && !p.begun && p.from == |out.taken| && Traversed(out.taken[old(p.from)..], out.seen[old(p.since)..], All)
  {
    TopEnds(out.taken[p.from..], out.seen[p.since..], p.bound);
    Unbounded(out.taken[p.from..], out.seen[p.since..], p.bound);
    p.Reset(out);
  }

  predicate Positive(page: seq<Row>) { forall k | 0 <= k < |page| :: 0 < page[k].id }

  // ----- stopping Instances -----

  /** One page of an ID traversal whose rows are offered one by one. */
  method StoppingPage(out: Outside, p: Position, pageSize: nat) returns (go: bool, complete: bool)
    requires out.Valid() && Standing(p, out) && p.begun && p.bound.UpTo? && 0 < pageSize
    modifies out, p
    ensures out.Valid() && Spent(out, if go then 0 else 4) && (go || old(out.next) < |out.script| ==> old(out.next) < out.next)
    ensures Passed(p, out, complete, All) && p.bound == old(p.bound) && (if complete then !go else p.begun)
    ensures go || complete || out.Cut() || !Usual(out.script, false)
  {
    go, complete := false, false;
    var r := NextPage(out, p, pageSize);
    if r.None? || !Positive(r.value) { return; }
    ghost var before, views := out.taken[p.from..], out.seen[p.since..];
    if r.value == [] {
      assert before + [] == before;
      Finish(out, p, pageSize, [], before);
      Unbounded(before, views, p.bound);
      return false, true;
    }
    var ok := HandOn(out, p, pageSize, r.value);
    if !ok { return; }
    if AtTop(p.bound, p.cursor) {
      FinishAtTop(out, p);
      return false, true;
    }
    go := true;
  }

  /** A pass over stopping Instances; a refused hint ends it. */
  method ScanStopping(out: Outside, p: Position, pageSize: nat) returns (complete: bool)
    requires out.Valid() && Standing(p, out) && (p.begun ==> p.bound.UpTo?) && 0 < pageSize
    modifies out, p
    ensures out.Valid() && Spent(out, 5) && (old(out.next) < |out.script| ==> old(out.next) < out.next)
    ensures Passed(p, out, complete, All) && (p.begun ==> p.bound.UpTo?)
    ensures complete || out.Cut() || !Usual(out.script, false)
  {
    complete := false;
    if !p.begun {
      var ok, none := FixTop(out, p);
      if !ok { return none; }
    }
    var go := true;
    while go
      invariant out.Valid() && Spent(out, if go then 1 else 5) && Passed(p, out, complete, All)
      invariant (!complete ==> p.begun) && (go ==> !complete) && p.bound.UpTo?
      invariant go || complete || out.Cut() || !Usual(out.script, false)
      invariant old(out.next) < |out.script| && !go ==> old(out.next) < out.next
      decreases go, |out.script| - out.next
    {
      go, complete := StoppingPage(out, p, pageSize);
    }
  }

  // ----- running Instances -----

  /** A traversal by time keeps the bound it derived from one reading of the database clock. */
  ghost predicate Timed(p: Position, out: Outside, age: int, before: bool)
    reads p, out
  {
    (if before then p.bound.Before? else p.bound.AtMost?) && p.bound.at + age in out.read
  }

  method FixTime(out: Outside, p: Position, age: int, before: bool) returns (ok: bool)
    requires out.Valid() && Standing(p, out) && !p.begun
    modifies out`next, out`read, p`begun, p`bound
    ensures out.Valid() && out.next == (if old(out.next) < |out.script| then old(out.next) + 1 else old(out.next)) && (ok || out.Cut())
    ensures Standing(p, out) && old(out.read) <= out.read && p.begun == ok && (ok ==> Timed(p, out, age, before))
  {
    var now := out.Clock();
    if now.None? { return false; }
    assert out.taken[p.from..] == [];
    p.Begin(if before then Before(now.value - age) else AtMost(now.value - age));
    return true;
  }

  /** A page of old running Instances; an empty page ends the traversal. */
  method NextRunning(out: Outside, p: Position, pageSize: nat) returns (go: bool, complete: bool)
    requires out.Valid() && Standing(p, out) && p.begun && 0 < pageSize
    modifies out`next, out`seen, out`taken, p
    ensures out.Valid() && old(out.next) <= out.next <= old(out.next) + |out.taken| - |old(out.taken)| + 2
    ensures go ==> |old(out.taken)| < |out.taken| && out.next == old(out.next) + |out.taken| - |old(out.taken)| + 1
    ensures Passed(p, out, complete, p.bound) && p.bound == old(p.bound) && (complete ==> !go)
    ensures go || complete || out.Cut() || !Usual(out.script, false)
  {
    go, complete := false, false;
    var r := NextPage(out, p, pageSize);
    if r.None? || !Positive(r.value) { return; }
    if r.value == [] {
      assert out.taken[p.from..] + [] == out.taken[p.from..];
      Finish(out, p, pageSize, [], out.taken[p.from..]);
      return false, true;
    }
    go := HandOn(out, p, pageSize, r.value);
  }

  /** Wait for capacity, fix the time if need be, and go through one page. */
  method RunningPage(out: Outside, p: Position, pageSize: nat, minAge: int) returns (go: bool, complete: bool)
    requires out.Valid() && Standing(p, out) && (p.begun ==> Timed(p, out, minAge, true)) && 0 < pageSize
    modifies out, p
    ensures out.Valid() && Spent(out, if go then 0 else 4) && (go || old(out.next) < |out.script| ==> old(out.next) < out.next)
    ensures Passed(p, out, complete, p.bound) && (p.begun || complete ==> Timed(p, out, minAge, true)) && (complete ==> !go)
    ensures go || complete || out.Cut() || !Usual(out.script, false)
  {
    var room := out.Try();
    if !room { return false, false; }
    if !p.begun {
      var ok := FixTime(out, p, minAge, true);
      if !ok { return false, false; }
    }
    go, complete := NextRunning(out, p, pageSize);
  }

  /** A pass over old running Instances. */
  method ScanRunning(out: Outside, p: Position, pageSize: nat, minAge: int) returns (complete: bool)
    requires out.Valid() && Standing(p, out) && (p.begun ==> Timed(p, out, minAge, true)) && 0 < pageSize
    modifies out, p
    ensures out.Valid() && Spent(out, 5) && (old(out.next) < |out.script| ==> old(out.next) < out.next)
    ensures Passed(p, out, complete, p.bound) && (p.begun || complete ==> Timed(p, out, minAge, true))
    ensures complete || out.Cut() || !Usual(out.script, false)
  {
    complete := false;
    var go := true;
    while go
      invariant out.Valid() && Spent(out, if go then 0 else 4) && Passed(p, out, complete, p.bound)
      invariant (p.begun || complete ==> Timed(p, out, minAge, true)) && (go ==> !complete)
      invariant go || complete || out.Cut() || !Usual(out.script, false)
      invariant old(out.next) < |out.script| && !go ==> old(out.next) < out.next
      decreases go, |out.script| - out.next
    {
      go, complete := RunningPage(out, p, pageSize, minAge);
    }
  }

  // ----- unbound attempts -----

  /** Nothing but the outside can make a batch fail. */
  ghost predicate Unhindered(db: Db, steps: nat -> Step) { Sane(db) && AllSmooth(steps) }

  ghost predicate AllSmooth(steps: nat -> Step) { forall k :: Smooth(steps(k)) }

  /** Settle the rows of a page from `offset` on, as many as one batch takes. */
  method SettleSome(store: Store, out: Outside, page: seq<Row>, offset: nat, period: int, steps: nat -> Step) returns (processed: nat, failed: bool)
    requires 0 < period && out.Valid() && offset < |page| && forall k | 0 <= k < |page| :: Identified(page[k])
    modifies store, out`next, out`read, out`taken
    ensures out.Valid() && old(out.next) <= out.next <= old(out.next) + 2 && old(out.read) <= out.read
    ensures failed ==> out.Cut() || !Unhindered(old(store.db), steps)
    ensures Sane(old(store.db)) ==> Sane(store.db)
    ensures offset + processed <= |page| && (!failed ==> 0 < processed) && out.taken == old(out.taken) + page[offset..offset + processed]
  {
    var count := if MAX_BATCH < |page| - offset then MAX_BATCH else |page| - offset;
    var batch := page[offset..offset + count];
    ghost var rows := store.db;
    var done, applied, error, at := SettleBatch(store, out, batch, period, steps, offset);
    processed, failed := done, error;
    NeverStalls(rows, batch, at, period, steps, offset);
    Batched(page, offset, count, processed);
  }

  lemma NeverStalls(db: Db, batch: seq<Row>, processedAt: Time, period: int, steps: nat -> Step, first: nat)
    ensures Unhindered(db, steps) ==> forall k | 0 <= k < |batch| :: !Stalls(db, batch[k], processedAt, period, steps(first + k))
  {
    if Unhindered(db, steps) {
      forall k | 0 <= k < |batch| ensures !Stalls(db, batch[k], processedAt, period, steps(first + k)) {
        SaneNeverHalts(db, batch[k], processedAt, period);
      }
    }
  }

  /** The cursor is on the last of the first `n` rows of a page, which have been handed on. */
  ghost predicate HandedOn(p: Position, before: seq<Row>, views: seq<set<Row>>, page: seq<Row>, n: nat)
    reads p
  {
    n <= |page| && p.cursor == LastOf(before + page[..n]) && Progress(before + page[..n], views, p.bound)
  }

  /** Settle the next batch of a page; the cursor follows what it has processed. `before` was handed on
      when the page was listed. */
  method SettlePart(store: Store, out: Outside, p: Position, limit: nat, page: seq<Row>, offset: nat, period: int, steps: nat -> Step,
                    ghost before: seq<Row>, ghost views: seq<set<Row>>)
    returns (processed: nat, failed: bool)
    requires 0 < period && out.Valid() && offset < |page| && forall k | 0 <= k < |page| :: Identified(page[k])
    requires Listed(before, views, p.bound, limit, page) && HandedOn(p, before, views, page, offset)
    modifies store, out`next, out`read, out`taken, p`cursor
    ensures out.Valid() && old(out.next) <= out.next <= old(out.next) + 2 && old(out.read) <= out.read
    ensures failed ==> out.Cut() || !Unhindered(old(store.db), steps)
    ensures Sane(old(store.db)) ==> Sane(store.db)
    ensures offset + processed <= |page| && (!failed ==> 0 < processed) && out.taken == old(out.taken) + page[offset..offset + processed]
    ensures HandedOn(p, before, views, page, offset + processed)
  {
    processed, failed := SettleSome(store, out, page, offset, period, steps);
    HandOnMany(before, views, p.bound, limit, page, offset, processed);
    if processed > 0 { p.cursor := Some(page[offset + processed - 1]); }
  }

  lemma Batched<T>(page: seq<T>, offset: nat, count: nat, n: nat)
    requires n <= count && offset + count <= |page|
    ensures page[offset..offset + count][..n] == page[offset..offset + n]
  {
  }

  /** Settle a page in batches until one fails. */
  method SettlePage(store: Store, out: Outside, p: Position, limit: nat, page: seq<Row>, period: int, steps: nat -> Step) returns (ok: bool)
    requires 0 < period && out.Valid() && Standing(p, out) && p.begun && Listed(out.taken[p.from..], out.seen[p.since..], p.bound, limit, page)
    requires forall k | 0 <= k < |page| :: Identified(page[k])
    modifies store, out`next, out`read, out`taken, p`cursor
    ensures out.Valid() && Standing(p, out) && old(out.read) <= out.read
    ensures old(out.next) <= out.next <= old(out.next) + 2 * (|out.taken| - |old(out.taken)|) + if ok then 0 else 2
    ensures ok || out.Cut() || !Unhindered(old(store.db), steps)
    ensures Sane(old(store.db)) ==> Sane(store.db)
    ensures old(out.taken) <= out.taken && (ok ==> out.taken == old(out.taken) + page && out.taken[p.from..] == old(out.taken[p.from..]) + page)
  {
    ghost var before, views := out.taken[p.from..], out.seen[p.since..];
    assert before + page[..0] == before;
    var offset, failed := 0, false;
    while offset < |page| && !failed
      invariant 0 <= offset <= |page| && out.Valid() && old(out.read) <= out.read
      invariant old(out.next) <= out.next <= old(out.next) + 2 * offset + if failed then 2 else 0
      invariant (failed ==> out.Cut() || !Unhindered(old(store.db), steps)) && (Sane(old(store.db)) ==> Sane(store.db))
      invariant out.taken == old(out.taken) + page[..offset] && HandedOn(p, before, views, page, offset)
      decreases !failed, |page| - offset
    {
      var processed;
      processed, failed := SettlePart(store, out, p, limit, page, offset, period, steps, before, views);
      Joined(old(out.taken), page, offset, processed);
      offset := offset + processed;
    }
    Suffix(old(out.taken), p.from, page[..offset]);
    assert offset == |page| ==> page[..offset] == page;
    ok := !failed;
  }

  lemma Joined<T>(s: seq<T>, page: seq<T>, offset: nat, n: nat)
    requires offset + n <= |page|
    ensures s + page[..offset] + page[offset..offset + n] == s + page[..offset + n]
  {
  }

  /** Settle a listed page; a short one is the tail. */
  method SettleListed(store: Store, out: Outside, p: Position, pageSize: nat, page: seq<Row>, period: int, steps: nat -> Step) returns (go: bool, complete: bool)
    requires 0 < period && out.Valid() && Standing(p, out) && p.begun && Listed(out.taken[p.from..], out.seen[p.since..], p.bound, pageSize, page)
    requires forall k | 0 <= k < |page| :: Identified(page[k])
    modifies store, out`next, out`read, out`taken, p
    ensures out.Valid() && old(out.read) <= out.read && p.bound == old(p.bound)
    ensures old(out.next) <= out.next <= old(out.next) + 2 * (|out.taken| - |old(out.taken)|) + 2
    ensures go ==> out.next <= old(out.next) + 2 * (|out.taken| - |old(out.taken)|) && |out.taken| == |old(out.taken)| + |page| && pageSize <= |page|
    ensures Passed(p, out, complete, p.bound) && (if complete then !go else p.begun)
    ensures go || complete || out.Cut() || !Unhindered(old(store.db), steps)
    ensures Sane(old(store.db)) ==> Sane(store.db)
  {
    ghost var before := out.taken[p.from..];
    complete := false;
    go := SettlePage(store, out, p, pageSize, page, period, steps);
    if go && |page| < pageSize {
      Finish(out, p, pageSize, page, before);
      return false, true;
    }
  }

  /** One page of unbound attempts. */
  method UnboundPage(store: Store, out: Outside, p: Position, pageSize: nat, period: int, steps: nat -> Step) returns (go: bool, complete: bool)
    requires 0 < period && out.Valid() && Standing(p, out) && p.begun && Timed(p, out, period, false) && 0 < pageSize
    modifies store, out, p
    ensures out.Valid() && Spent(out, if go then 0 else 4) && (go || old(out.next) < |out.script| ==> old(out.next) < out.next)
    ensures Passed(p, out, complete, p.bound) && Timed(p, out, period, false) && (if complete then !go else p.begun)
    ensures go || complete || out.Cut() || !Usual(out.script, true) || !Unhindered(old(store.db), steps)
    ensures Sane(old(store.db)) ==> Sane(store.db)
  {
    var r := NextPage(out, p, pageSize);
    if r.None? { return false, false; }
    if exists k | 0 <= k < |r.value| :: !Identified(r.value[k]) { return false, false; }
    go, complete := SettleListed(store, out, p, pageSize, r.value, period, steps);
  }

  /** A pass over unbound attempts. */
  method ScanUnbound(store: Store, out: Outside, p: Position, pageSize: nat, period: int, steps: nat -> nat -> Step) returns (complete: bool)
    requires 0 < period && out.Valid() && Standing(p, out) && (p.begun ==> Timed(p, out, period, false)) && 0 < pageSize
    modifies store, out, p
    ensures out.Valid() && Spent(out, 5) && (old(out.next) < |out.script| ==> old(out.next) < out.next)
    ensures Passed(p, out, complete, p.bound) && (p.begun || complete ==> Timed(p, out, period, false))
    ensures complete || out.Cut() || !Usual(out.script, true) || !Sane(old(store.db)) || exists k :: !AllSmooth(steps(k))
    ensures Sane(old(store.db)) ==> Sane(store.db)
  {
    complete := false;
    if !p.begun {
      var ok := FixTime(out, p, period, false);
      if !ok { return; }
    }
    var go, pages := true, 0;
    while go
      invariant out.Valid() && Spent(out, if go then 1 else 5) && Passed(p, out, complete, p.bound)
      invariant Timed(p, out, period, false) && (!complete ==> p.begun) && (go ==> !complete)
      invariant go || complete || out.Cut() || !Usual(out.script, true) || !Sane(old(store.db)) || exists k :: !AllSmooth(steps(k))
      invariant Sane(old(store.db)) ==> Sane(store.db)
      invariant old(out.next) < |out.script| && !go ==> old(out.next) < out.next
      decreases go, |out.script| - out.next
    {
      go, complete := UnboundPage(store, out, p, pageSize, period, steps(pages));
      pages := pages + 1;
    }
  }

  // ----- dispatch candidates -----

  /** Offer a page as a whole. */
  method AdmitPage(out: Outside, p: Position, limit: nat, page: seq<Row>) returns (ok: bool)
    requires out.Valid() && Standing(p, out) && p.begun && Listed(out.taken[p.from..], out.seen[p.since..], p.bound, limit, page)
    modifies out`next, out`taken, p`cursor
    ensures out.Valid() && Standing(p, out) && old(out.next) <= out.next <= old(out.next) + 1 && (ok || out.Cut())
    ensures old(out.taken) <= out.taken && (ok ==> out.taken == old(out.taken) + page && out.taken[p.from..] == old(out.taken[p.from..]) + page)
  {
    ghost var before, views := out.taken[p.from..], out.seen[p.since..];
    assert before + page[..0] == before && page[..|page|] == page;
    HandOnMany(before, views, p.bound, limit, page, 0, |page|);
    Suffix(out.taken, p.from, page);
    ok := out.Offer(page);
    if ok && page != [] { p.cursor := Some(page[|page| - 1]); }
    assert page == [] ==> before + page == before;
  }

  /** Charge for a page, read it and offer it. A failed query leaves the cursor, an admitted page moves
      it past all its rows. */
  method DispatchPage(out: Outside, p: Position, limit: nat) returns (ok: bool, page: seq<Row>, ghost before: seq<Row>)
    requires out.Valid() && Standing(p, out) && p.begun
    modifies out`next, out`seen, out`taken, p`cursor
    ensures out.Valid() && Standing(p, out) && old(out.next) <= out.next <= old(out.next) + 3
    ensures old(out.next) < |out.script| ==> old(out.next) < out.next
    ensures |old(out.seen)| <= |out.seen| && old(out.taken) <= out.taken && (ok ==> |out.taken| == |old(out.taken)| + |page|)
    ensures ok || out.Cut() || !Usual(out.script, false)
    ensures ok ==> Listed(before, out.seen[p.since..], p.bound, limit, page) && out.taken[p.from..] == before + page
  {
    ok, page, before := false, [], [];
    var charged := out.Try();
    if !charged { return; }
    var r := NextPage(out, p, limit);
    if r.None? || !Positive(r.value) { return; }
    page, before := r.value, out.taken[p.from..];
    ok := AdmitPage(out, p, limit, page);
  }

  /** A page of waiting Instances; the tail or the upper ID ends the traversal. */
  method NextWaiting(out: Outside, p: Position, limit: nat) returns (complete: bool)
    requires out.Valid() && Standing(p, out) && p.begun && p.bound.UpTo? && 0 < limit
    modifies out, p
    ensures out.Valid() && old(out.next) <= out.next <= old(out.next) + 3 && (old(out.next) < |out.script| ==> old(out.next) < out.next)
    ensures complete || out.Cut() || !Usual(out.script, false) || |old(out.taken)| < |out.taken|
    ensures Passed(p, out, complete, All) && p.bound == old(p.bound)
  {
    var ok, page, before := DispatchPage(out, p, limit);
    if !ok { return false; }
    if |page| < limit {
      ghost var views := out.seen[p.since..];
      Finish(out, p, limit, page, before);
      Unbounded(before + page, views, p.bound);
      return true;
    }
    if !AtTop(p.bound, p.cursor) { return false; }
    FinishAtTop(out, p);
    return true;
  }

  method WaitingPage(out: Outside, p: Position, limit: nat) returns (complete: bool)
    requires out.Valid() && Standing(p, out) && (p.begun ==> p.bound.UpTo?) && 0 < limit
    modifies out, p
    ensures out.Valid() && Spent(out, 5) && (old(out.next) < |out.script| ==> old(out.next) < out.next)
    ensures complete || out.Cut() || !Usual(out.script, false) || Spent(out, 0)
    ensures Passed(p, out, complete, All) && (p.begun ==> p.bound.UpTo?)
  {
    if !p.begun {
      var fixed, none := FixTop(out, p);
      if !fixed { return none; }
    }
    complete := NextWaiting(out, p, limit);
  }

  /** A page of due retries; a short page is the tail. */
  method NextRetry(out: Outside, p: Position, limit: nat) returns (complete: bool)
    requires out.Valid() && Standing(p, out) && p.begun && 0 < limit
    modifies out`next, out`seen, out`taken, p
    ensures out.Valid() && old(out.next) <= out.next <= old(out.next) + 3 && (old(out.next) < |out.script| ==> old(out.next) < out.next)
    ensures complete || out.Cut() || !Usual(out.script, false) || |old(out.taken)| < |out.taken|
    ensures Passed(p, out, complete, p.bound) && p.bound == old(p.bound)
  {
    var ok, page, before := DispatchPage(out, p, limit);
    complete := ok && |page| < limit;
    if complete { Finish(out, p, limit, page, before); }
  }

  method RetryPage(out: Outside, p: Position, limit: nat) returns (complete: bool)
    requires out.Valid() && Standing(p, out) && (p.begun ==> Timed(p, out, 0, false)) && 0 < limit
    modifies out, p
    ensures out.Valid() && Spent(out, 5) && (old(out.next) < |out.script| ==> old(out.next) < out.next)
    ensures complete || out.Cut() || !Usual(out.script, false) || Spent(out, 0)
    ensures Passed(p, out, complete, p.bound) && (p.begun || complete ==> Timed(p, out, 0, false))
  {
    if !p.begun {
      var fixed := FixTime(out, p, 0, false);
      if !fixed { return false; }
    }
    complete := NextRetry(out, p, limit);
  }

  // ----- whole traversals -----

  /** The scans with their settings. A dispatch pass is one page, of a size given each time. */
  datatype Kind = StoppingScan(pageSize: nat) | RunningScan(pageSize: nat, minAge: int) | UnboundScan(pageSize: nat, period: int)
                | WaitingScan | RetryScan
  {
    predicate Usable() {
      match this
      case StoppingScan(pageSize) => 0 < pageSize
      case RunningScan(pageSize, _) => 0 < pageSize
      case UnboundScan(pageSize, period) => 0 < pageSize && 0 < period
      case _ => true
    }

    predicate ByID() { StoppingScan? || WaitingScan? }

    function Age(): int { match this case RunningScan(_, minAge) => minAge case UnboundScan(_, period) => period case _ => 0 }

    /** The rows a traversal owes: all of them by ID, or those up to its time. */
    function Owes(bound: Bound): Bound { if ByID() then All else bound }
  }

  ghost predicate Fits(kind: Kind, p: Position, out: Outside)
    reads p, out
  {
    if kind.ByID() then p.bound.UpTo? else Timed(p, out, kind.Age(), kind.RunningScan?)
  }

  /** Nothing but failing answers and the end of the answers can keep a pass from going on. */
  ghost predicate Easy(kind: Kind, script: seq<Answer>, db: Db, steps: nat -> nat -> Step) {
    Usual(script, kind.UnboundScan?) && (kind.UnboundScan? ==> Sane(db) && forall k :: AllSmooth(steps(k)))
  }

  /** One pass of any scan: it ends with the traversal, with a failed or exhausted answer, at an unusable
      row, with a failed batch or, for dispatch, after a page that made progress. */
  method Pass(kind: Kind, store: Store, out: Outside, p: Position, limit: nat, steps: nat -> nat -> Step) returns (complete: bool)
    requires kind.Usable() && 0 < limit && out.Valid() && Standing(p, out) && (p.begun ==> Fits(kind, p, out))
    modifies store, out, p
    ensures out.Valid() && Spent(out, 5) && (old(out.next) < |out.script| ==> old(out.next) < out.next)
    ensures complete || out.Cut() || !Easy(kind, out.script, old(store.db), steps) || Spent(out, 0)
    ensures Sane(old(store.db)) ==> Sane(store.db)
    ensures Passed(p, out, complete, kind.Owes(p.bound)) && (p.begun || (complete && !kind.ByID()) ==> Fits(kind, p, out))
  {
    match kind
    case StoppingScan(pageSize) => complete := ScanStopping(out, p, pageSize);
    case RunningScan(pageSize, minAge) => complete := ScanRunning(out, p, pageSize, minAge);
    case UnboundScan(pageSize, period) => complete := ScanUnbound(store, out, p, pageSize, period, steps);
    case WaitingScan => complete := WaitingPage(out, p, limit);
    case RetryScan => complete := RetryPage(out, p, limit);
  }

  /** A traversal since its first pass: resumable, or complete. */
  ghost predicate Whole(kind: Kind, p: Position, out: Outside, complete: bool)
    reads p, out
  {
    && (if complete then Traversed(out.taken, out.seen, kind.Owes(p.bound)) else Standing(p, out) && p.from == p.since == 0)
    && (p.begun || (complete && !kind.ByID()) ==> Fits(kind, p, out))
  }

  /** Every answer succeeds and lists usable rows, and no batch fails by itself. */
  ghost predicate AllWell(kind: Kind, script: seq<Answer>, db: Db, steps: nat -> nat -> nat -> Step) {
    (forall k | 0 <= k < |script| :: script[k].ok) && forall k :: Easy(kind, script, db, steps(k))
  }

  /** The source does not change, and there are four answers for each of its rows and more than five. */
  ghost predicate Ample(script: seq<Answer>) {
    script != [] && 4 * |script[0].view| + 5 < |script| && forall k | 0 <= k < |script| :: script[k].view == script[0].view
  }

  /** Passes until one completes the traversal or the answers are used up. */
  method Passes(kind: Kind, store: Store, out: Outside, p: Position, limits: nat -> nat, steps: nat -> nat -> nat -> Step) returns (complete: bool)
    requires kind.Usable() && out.Valid() && Whole(kind, p, out, false) && out.next == 0 && forall k :: 0 < limits(k)
    modifies store, out, p
    ensures out.Valid() && Whole(kind, p, out, complete)
    ensures AllWell(kind, out.script, old(store.db), steps) ==> complete || |out.script| <= 4 * |out.taken| + 5
  {
    complete := false;
    var k := 0;
    while !complete && out.next < |out.script|
      invariant out.Valid() && Whole(kind, p, out, complete)
      invariant AllWell(kind, out.script, old(store.db), steps) ==>
                  && (Sane(old(store.db)) ==> Sane(store.db))
                  && (complete || out.next <= 4 * |out.taken| || (out.next == |out.script| && out.next <= 4 * |out.taken| + 5))
      decreases |out.script| - out.next
    {
      assert AllWell(kind, out.script, old(store.db), steps) ==> Easy(kind, out.script, store.db, steps(k));
      complete := Pass(kind, store, out, p, limits(k), steps(k));
      assert out.taken[0..] == out.taken && out.seen[0..] == out.seen;
      k := k + 1;
    }
  }

  /** One traversal by any scan: no row is handed on twice or out of order, and a complete traversal
      has handed on every row that the source had all the time, however its passes were cut and
      whatever came and went meanwhile. By time, the rows owed are those up to one reading of the
      clock, less the age. Over a source that does not change, with answers that succeed, four answers
      a row and five more complete it. */
  method Traverse(kind: Kind, store: Store, script: seq<Answer>, limits: nat -> nat, steps: nat -> nat -> nat -> Step)
    returns (complete: bool, handed: seq<Row>, bound: Bound)
    requires kind.Usable() && Orderly(script) && forall k :: 0 < limits(k)
    modifies store
    ensures Hands(script, handed, kind.Owes(bound), complete)
    ensures (complete || handed != []) && !kind.ByID() ==>
              (if kind.RunningScan? then bound.Before? else bound.AtMost?) && bound.at + kind.Age() in TimesOf(script)
    ensures AllWell(kind, script, old(store.db), steps) && Ample(script) ==> complete
  {
    var out := new Outside(script);
    var p := new Position();
    complete := Passes(kind, store, out, p, limits, steps);
    handed, bound := out.taken, p.bound;
    assert out.taken[0..] == out.taken && out.seen[0..] == out.seen;
    HandsMeans(script, handed, out.seen, kind.Owes(bound), complete);
    if Ample(script) {
      HandedFit(script, handed, kind.Owes(bound), complete, script[0].view);
    }
  }
}
