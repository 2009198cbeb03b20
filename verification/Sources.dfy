/** The sources of the cursor scans while rows come and go, and what a traversal owes: no row twice,
    and every row that was there all the time. */
module Sources {
  import opened Base
  import opened Collections
  import opened Rows

  // ----- order and pages -----

  predicate Less(a: Row, b: Row) { a.at < b.at || (a.at == b.at && a.id < b.id) }

  ghost predicate Sorted(rows: seq<Row>) { forall a, b | 0 <= a < b < |rows| :: Less(rows[a], rows[b]) }

  /** No two rows share a position in the order. */
  ghost predicate Keyed(view: set<Row>) { forall a, b | a in view && b in view && a.at == b.at && a.id == b.id :: a == b }

  /** What a traversal fixes at its start: the largest row, or a time. */
  datatype Bound = All | UpTo(top: Row) | Before(at: Time) | AtMost(at: Time)

  predicate Within(b: Bound, r: Row) {
    match b
    case All => true
    case UpTo(top) => !Less(top, r)
    case Before(at) => r.at < at
    case AtMost(at) => r.at <= at
  }

  predicate After(cursor: Option<Row>, r: Row) { cursor.Some? ==> Less(cursor.value, r) }

  /** The first rows of the source after the cursor and within the bound, at most `limit`. */
  ghost predicate IsPage(view: set<Row>, cursor: Option<Row>, bound: Bound, limit: nat, page: seq<Row>) {
    && |page| <= limit && Sorted(page)
    && (forall r | r in page :: r in view && After(cursor, r) && Within(bound, r))
    && (forall r | r in view && After(cursor, r) && Within(bound, r) && r !in page :: |page| == limit && forall k | k in page :: Less(k, r))
  }

  /** ORDER BY ... LIMIT 1. */
  method First(view: set<Row>) returns (least: Row)
    requires view != {} && Keyed(view)
    ensures least in view && forall r | r in view :: r == least || Less(least, r)
  {
    var left;
    least, left := Pick(view);
    while left != {}
      invariant left <= view && least in view && forall r | r in view && r !in left :: r == least || Less(least, r)
      decreases left
    {
      var r, rest := Pick(left);
      if Less(r, least) { least := r; }
      left := rest;
    }
  }

  method List(view: set<Row>, cursor: Option<Row>, bound: Bound, limit: nat) returns (page: seq<Row>)
    requires Keyed(view)
    ensures IsPage(view, cursor, bound, limit, page)
  {
    page := [];
    var left := set r | r in view && After(cursor, r) && Within(bound, r);
    while |page| < limit && left != {}
      invariant |page| <= limit && Sorted(page) && forall r | r in left :: r in view && After(cursor, r) && Within(bound, r)
      invariant forall r | r in page :: r in view && After(cursor, r) && Within(bound, r)
      invariant forall r | r in view && After(cursor, r) && Within(bound, r) && r !in page :: r in left
      invariant forall r, k | r in left && k in page :: Less(k, r)
      decreases limit - |page|
    {
      var least := First(left);
      page, left := page + [least], left - {least};
    }
  }

  method Last(view: set<Row>) returns (top: Row)
    requires view != {} && Keyed(view)
    ensures top in view && forall r | r in view :: !Less(top, r)
  {
    var left;
    top, left := Pick(view);
    while left != {}
      invariant left <= view && top in view && forall r | r in view && r !in left :: !Less(top, r)
      decreases left
    {
      var r, rest := Pick(left);
      if Less(top, r) { top := r; }
      left := rest;
    }
  }

  // ----- the progress of a traversal -----

  ghost predicate Steady(views: seq<set<Row>>, r: Row) { forall k | 0 <= k < |views| :: r in views[k] }

  ghost predicate Seen(views: seq<set<Row>>, r: Row) { exists k | 0 <= k < |views| :: r in views[k] }

  function LastOf(handed: seq<Row>): Option<Row> { if handed == [] then None else Some(handed[|handed| - 1]) }

  /** Everything handed on was listed, in order and once; up to the cursor, nothing that was in the
      source at every query is missing. */
  ghost predicate Progress(handed: seq<Row>, views: seq<set<Row>>, bound: Bound) {
    && Sorted(handed)
    && (forall r | r in handed :: Within(bound, r) && Seen(views, r))
    && (forall r | Within(bound, r) && Steady(views, r) && !After(LastOf(handed), r) :: r in handed)
  }

  /** The same without a cursor. */
  ghost predicate Traversed(handed: seq<Row>, views: seq<set<Row>>, bound: Bound) {
    && Sorted(handed)
    && (forall r | r in handed :: Within(bound, r) && Seen(views, r))
    && (forall r | Within(bound, r) && Steady(views, r) :: r in handed)
  }

  lemma SeenMore(views: seq<set<Row>>, view: set<Row>, r: Row)
    ensures Seen(views, r) ==> Seen(views + [view], r)
    ensures Steady(views + [view], r) ==> Steady(views, r) && r in view
    ensures r in view ==> Seen(views + [view], r)
  {
    var more := views + [view];
    assert more[|views|] == view;
    if Seen(views, r) {
      var k :| 0 <= k < |views| && r in views[k];
      assert r in more[k];
    }
    if Steady(more, r) {
      forall k | 0 <= k < |views| ensures r in views[k] { assert r in more[k]; }
    }
  }

  /** A query by itself takes nothing away. */
  lemma QueryKeeps(handed: seq<Row>, views: seq<set<Row>>, bound: Bound, view: set<Row>)
    requires Progress(handed, views, bound)
    ensures Progress(handed, views + [view], bound)
  {
    forall r ensures (Seen(views, r) ==> Seen(views + [view], r)) && (Steady(views + [view], r) ==> Steady(views, r)) {
      SeenMore(views, view, r);
    }
  }

  /** Handing on the next row of a page. `before` were handed on when the page was listed. */
  lemma HandOnOne(before: seq<Row>, views: seq<set<Row>>, bound: Bound, limit: nat, page: seq<Row>, k: nat)
    requires views != [] && IsPage(views[|views| - 1], LastOf(before), bound, limit, page) && k < |page|
    requires Progress(before + page[..k], views, bound)
    ensures Progress(before + page[..k + 1], views, bound)
  {
    var handed, row, more := before + page[..k], page[k], before + page[..k + 1];
    assert more == handed + [row];
    assert row in views[|views| - 1] && After(LastOf(before), row);
    forall a, b | 0 <= a < b < |more| ensures Less(more[a], more[b]) {
      if b == |handed| { BeforeNext(before, page, k, a); }
    }
    forall r | Within(bound, r) && Steady(views, r) && !After(LastOf(more), r) ensures r in more {
      if After(LastOf(handed), r) { NextIs(before, views[|views| - 1], bound, limit, page, k, r); }
    }
  }

  lemma BeforeNext(before: seq<Row>, page: seq<Row>, k: nat, a: nat)
    requires Sorted(page) && k < |page| && After(LastOf(before), page[k]) && Sorted(before + page[..k]) && a < |before| + k
    ensures Less((before + page[..k])[a], page[k])
  {
    var handed := before + page[..k];
    if a < |before| {
      assert handed[a] == before[a];
      if a < |before| - 1 { assert Less(handed[a], handed[|before| - 1]) && handed[|before| - 1] == before[|before| - 1]; }
    } else {
      assert handed[a] == page[a - |before|];
    }
  }

  /** A row of the source that is after the cursor and not after the next row of the page is that row. */
  lemma NextIs(before: seq<Row>, view: set<Row>, bound: Bound, limit: nat, page: seq<Row>, k: nat, r: Row)
    requires IsPage(view, LastOf(before), bound, limit, page) && k < |page|
    requires r in view && Within(bound, r) && After(LastOf(before + page[..k]), r) && !Less(page[k], r)
    requires forall j | 0 <= j < k :: After(LastOf(before), page[j])
    ensures r == page[k]
  {
    if k > 0 { assert LastOf(before + page[..k]) == Some(page[k - 1]) && Less(page[k - 1], r); }
    else { assert before + page[..k] == before; }
    assert After(LastOf(before), r);
    assert r in page;
    var j :| 0 <= j < |page| && page[j] == r;
    if k < j { assert Less(page[k], page[j]); }
  }

  /** A short page, once handed on, was the end. */
  lemma ShortPageEnds(before: seq<Row>, views: seq<set<Row>>, bound: Bound, limit: nat, page: seq<Row>)
    requires views != [] && IsPage(views[|views| - 1], LastOf(before), bound, limit, page) && |page| < limit
    requires Progress(before + page, views, bound)
    ensures Traversed(before + page, views, bound)
  {
    var handed := before + page;
    forall r | Within(bound, r) && Steady(views, r) ensures r in handed {
      assert r in views[|views| - 1];
      if page == [] { assert handed == before; } else { assert page[|page| - 1] in page; }
    }
  }

  /** So is a page that ends in the bound itself. */
  lemma TopEnds(handed: seq<Row>, views: seq<set<Row>>, bound: Bound)
    requires Progress(handed, views, bound) && bound.UpTo? && handed != []
    requires handed[|handed| - 1].at == bound.top.at && handed[|handed| - 1].id == bound.top.id
    ensures Traversed(handed, views, bound)
  {
  }

  /** A bound that is the largest row of the first view excludes nothing that was there then. */
  ghost predicate Tops(bound: Bound, views: seq<set<Row>>) {
    bound.UpTo? ==> views != [] && forall r | r in views[0] :: Within(bound, r)
  }

  lemma Unbounded(handed: seq<Row>, views: seq<set<Row>>, bound: Bound)
    requires Traversed(handed, views, bound) && bound.UpTo? && Tops(bound, views)
    ensures Traversed(handed, views, All)
  {
  }

  /** Over a source that does not change, one traversal hands on every row exactly once. */
  lemma UnchangedSource(handed: seq<Row>, views: seq<set<Row>>, bound: Bound, view: set<Row>)
    requires Traversed(handed, views, bound) && views != [] && forall k | 0 <= k < |views| :: views[k] == view
    ensures Sorted(handed) && |handed| == |set r | r in view && Within(bound, r)|
    ensures forall r :: r in handed <==> r in view && Within(bound, r)
  {
    forall r | r in view && Within(bound, r) ensures r in handed { assert Steady(views, r); }
    assert (set r | r in handed) == set r | r in view && Within(bound, r);
    DistinctCount(handed);
  }

  lemma {:induction false} HandOnMany(before: seq<Row>, views: seq<set<Row>>, bound: Bound, limit: nat, page: seq<Row>, k: nat, n: nat)
    requires views != [] && IsPage(views[|views| - 1], LastOf(before), bound, limit, page) && k + n <= |page|
    requires Progress(before + page[..k], views, bound)
    ensures Progress(before + page[..k + n], views, bound)
    decreases n
  {
    if n > 0 {
      HandOnOne(before, views, bound, limit, page, k);
      HandOnMany(before, views, bound, limit, page, k + 1, n - 1);
    }
  }

  // ----- queries and hand-offs -----

  /** What the outside says to one call: whether it succeeds, the source and the database time at
      that moment. */
  datatype Answer = Answer(ok: bool, view: set<Row>, time: Time)

  ghost predicate Orderly(script: seq<Answer>) { forall k | 0 <= k < |script| :: Keyed(script[k].view) }

  /** What a traversal owes, said of the answers it was given: only rows the source had at some time,
      in order and none twice, and once it is complete every row the source had all the time. */
  ghost predicate Hands(script: seq<Answer>, handed: seq<Row>, bound: Bound, complete: bool) {
    && Sorted(handed)
    && (forall r | r in handed :: Within(bound, r) && exists k | 0 <= k < |script| :: r in script[k].view)
    && (complete ==> forall r | Within(bound, r) && (forall k | 0 <= k < |script| :: r in script[k].view) :: r in handed)
  }

  function ViewsOf(script: seq<Answer>): set<set<Row>> { set k | 0 <= k < |script| :: script[k].view }

  function TimesOf(script: seq<Answer>): set<Time> { set k | 0 <= k < |script| :: script[k].time }

  lemma HandsMeans(script: seq<Answer>, handed: seq<Row>, views: seq<set<Row>>, bound: Bound, complete: bool)
    requires forall k | 0 <= k < |views| :: views[k] in ViewsOf(script)
    requires if complete then Traversed(handed, views, bound) else Sorted(handed) && forall r | r in handed :: Within(bound, r) && Seen(views, r)
    ensures Hands(script, handed, bound, complete)
  {
    forall r | r in handed ensures exists k | 0 <= k < |script| :: r in script[k].view {
      var k :| 0 <= k < |views| && r in views[k];
      var j :| 0 <= j < |script| && script[j].view == views[k];
      assert r in script[j].view;
    }
    if complete {
      forall r | Within(bound, r) && (forall k | 0 <= k < |script| :: r in script[k].view) ensures r in handed {
        forall k | 0 <= k < |views| ensures r in views[k] {
          var j :| 0 <= j < |script| && script[j].view == views[k];
        }
        assert Steady(views, r);
      }
    }
  }

  /** Rows handed on from a source that does not change are no more than it has. */
  lemma HandedFit(script: seq<Answer>, handed: seq<Row>, bound: Bound, complete: bool, view: set<Row>)
    requires Hands(script, handed, bound, complete) && forall k | 0 <= k < |script| :: script[k].view == view
    ensures |handed| <= |view|
  {
    DistinctCount(handed);
    SubsetCount((set r | r in handed), view);
  }

  /** Every listed row is usable: it has an ID and, where attempts are listed, a parent and a number. */
  ghost predicate Usual(script: seq<Answer>, attempts: bool) {
    forall v, r | v in ViewsOf(script) && r in v :: 0 < r.id && (attempts ==> Identified(r))
  }

  predicate Identified(c: Row) { 0 < c.id && 0 < c.instance && 0 < c.attemptNo }

  /** The outside of a scan: its answers, of which `next` have been given, and the rows that have been
      handed on. Queries and times are recorded. When the answers are used up every call fails. */
  class Outside {
    const script: seq<Answer>
    var next: nat
    var taken: seq<Row>
    ghost var seen: seq<set<Row>>
    ghost var read: set<Time>

    ghost predicate Valid()
      reads this
    {
      Orderly(script) && next <= |script| && (forall k | 0 <= k < |seen| :: seen[k] in ViewsOf(script)) && read <= TimesOf(script)
    }

    /** The last call failed, or no answer is left for another one. */
    ghost predicate Cut()
      requires Valid()
      reads this
    {
      next == |script| || (0 < next && !script[next - 1].ok)
    }

    constructor (script: seq<Answer>)
      requires Orderly(script)
      ensures Valid() && this.script == script && next == 0 && taken == [] && seen == [] && read == {}
    {
      this.script, next, taken, seen, read := script, 0, [], [], {};
    }

    method Call() returns (a: Answer)
      requires Valid()
      modifies `next
      ensures Valid() && Keyed(a.view) && next == (if old(next) < |script| then old(next) + 1 else old(next))
      ensures if a.ok then old(next) < |script| && a == script[old(next)] else Cut()
    {
      if next == |script| { return Answer(false, {}, 0); }
      a, next := script[next], next + 1;
    }

    /** Whether a call that has no other result succeeds. */
    method Try() returns (ok: bool)
      requires Valid()
      modifies `next
      ensures Valid() && next == (if old(next) < |script| then old(next) + 1 else old(next))
      ensures if ok then old(next) < next else Cut()
    {
      var a := Call();
      return a.ok;
    }

    method Clock() returns (now: Option<Time>)
      requires Valid()
      modifies `next, `read
      ensures Valid() && next == (if old(next) < |script| then old(next) + 1 else old(next))
      ensures old(read) <= read && if now.Some? then old(next) < next && now.value in read else Cut()
    {
      var a := Call();
      if !a.ok { return None; }
      read := read + {a.time};
      return Some(a.time);
    }

    method Query(cursor: Option<Row>, bound: Bound, limit: nat) returns (page: Option<seq<Row>>)
      requires Valid()
      modifies `next, `seen
      ensures Valid() && next == (if old(next) < |script| then old(next) + 1 else old(next))
      ensures if page.None? then seen == old(seen) && Cut()
              else && old(next) < next && |seen| == |old(seen)| + 1 && seen == old(seen) + [seen[|old(seen)|]]
                   && IsPage(seen[|old(seen)|], cursor, bound, limit, page.value)
    {
      var a := Call();
      if !a.ok { return None; }
      seen := seen + [a.view];
      var rows := List(a.view, cursor, bound, limit);
      return Some(rows);
    }

    /** The largest row, if there is any. */
    method Top() returns (top: Option<Option<Row>>)
      requires Valid()
      modifies `next, `seen
      ensures Valid() && next == (if old(next) < |script| then old(next) + 1 else old(next))
      ensures if top.None? then seen == old(seen) && Cut()
              else && old(next) < next && |seen| == |old(seen)| + 1 && seen == old(seen) + [seen[|old(seen)|]]
                   && if top.value.None? then seen[|old(seen)|] == {} else forall r | r in seen[|old(seen)|] :: !Less(top.value.value, r)
    {
      var a := Call();
      if !a.ok { return None; }
      seen := seen + [a.view];
      if a.view == {} { return Some(None); }
      var r := Last(a.view);
      return Some(Some(r));
    }

    /** Offer rows together: they are taken in order, or none is. */
    method Offer(rows: seq<Row>) returns (ok: bool)
      requires Valid()
      modifies `next, `taken
      ensures Valid() && next == (if old(next) < |script| then old(next) + 1 else old(next))
      ensures taken == (if ok then old(taken) + rows else old(taken)) && if ok then old(next) < next else Cut()
    {
      var a := Call();
      if a.ok { taken := taken + rows; }
      return a.ok;
    }

    /** Record a row whose processing has been attempted. */
    method Take(row: Row)
      modifies `taken
      ensures taken == old(taken) + [row]
    {
      taken := taken + [row];
    }
  }
}
