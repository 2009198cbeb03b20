/** The mutex-protected sections of the dispatch runtime as functions on its fields, and what
    they keep in every run. `held`, `owner`, `served` and `phase` record what workers and the
    scanner are doing; `now` is the clock read inside a section and `delay` a drawn scan delay. */
module DispatchSections {
  import opened Base
  import opened Collections
  import opened DispatchSupply

  datatype Supply = Supply(
    concurrency: nat, capacity: nat, started: bool, stopping: bool,
    waiting: int, reserved: int, pending: seq<Candidate>, owned: map<Key, nat>,
    registering: map<Id, Candidate>, lastParent: Id, parentShare: nat, changes: nat, sequence: nat,
    generations: seq<nat>, pagesLeft: int, resumeAt: nat, conflicted: map<Id, nat>, until: nat, full: bool,
    held: set<Candidate>, owner: map<Key, Candidate>, served: seq<Id>, phase: Phase)

  function Initial(concurrency: nat, capacity: nat): Supply {
    Supply(concurrency, capacity, false, false, 0, 0, [], map[], map[], 0, 0, 0, 0, [0, 0], PAGE_BUDGET, 0, map[], 0, false,
           {}, map[], [], Idle)
  }

  // ----- what every section keeps -----

  ghost predicate Accounting(waiting: int, reserved: int, pending: seq<Candidate>, capacity: nat, phase: Phase) {
    waiting == |pending| + reserved <= capacity && 0 <= reserved && (reserved != 0 ==> !phase.Idle?)
  }

  ghost predicate Ownership(pending: seq<Candidate>, held: set<Candidate>, owner: map<Key, Candidate>, owned: map<Key, nat>, concurrency: nat) {
    Owns(multiset(pending), held, owner) && owned == Sequences(owner) && |held| <= concurrency
  }

  /** Conflicts are recorded exactly and, with the registrations, within their bound. */
  ghost predicate Gates(registering: map<Id, Candidate>, held: set<Candidate>, pending: seq<Candidate>,
                        conflicted: map<Id, nat>, until: nat, full: bool, capacity: nat, concurrency: nat)
  {
    && IsEarliest(until, conflicted) && (full <==> |conflicted| >= capacity)
    && GatesOk(registering, held, conflicted, pending)
    && |conflicted| + |registering| <= capacity + concurrency - 1
  }

  /** The share counts how often the last parent was served in a row, up to eight. */
  ghost predicate Sharing(served: seq<Id>, lastParent: Id, parentShare: nat) {
    parentShare == Min(PARENT_SHARE, Streak(served, lastParent)) && (served != [] ==> lastParent == served[|served| - 1])
  }

  /** A used-up budget has a resume time, except while the charged query runs. */
  ghost predicate Budget(pagesLeft: int, resumeAt: nat, generations: seq<nat>, phase: Phase) {
    && 0 <= pagesLeft <= PAGE_BUDGET && |generations| == 2
    && (phase.Granted? ==> 0 < pagesLeft) && (pagesLeft == 0 && resumeAt == 0 ==> phase.Charged?)
  }

  ghost predicate Sound(x: Supply) {
    && 0 < x.capacity && 0 < x.concurrency
    && Accounting(x.waiting, x.reserved, x.pending, x.capacity, x.phase)
    && Ownership(x.pending, x.held, x.owner, x.owned, x.concurrency)
    && Gates(x.registering, x.held, x.pending, x.conflicted, x.until, x.full, x.capacity, x.concurrency)
    && Sharing(x.served, x.lastParent, x.parentShare)
    && Budget(x.pagesLeft, x.resumeAt, x.generations, x.phase)
  }

  /** A section that neither takes nor releases work leaves its workers alone. */
  predicate SameWorkers(x: Supply, y: Supply) {
    && x.capacity == y.capacity && x.concurrency == y.concurrency && x.registering == y.registering && x.held == y.held
    && x.served == y.served
  }

  // ----- conflicts -----

  ghost function Expire(x: Supply, now: nat): (r: Supply)
    ensures SameWorkers(x, r)
    ensures r.waiting == x.waiting && r.phase == x.phase && r.pending == x.pending
  {
    if x.until != 0 && x.until <= now then
      var kept := Unexpired(x.conflicted, now);
      x.(conflicted := kept, until := EarliestOf(kept), full := |kept| >= x.capacity, changes := x.changes + 1)
    else x
  }

  lemma ExpireKeeps(x: Supply, now: nat)
    requires Sound(x)
    ensures Sound(Expire(x, now))
    ensures Expire(x, now).conflicted == Unexpired(x.conflicted, now)
    ensures Expire(x, now).until != 0 ==> now < Expire(x, now).until
  {
    if x.until != 0 && x.until <= now {
      var kept := Unexpired(x.conflicted, now);
      EarliestOfIs(kept);
      GatesShrink(x.registering, x.held, x.conflicted, x.pending, kept);
    } else {
      NoneExpired(x.until, x.conflicted, now);
    }
  }

  ghost function Block(x: Supply, id: Id, now: nat, delay: nat): (r: Supply)
    ensures SameWorkers(x, r)
  {
    Suppress(Expire(x, now), id, now + delay)
  }

  function OwnerWithout(owner: map<Key, Candidate>, pending: seq<Candidate>, id: Id): map<Key, Candidate> {
    map k | k in owner && !(owner[k] in pending && owner[k].parent == id) :: owner[k]
  }

  /** Record a conflict; a parent's first deadline is kept. */
  function Recording(y: Supply, id: Id, deadline: nat): (r: Supply)
    ensures SameWorkers(y, r)
  {
    var conflicted := if id in y.conflicted then y.conflicted else y.conflicted[id := deadline];
    y.(conflicted := conflicted, until := if id in y.conflicted then y.until else Earlier(y.until, deadline),
       full := |conflicted| >= y.capacity)
  }

  /** Drop a parent's waiting candidates with their ownership. */
  function Dropped(y: Supply, id: Id): (r: Supply)
    ensures SameWorkers(y, r)
  {
    var owner, pending := OwnerWithout(y.owner, y.pending, id), Without(y.pending, id);
    y.(pending := pending, waiting := y.waiting - (|y.pending| - |pending|), owner := owner, owned := Sequences(owner))
  }

  function Suppress(y: Supply, id: Id, deadline: nat): (r: Supply)
    ensures SameWorkers(y, r)
  {
    Dropped(Recording(y, id, deadline), id)
  }

  lemma DropKeeps(pending: seq<Candidate>, held: set<Candidate>, owner: map<Key, Candidate>, id: Id)
    requires Owns(multiset(pending), held, owner)
    ensures Owns(multiset(Without(pending, id)), held, OwnerWithout(owner, pending, id))
  {
    var owner' := OwnerWithout(owner, pending, id);
    var kept := Without(pending, id);
    WithoutMembers(pending, id);
    forall k ensures OwnerOk(multiset(kept), held, owner', k) { assert OwnerOk(multiset(pending), held, owner, k); }
    forall c ensures OwnedOk(multiset(kept), held, owner', c) {
      assert OwnedOk(multiset(pending), held, owner, c);
      assert c.Key() in owner ==> OwnerOk(multiset(pending), held, owner, c.Key());
      WithoutCount(pending, id, c);
    }
  }

  lemma GatesBlock(registering: map<Id, Candidate>, held: set<Candidate>, pending: seq<Candidate>, conflicted: map<Id, nat>, id: Id, deadline: nat)
    requires GatesOk(registering, held, conflicted, pending) && id !in registering
    ensures GatesOk(registering, held, conflicted[id := deadline], Without(pending, id))
  {
    var more, kept := conflicted[id := deadline], Without(pending, id);
    WithoutMembers(pending, id);
    forall p ensures GateOk(registering, held, more, p) { assert GateOk(registering, held, conflicted, p); }
    forall k ensures WaitOk(more, kept, k) {
      if 0 <= k < |kept| {
        assert kept[k] in kept;
        var j :| 0 <= j < |pending| && pending[j] == kept[k];
        assert WaitOk(conflicted, pending, j);
      }
    }
  }

  lemma Record(until: nat, conflicted: map<Id, nat>, id: Id, deadline: nat) returns (more: map<Id, nat>, until': nat)
    requires IsEarliest(until, conflicted) && 0 < deadline
    ensures more == if id in conflicted then conflicted else conflicted[id := deadline]
    ensures until' == if id in conflicted then until else Earlier(until, deadline)
    ensures IsEarliest(until', more) && |more| <= |conflicted| + 1 && more == conflicted[id := more[id]]
  {
    more, until' := conflicted, until;
    if id !in conflicted {
      EarliestExtends(until, conflicted, id, deadline);
      more, until' := conflicted[id := deadline], Earlier(until, deadline);
      assert more.Keys == conflicted.Keys + {id};
    }
  }

  lemma SuppressKeeps(y: Supply, id: Id, deadline: nat)
    requires Sound(y) && 0 < deadline && id !in y.registering
    requires |y.conflicted| + |y.registering| < y.capacity + y.concurrency - 1
    ensures Sound(Suppress(y, id, deadline)) && id in Suppress(y, id, deadline).conflicted
  {
    WithoutCount(y.pending, id, Candidate(0, id, None, 0, 0));
    DropKeeps(y.pending, y.held, y.owner, id);
    var more, until := Record(y.until, y.conflicted, id, deadline);
    GatesBlock(y.registering, y.held, y.pending, y.conflicted, id, more[id]);
    assert Suppress(y, id, deadline).conflicted == more;
  }

  lemma BlockKeeps(x: Supply, id: Id, now: nat, delay: nat)
    requires Sound(x) && 0 < delay && id !in x.registering
    requires |x.conflicted| + |x.registering| < x.capacity + x.concurrency - 1
    ensures Sound(Block(x, id, now, delay)) && id in Block(x, id, now, delay).conflicted
  {
    ExpireKeeps(x, now);
    SubsetCount(Expire(x, now).conflicted.Keys, x.conflicted.Keys);
    SuppressKeeps(Expire(x, now), id, now + delay);
  }

  // ----- hints and stopping -----

  function Queued(x: Supply, c: Candidate): (r: Supply)
    ensures SameWorkers(x, r)
  {
    x.(sequence := c.sequence, pending := x.pending + [c], owned := x.owned[c.Key() := c.sequence],
       owner := x.owner[c.Key() := c], waiting := x.waiting + 1, changes := x.changes + 1)
  }

  lemma QueuedKeeps(x: Supply, c: Candidate)
    requires Sound(x) && c.Key() !in x.owned && c.parent !in x.conflicted && x.waiting < x.capacity
    ensures Sound(Queued(x, c))
  {
    OwnAppend(x.pending, x.held, x.owner, c);
    GatesWait(x.registering, x.held, x.conflicted, x.pending, x.pending + [c]);
  }

  ghost predicate Accepts(x: Supply, id: Id, now: nat) {
    && 0 < id && x.started && !x.stopping
    && (First(id) in x.owned || (id !in Expire(x, now).conflicted && x.waiting != x.capacity))
  }

  function Offer(y: Supply, id: Id): (r: Supply)
    ensures SameWorkers(y, r)
  {
    if First(id) in y.owned || id in y.conflicted || y.waiting == y.capacity then y
    else Queued(y, Candidate(y.sequence + 1, id, None, 0, 0))
  }

  ghost function Hint(x: Supply, id: Id, now: nat): (r: Supply)
    ensures SameWorkers(x, r)
  {
    if id <= 0 || !x.started || x.stopping then x else Offer(Expire(x, now), id)
  }

  /** An accepted hint is owned; a refused one leaves the candidates alone. */
  lemma OfferKeeps(y: Supply, id: Id)
    requires Sound(y)
    ensures Sound(Offer(y, id))
    ensures if First(id) in y.owned || (id !in y.conflicted && y.waiting < y.capacity) then First(id) in Offer(y, id).owned
            else Offer(y, id).pending == y.pending
  {
    if Offer(y, id) != y { QueuedKeeps(y, Candidate(y.sequence + 1, id, None, 0, 0)); }
  }

  lemma HintKeeps(x: Supply, id: Id, now: nat)
    requires Sound(x)
    ensures Sound(Hint(x, id, now))
  {
    if 0 < id && x.started && !x.stopping {
      ExpireKeeps(x, now);
      OfferKeeps(Expire(x, now), id);
    }
  }

  lemma HintAccepted(x: Supply, id: Id, now: nat)
    requires Sound(x)
    ensures if Accepts(x, id, now) then First(id) in Hint(x, id, now).owned else Hint(x, id, now).pending == x.pending
  {
    ExpireKeeps(x, now);
    OfferKeeps(Expire(x, now), id);
  }

  function OwnerHeld(owner: map<Key, Candidate>, pending: seq<Candidate>): map<Key, Candidate> {
    map k | k in owner && owner[k] !in pending :: owner[k]
  }

  function Stop(x: Supply): (r: Supply)
    ensures SameWorkers(x, r)
  {
    if x.stopping then x
    else
      var owner := OwnerHeld(x.owner, x.pending);
      x.(stopping := true, pending := [], waiting := x.waiting - |x.pending|, owner := owner, owned := Sequences(owner),
         changes := x.changes + 1)
  }

  lemma StopKeeps(x: Supply)
    requires Sound(x)
    ensures Sound(Stop(x))
  {
    var owner, none: multiset<Candidate> := OwnerHeld(x.owner, x.pending), multiset{};
    forall k ensures OwnerOk(none, x.held, owner, k) { assert OwnerOk(multiset(x.pending), x.held, x.owner, k); }
    forall c ensures OwnedOk(none, x.held, owner, c) {
      assert OwnedOk(multiset(x.pending), x.held, x.owner, c);
      assert OwnerOk(multiset(x.pending), x.held, x.owner, c.Key());
    }
    assert multiset(Stop(x).pending) == none || x.stopping;
    GatesWait(x.registering, x.held, x.conflicted, x.pending, []);
  }

  // ----- pages -----

  /** The scanner's view of its two traversals. */
  datatype Scans = Scans(readyAt: seq<nat>, generation: seq<nat>, next: nat) {
    predicate Valid() { |readyAt| == 2 && |generation| == 2 && next < 2 }
  }

  function Refilled(x: Supply, now: nat): (r: Supply)
    ensures SameWorkers(x, r)
    ensures r.waiting == x.waiting && r.phase == x.phase && r.pending == x.pending
  {
    if x.pagesLeft == 0 && x.resumeAt != 0 && x.resumeAt <= now then x.(pagesLeft := PAGE_BUDGET, resumeAt := 0) else x
  }

  ghost function Awake(x: Supply, now: nat): (r: Supply)
    ensures SameWorkers(x, r)
    ensures r.waiting == x.waiting && r.phase == x.phase && r.pending == x.pending
  {
    Refilled(Expire(x, now), now)
  }

  /** The traversal to serve, preferring the one whose turn it is; 2 when none is ready. */
  function ReadyKind(scans: Scans, now: nat): nat
    requires scans.Valid()
  {
    if scans.readyAt[scans.next] <= now then scans.next
    else if scans.readyAt[1 - scans.next] <= now then 1 - scans.next
    else 2
  }

  function Later(wakeAt: nat, readyAt: nat, now: nat): nat { if readyAt <= now then wakeAt else Earlier(wakeAt, readyAt) }

  function WakeAt(x: Supply, scans: Scans, now: nat): nat
    requires scans.Valid()
  {
    var ready := Later(Later(0, scans.readyAt[scans.next], now), scans.readyAt[1 - scans.next], now);
    var budget := if x.pagesLeft == 0 then Earlier(ready, x.resumeAt) else ready;
    if x.full then Earlier(budget, x.until) else budget
  }

  predicate MayPage(x: Supply, scans: Scans, now: nat)
    requires scans.Valid()
  {
    ReadyKind(scans, now) < 2 && 0 < x.pagesLeft && !x.full && x.waiting < x.capacity
  }

  function Reserve(x: Supply, scans: Scans, kind: nat): (r: Supply)
    requires scans.Valid() && kind < 2 && |x.generations| == 2 && x.waiting < x.capacity
    ensures SameWorkers(x, r)
  {
    var limit := Min(PAGE_LIMIT, x.capacity - x.waiting);
    x.(reserved := limit, waiting := x.waiting + limit, phase := Granted,
       generations := if scans.generation[kind] == 0 then x.generations[kind := x.generations[kind] + 1] else x.generations)
  }

  /** One pass of the scanner's wait loop: the next page, or how long to wait. */
  ghost function NextPage(x: Supply, scans: Scans, now: nat): (r: (Supply, PageDecision))
    requires scans.Valid() && |x.generations| == 2
    ensures SameWorkers(x, r.0)
  {
    if x.stopping then (x, Stopped)
    else
      var y, kind := Awake(x, now), ReadyKind(scans, now);
      if MayPage(y, scans, now) then
        var z := Reserve(y, scans, kind);
        (z, Page(kind, z.reserved, if scans.generation[kind] == 0 then z.generations[kind] else scans.generation[kind]))
      else (y, WaitUntil(WakeAt(y, scans, now)))
  }

  lemma RefilledKeeps(y: Supply, now: nat)
    requires Sound(y)
    ensures Sound(Refilled(y, now)) && Refilled(y, now).until == y.until
    ensures y.phase.Idle? && Refilled(y, now).pagesLeft == 0 ==> now < Refilled(y, now).resumeAt
  {
  }

  lemma AwakeKeeps(x: Supply, now: nat)
    requires Sound(x)
    ensures Sound(Awake(x, now)) && (Awake(x, now).until != 0 ==> now < Awake(x, now).until)
    ensures x.phase.Idle? && Awake(x, now).pagesLeft == 0 ==> now < Awake(x, now).resumeAt
  {
    ExpireKeeps(x, now);
    RefilledKeeps(Expire(x, now), now);
  }

  lemma NextPageKeeps(x: Supply, scans: Scans, now: nat)
    requires Sound(x) && x.phase.Idle? && scans.Valid()
    ensures Sound(NextPage(x, scans, now).0)
  {
    AwakeKeeps(x, now);
  }

  /** The scanner never waits without a timer on an exhausted budget or a full conflict set: it
      waits for a notification alone only when every traversal is ready and the waiting set is
      full; a timer lies in the future and is no later than any cause of the wait. */
  lemma WakeTime(x: Supply, scans: Scans, now: nat)
    requires Sound(x) && x.phase.Idle? && scans.Valid() && NextPage(x, scans, now).1.WaitUntil?
    ensures Wakes(Awake(x, now), scans, now, NextPage(x, scans, now).1.wakeAt)
  {
    AwakeKeeps(x, now);
    WakeAtMeans(Awake(x, now), scans, now);
  }

  ghost predicate Wakes(y: Supply, scans: Scans, now: nat, wakeAt: nat)
    requires scans.Valid()
  {
    var idle := 0 < y.pagesLeft && !y.full && scans.readyAt[0] <= now && scans.readyAt[1] <= now;
    && (wakeAt == 0 <==> idle) && (idle ==> y.waiting == y.capacity) && (wakeAt != 0 ==> now < wakeAt)
    && (y.pagesLeft == 0 ==> wakeAt <= y.resumeAt) && (y.full ==> wakeAt <= y.until)
    && (now < scans.readyAt[0] ==> wakeAt <= scans.readyAt[0]) && (now < scans.readyAt[1] ==> wakeAt <= scans.readyAt[1])
  }

  lemma WakeAtMeans(y: Supply, scans: Scans, now: nat)
    requires Sound(y) && y.phase.Idle? && scans.Valid() && !MayPage(y, scans, now)
    requires (y.until != 0 ==> now < y.until) && (y.pagesLeft == 0 ==> now < y.resumeAt)
    ensures Wakes(y, scans, now, WakeAt(y, scans, now))
  {
    if y.full { FullHasDeadline(y); }
    assert scans.next == 0 || scans.next == 1;
  }

  lemma FullHasDeadline(y: Supply)
    requires Sound(y) && y.full
    ensures y.until != 0
  {
    var p := Member(y.conflicted.Keys);
    assert DeadlineOk(y.until, y.conflicted, p);
  }

  datatype Charge = ChargeOk | ChargePaused | ChargeStopped

  ghost function ChargePage(x: Supply, now: nat): (r: (Supply, Charge))
    ensures SameWorkers(x, r.0)
  {
    if x.stopping then (x, ChargeStopped)
    else
      var y := Expire(x, now);
      if y.full then (y, ChargePaused) else (Spent(y), ChargeOk)
  }

  function Spent(y: Supply): (r: Supply)
    ensures SameWorkers(y, r)
  {
    y.(pagesLeft := y.pagesLeft - 1, resumeAt := if y.pagesLeft == 1 then 0 else y.resumeAt, phase := Charged)
  }

  lemma ChargeKeeps(x: Supply, now: nat)
    requires Sound(x) && x.phase.Granted?
    ensures Sound(ChargePage(x, now).0)
  {
    ExpireKeeps(x, now);
  }

  /** The section after every page query: a used-up budget gets its resume time. */
  function PageBack(x: Supply, now: nat, delay: nat): (r: Supply)
    ensures SameWorkers(x, r)
  {
    x.(resumeAt := if x.pagesLeft == 0 && x.resumeAt == 0 then now + delay else x.resumeAt, phase := Returned)
  }

  lemma PageBackKeeps(x: Supply, now: nat, delay: nat)
    requires Sound(x) && !x.phase.Idle? && 0 < delay
    ensures Sound(PageBack(x, now, delay))
  {
  }

  function ReleasePage(x: Supply): (r: Supply)
    ensures SameWorkers(x, r)
  {
    x.(waiting := x.waiting - x.reserved, reserved := 0, changes := x.changes + 1, phase := Idle)
  }

  lemma ReleaseKeeps(x: Supply)
    requires Sound(x) && x.phase.Returned?
    ensures Sound(ReleasePage(x))
  {
  }

  // ----- admitting a page -----

  function Claimed(y: Supply, accepted: seq<Candidate>): (r: Supply)
    ensures SameWorkers(y, r)
  {
    var owner := OwnerWith(y.owner, accepted);
    y.(owner := owner, owned := Sequences(owner), sequence := y.sequence + |accepted|)
  }

  function Lined(y: Supply, rows: seq<Candidate>, count: nat): (r: Supply)
    ensures SameWorkers(y, r)
  {
    y.(pending := y.pending + rows, waiting := y.waiting + count)
  }

  /** Rows neither owned nor in conflict wait, in rotated order. */
  function Admitted(y: Supply, page: seq<Candidate>, kind: nat, generation: nat, draw: nat): (r: Supply)
    ensures SameWorkers(y, r)
  {
    var accepted := Accepted(page, y.owned, y.conflicted.Keys, y.sequence, kind, generation);
    Lined(Claimed(y, accepted), Flat(Rotation(accepted, draw)), |accepted|)
  }

  ghost function AdmitPage(x: Supply, page: seq<Candidate>, kind: nat, generation: nat, draw: nat, now: nat): (r: Supply)
    ensures SameWorkers(x, r)
  {
    var y := ReleasePage(x);
    if x.stopping then y else Admitted(Expire(y, now), page, kind, generation, draw)
  }

  lemma AdmittedKeeps(y: Supply, page: seq<Candidate>, kind: nat, generation: nat, draw: nat)
    requires Sound(y) && y.waiting + |page| <= y.capacity
    ensures Sound(Admitted(y, page, kind, generation, draw))
  {
    var accepted := Accepted(page, y.owned, y.conflicted.Keys, y.sequence, kind, generation);
    var rows := Flat(Rotation(accepted, draw));
    AcceptedOwns(page, y.pending, y.held, y.owner, y.conflicted.Keys, y.sequence, kind, generation);
    RotationFair(accepted, draw);
    assert multiset(y.pending + rows) == multiset(y.pending + accepted) && |rows| == |multiset(rows)| == |accepted|;
    forall c | c in y.pending + rows ensures c in y.pending || c.parent !in y.conflicted {
      if c !in y.pending { assert c in multiset(rows) && c in multiset(accepted); }
    }
    GatesWait(y.registering, y.held, y.conflicted, y.pending, y.pending + rows);
  }

  lemma AdmitKeeps(x: Supply, page: seq<Candidate>, kind: nat, generation: nat, draw: nat, now: nat)
    requires Sound(x) && x.phase.Returned? && |page| <= x.reserved
    ensures Sound(AdmitPage(x, page, kind, generation, draw, now))
  {
    ReleaseKeeps(x);
    if !x.stopping {
      ExpireKeeps(ReleasePage(x), now);
      AdmittedKeeps(Expire(ReleasePage(x), now), page, kind, generation, draw);
    }
  }

  // ----- serving -----

  /** The index to serve, or -1. */
  ghost function NextIndex(y: Supply): int {
    if !y.full && exists k :: Serves(y.pending, y.registering, y.parentShare, y.lastParent, k)
    then var k :| Serves(y.pending, y.registering, y.parentShare, y.lastParent, k); k
    else -1
  }

  function Served(y: Supply, k: nat): Supply
    requires k < |y.pending|
  {
    var c := y.pending[k];
    y.(pending := y.pending[..k] + y.pending[k + 1..], waiting := y.waiting - 1, registering := y.registering[c.parent := c],
       parentShare := if y.lastParent == c.parent then Min(y.parentShare + 1, PARENT_SHARE) else 1, lastParent := c.parent,
       changes := y.changes + 1, held := y.held + {c}, served := y.served + [c.parent])
  }

  ghost function Take(x: Supply, now: nat): Supply {
    if x.stopping then x
    else
      var y := Expire(x, now);
      if NextIndex(y) < 0 then y else Served(y, NextIndex(y))
  }

  lemma ServesUnique(pending: seq<Candidate>, registering: map<Id, Candidate>, share: nat, last: Id, j: int, k: int)
    requires Serves(pending, registering, share, last, j) && Serves(pending, registering, share, last, k)
    ensures j == k
  {
  }

  lemma SharingGrows(served: seq<Id>, lastParent: Id, parentShare: nat, p: Id)
    requires Sharing(served, lastParent, parentShare)
    ensures Sharing(served + [p], p, if lastParent == p then Min(parentShare + 1, PARENT_SHARE) else 1)
  {
    assert (served + [p])[..|served|] == served;
    assert Streak(served + [p], p) == 1 + Streak(served, p);
    if lastParent != p { assert Streak(served, p) == 0; }
  }

  lemma GatesServe(registering: map<Id, Candidate>, held: set<Candidate>, conflicted: map<Id, nat>, pending: seq<Candidate>, k: nat)
    requires GatesOk(registering, held, conflicted, pending) && k < |pending|
    ensures var c := pending[k];
            GatesOk(registering[c.parent := c], held + {c}, conflicted, pending[..k] + pending[k + 1..])
            && |registering[c.parent := c]| <= |held + {c}|
  {
    var c := pending[k];
    var registering', held' := registering[c.parent := c], held + {c};
    assert WaitOk(conflicted, pending, k);
    forall p ensures GateOk(registering', held', conflicted, p) { assert GateOk(registering, held, conflicted, p); }
    GatesWait(registering, held, conflicted, pending, pending[..k] + pending[k + 1..]);
    forall p | p in registering' ensures registering'[p] in held' && registering'[p].parent == p {
      assert GateOk(registering', held', conflicted, p);
    }
    RegisteringBound(registering', held');
  }

  lemma ServedKeeps(y: Supply, k: nat)
    requires Sound(y) && k < |y.pending| && !y.full && |y.held| < y.concurrency
    ensures Sound(Served(y, k))
  {
    var c := y.pending[k];
    Split(y.pending, k);
    OwnTaken(multiset(y.pending), y.held, y.owner, c);
    GatesServe(y.registering, y.held, y.conflicted, y.pending, k);
    SharingGrows(y.served, y.lastParent, y.parentShare, c.parent);
  }

  lemma TakeKeeps(x: Supply, now: nat)
    requires Sound(x) && |x.held| < x.concurrency
    ensures Sound(Take(x, now))
  {
    if !x.stopping {
      ExpireKeeps(x, now);
      var y := Expire(x, now);
      if NextIndex(y) >= 0 { ServedKeeps(y, NextIndex(y)); }
    }
  }

  // ----- registration -----

  predicate Registers(x: Supply, c: Candidate) { c.parent in x.registering && x.registering[c.parent] == c }

  function Credited(x: Supply, c: Candidate, confirmed: bool): (r: Supply)
    ensures SameWorkers(x, r)
  {
    if confirmed && c.generation != 0 && c.scanKind < |x.generations| && c.generation == x.generations[c.scanKind]
    then x.(pagesLeft := PAGE_BUDGET, resumeAt := 0) else x
  }

  /** Only the registration that is this candidate's own is released. */
  ghost function Finished(x: Supply, c: Candidate, confirmed: bool, locked: bool, now: nat, delay: nat): (r: Supply)
    ensures r.held == x.held && r.registering == if Registers(x, c) then x.registering - {c.parent} else x.registering
  {
    if !Registers(x, c) then x
    else
      Credited(Contended(Unregistered(x, c.parent), c.parent, locked, now, delay), c, confirmed)
  }

  function Unregistered(x: Supply, p: Id): Supply { x.(registering := x.registering - {p}, changes := x.changes + 1) }

  ghost function Contended(y: Supply, p: Id, locked: bool, now: nat, delay: nat): (r: Supply)
    ensures SameWorkers(y, r)
  {
    if locked then Block(y, p, now, delay) else y
  }

  lemma UnregisteredKeeps(x: Supply, p: Id)
    requires Sound(x) && p in x.registering
    ensures var y := Unregistered(x, p);
            Sound(y) && p !in y.registering && |y.conflicted| + |y.registering| < y.capacity + y.concurrency - 1
  {
    var registering := x.registering - {p};
    assert registering.Keys == x.registering.Keys - {p};
    forall q ensures GateOk(registering, x.held, x.conflicted, q) { assert GateOk(x.registering, x.held, x.conflicted, q); }
  }

  lemma CreditedKeeps(x: Supply, c: Candidate, confirmed: bool)
    requires Sound(x)
    ensures Sound(Credited(x, c, confirmed))
  {
  }

  lemma FinishedKeeps(x: Supply, c: Candidate, confirmed: bool, locked: bool, now: nat, delay: nat)
    requires Sound(x) && 0 < delay
    ensures Sound(Finished(x, c, confirmed, locked, now, delay))
  {
    if Registers(x, c) {
      UnregisteredKeeps(x, c.parent);
      ContendedKeeps(Unregistered(x, c.parent), c.parent, locked, now, delay);
      CreditedKeeps(Contended(Unregistered(x, c.parent), c.parent, locked, now, delay), c, confirmed);
    }
  }

  lemma ContendedKeeps(y: Supply, p: Id, locked: bool, now: nat, delay: nat)
    requires Sound(y) && 0 < delay && p !in y.registering && |y.conflicted| + |y.registering| < y.capacity + y.concurrency - 1
    ensures Sound(Contended(y, p, locked, now, delay))
  {
    if locked { BlockKeeps(y, p, now, delay); }
  }

  /** The worker drops its candidate; the key is freed if it still is this candidate's. */
  function Cleanup(x: Supply, c: Candidate): Supply {
    var mine := c.Key() in x.owned && x.owned[c.Key()] == c.sequence;
    var owner := if mine then x.owner - {c.Key()} else x.owner;
    x.(held := x.held - {c}, owner := owner, owned := if mine then x.owned - {c.Key()} else x.owned, changes := x.changes + 1)
  }

  lemma CleanupKeeps(x: Supply, c: Candidate)
    requires Sound(x) && c in x.held && !Registers(x, c)
    ensures Sound(Cleanup(x, c)) && Cleanup(x, c).owned == x.owned - {c.Key()}
  {
    assert OwnedOk(multiset(x.pending), x.held, x.owner, c) && OwnerOk(multiset(x.pending), x.held, x.owner, c.Key());
    OwnLess(multiset(x.pending), x.held, x.owner, c);
    assert multiset(x.pending) - multiset{c} == multiset(x.pending);
    assert Sequences(x.owner - {c.Key()}) == x.owned - {c.Key()};
    var held := x.held - {c};
    forall p ensures GateOk(x.registering, held, x.conflicted, p) { assert GateOk(x.registering, x.held, x.conflicted, p); }
  }
}
