/** The dispatch runtime itself: fields under one mutex, updated in place. Each method is one
    critical section and is proved equal to the section's function. */
module DispatchRuntime {
  import opened Base
  import opened Collections
  import opened DispatchSupply
  import opened DispatchSections

  // ----- loops -----

  /** The loop over recorded deadlines, in any order. */
  method KeepUnexpired(deadlines: map<Id, nat>, now: nat) returns (kept: map<Id, nat>, until: nat)
    ensures kept == Unexpired(deadlines, now) && until == EarliestOf(kept)
  {
    kept, until := map[], 0;
    var ids := deadlines.Keys;
    while ids != {}
      invariant ids <= deadlines.Keys
      invariant kept == map p | p in deadlines && p !in ids && now < deadlines[p] :: deadlines[p]
      invariant IsEarliest(until, kept)
      decreases ids
    {
      var id, rest := Pick(ids);
      if deadlines[id] > now {
        EarliestExtends(until, kept, id, deadlines[id]);
        kept, until := kept[id := deadlines[id]], Earlier(until, deadlines[id]);
      }
      ids := rest;
    }
    EarliestOfIs(kept);
    EarliestUnique(until, EarliestOf(kept), kept);
  }

  /** The search for the candidate to serve. */
  method FindServed(pending: seq<Candidate>, registering: map<Id, Candidate>, share: nat, last: Id) returns (index: int)
    ensures if index < 0 then index == -1 && forall k :: !Eligible(pending, registering, k)
            else Serves(pending, registering, share, last, index)
  {
    index := -1;
    var position := 0;
    while position < |pending|
      invariant 0 <= position <= |pending|
      invariant if index < 0 then index == -1 && forall k | k < position :: !Eligible(pending, registering, k)
                else Eligible(pending, registering, index) && index < position && share >= PARENT_SHARE
                     && (forall k | k < index :: !Eligible(pending, registering, k))
                     && (forall k | k < position && Eligible(pending, registering, k) :: pending[k].parent == last)
    {
      var candidate := pending[position];
      if candidate.parent !in registering {
        assert Eligible(pending, registering, position);
        if index < 0 { index := position; }
        if share >= PARENT_SHARE && candidate.parent != last {
          index := position;
          return;
        }
        if share < PARENT_SHARE { return; }
      }
      position := position + 1;
    }
  }

  /** What accepting rows has produced so far; `accepted` itself is not stored. */
  datatype Gathering = Gathering(owned: map<Key, nat>, sequence: nat, groups: Groups, parents: seq<Id>)

  function Gather(g: Gathering, row: Candidate, conflicted: set<Id>, kind: nat, generation: nat): Gathering {
    if row.Key() in g.owned || row.parent in conflicted then g
    else
      var c := Stamped(row, g.sequence + 1, kind, generation);
      Gathering(g.owned[c.Key() := c.sequence], c.sequence, Grouped(g.groups, c),
                if c.parent in g.groups then g.parents else g.parents + [c.parent])
  }

  function GatherAll(g: Gathering, page: seq<Candidate>, conflicted: set<Id>, kind: nat, generation: nat): Gathering
    decreases |page|
  {
    if page == [] then g else GatherAll(Gather(g, page[0], conflicted, kind, generation), page[1..], conflicted, kind, generation)
  }

  ghost predicate Reflects(g: Gathering, owner: map<Key, Candidate>, accepted: seq<Candidate>) {
    g.owned == Sequences(OwnerWith(owner, accepted)) && g.groups == GroupsOf(accepted) && g.parents == ParentsOf(accepted)
  }

  /** The row, stamped, if it may wait. */
  function Taken(g: Gathering, row: Candidate, conflicted: set<Id>, kind: nat, generation: nat): seq<Candidate> {
    if row.Key() in g.owned || row.parent in conflicted then [] else [Stamped(row, g.sequence + 1, kind, generation)]
  }

  lemma AcceptedStep(g: Gathering, page: seq<Candidate>, conflicted: set<Id>, kind: nat, generation: nat)
    requires page != []
    ensures var g' := Gather(g, page[0], conflicted, kind, generation);
            Accepted(page, g.owned, conflicted, g.sequence, kind, generation)
            == Taken(g, page[0], conflicted, kind, generation) + Accepted(page[1..], g'.owned, conflicted, g'.sequence, kind, generation)
  {
    var rest := Accepted(page[1..], g.owned, conflicted, g.sequence, kind, generation);
    assert [] + rest == rest;
  }

  lemma GatherOne(g: Gathering, row: Candidate, conflicted: set<Id>, kind: nat, generation: nat, owner: map<Key, Candidate>, accepted: seq<Candidate>)
    requires Reflects(g, owner, accepted)
    ensures var r, one := Gather(g, row, conflicted, kind, generation), Taken(g, row, conflicted, kind, generation);
            Reflects(r, owner, accepted + one) && r.sequence == g.sequence + |one|
  {
    if row.Key() in g.owned || row.parent in conflicted {
      assert accepted + [] == accepted;
    } else {
      AcceptOne(owner, accepted, Stamped(row, g.sequence + 1, kind, generation));
    }
  }

  /** Gathering a page reflects exactly its accepted rows. */
  lemma {:induction false} GatherReflects(g: Gathering, page: seq<Candidate>, conflicted: set<Id>, kind: nat, generation: nat,
                                          owner: map<Key, Candidate>, accepted: seq<Candidate>)
    requires Reflects(g, owner, accepted)
    ensures var rows := Accepted(page, g.owned, conflicted, g.sequence, kind, generation);
            var r := GatherAll(g, page, conflicted, kind, generation);
            Reflects(r, owner, accepted + rows) && r.sequence == g.sequence + |rows|
    decreases |page|
  {
    if page == [] {
      assert accepted + [] == accepted;
    } else {
      var g' := Gather(g, page[0], conflicted, kind, generation);
      var one := Taken(g, page[0], conflicted, kind, generation);
      GatherOne(g, page[0], conflicted, kind, generation, owner, accepted);
      GatherReflects(g', page[1..], conflicted, kind, generation, owner, accepted + one);
      AcceptedStep(g, page, conflicted, kind, generation);
      Reassociate(accepted, one, Accepted(page[1..], g'.owned, conflicted, g'.sequence, kind, generation));
    }
  }

  /** Number the rows of a page that may wait, and group them by parent. */
  method AcceptRows(page: seq<Candidate>, owned: map<Key, nat>, conflicted: set<Id>, sequence: nat, kind: nat, generation: nat,
                    ghost owner: map<Key, Candidate>)
    returns (g: Gathering, ghost accepted: seq<Candidate>)
    requires owned == Sequences(owner)
    ensures accepted == Accepted(page, owned, conflicted, sequence, kind, generation)
    ensures g.sequence == sequence + |accepted| && Reflects(g, owner, accepted)
  {
    g := Gathering(owned, sequence, map[], []);
    accepted := Accepted(page, owned, conflicted, sequence, kind, generation);
    GatherReflects(g, page, conflicted, kind, generation, owner, []);
    assert [] + accepted == accepted;
    ghost var start := g;
    var i := 0;
    while i < |page|
      invariant 0 <= i <= |page| && GatherAll(g, page[i..], conflicted, kind, generation) == GatherAll(start, page, conflicted, kind, generation)
    {
      var row := page[i];
      assert page[i..][0] == row && page[i..][1..] == page[i + 1..];
      if row.Key() !in g.owned && row.parent !in conflicted {
        var c := Stamped(row, g.sequence + 1, kind, generation);
        g := Gathering(g.owned[c.Key() := c.sequence], c.sequence, Grouped(g.groups, c),
                       if c.parent in g.groups then g.parents else g.parents + [c.parent]);
      }
      i := i + 1;
    }
  }

  lemma AcceptOne(owner: map<Key, Candidate>, accepted: seq<Candidate>, c: Candidate)
    ensures Sequences(OwnerWith(owner, accepted + [c])) == Sequences(OwnerWith(owner, accepted))[c.Key() := c.sequence]
    ensures c.parent in GroupsOf(accepted) <==> c.parent in ParentsOf(accepted)
    ensures ParentsOf(accepted + [c]) == if c.parent in ParentsOf(accepted) then ParentsOf(accepted) else ParentsOf(accepted) + [c.parent]
    ensures GroupsOf(accepted + [c]) == Grouped(GroupsOf(accepted), c)
  {
    OwnedOne(owner, accepted, c);
    GroupsOfMeans(accepted);
    ParentsOne(accepted, c);
    GroupsOne(accepted, c);
  }

  lemma OwnedOne(owner: map<Key, Candidate>, accepted: seq<Candidate>, c: Candidate)
    ensures Sequences(OwnerWith(owner, accepted + [c])) == Sequences(OwnerWith(owner, accepted))[c.Key() := c.sequence]
  {
    OwnerWithAppend(owner, accepted, c);
  }

  lemma ParentsOne(accepted: seq<Candidate>, c: Candidate)
    ensures ParentsOf(accepted + [c]) == if c.parent in ParentsOf(accepted) then ParentsOf(accepted) else ParentsOf(accepted) + [c.parent]
  {
    assert (accepted + [c])[..|accepted|] == accepted;
  }

  lemma GroupsOne(accepted: seq<Candidate>, c: Candidate)
    ensures GroupsOf(accepted + [c]) == Grouped(GroupsOf(accepted), c)
  {
    assert (accepted + [c])[..|accepted|] == accepted;
  }

  lemma {:induction false} OwnerWithAppend(owner: map<Key, Candidate>, cs: seq<Candidate>, c: Candidate)
    ensures OwnerWith(owner, cs + [c]) == OwnerWith(owner, cs)[c.Key() := c]
    decreases |cs|
  {
    if cs == [] {
      assert cs + [c] == [c] && [c][1..] == [];
    } else {
      assert (cs + [c])[1..] == cs[1..] + [c];
      OwnerWithAppend(owner[cs[0].Key() := cs[0]], cs[1..], c);
    }
  }

  /** The groups once the parents in `done` have had their turn. */
  function Partly(groups: Groups, done: seq<Id>): Groups {
    map p | p in groups :: if p in done then groups[p][Min(PARENT_SHARE, |groups[p]|)..] else groups[p]
  }

  lemma PartlyAppend(groups: Groups, order: seq<Id>, k: nat)
    requires Covers(order, groups) && Distinct(order) && k < |order|
    ensures var p, before := order[k], Partly(groups, order[..k]);
            && before[p] == groups[p]
            && Partly(groups, order[..k + 1]) == before[p := groups[p][Min(PARENT_SHARE, |groups[p]|)..]]
  {
    assert order[..k + 1] == order[..k] + [order[k]];
    assert order[k] !in order[..k];
  }

  method RingIndex(start: nat, offset: nat, n: nat) returns (r: nat)
    requires start < n && offset < n
    ensures r < n && r == if start + offset < n then start + offset else start + offset - n
  {
    Wraps(start + offset, n);
    r := (start + offset) % n;
  }

  /** The parents in turn, from the drawn one. */
  method TurnOrder(parents: seq<Id>, start: nat) returns (order: seq<Id>)
    requires start < |parents|
    ensures order == Rotated(parents, start)
  {
    order := [];
    var offset := 0;
    while offset < |parents|
      invariant 0 <= offset <= |parents| && order == Rotated(parents, start)[..offset]
    {
      var at := RingIndex(start, offset, |parents|);
      order := order + [parents[at]];
      offset := offset + 1;
    }
  }

  lemma RemainingAppend(order: seq<Id>, groups: Groups, k: nat)
    requires Covers(order, groups) && k < |order|
    ensures Remaining(order[..k + 1], groups) <==> Remaining(order[..k], groups) || |groups[order[k]]| > PARENT_SHARE
  {
    assert order[..k + 1][k] == order[k];
    if Remaining(order[..k], groups) {
      var j :| 0 <= j < k && |groups[order[..k][j]]| > PARENT_SHARE;
      assert order[..k + 1][j] == order[..k][j];
    }
    if Remaining(order[..k + 1], groups) {
      var j :| 0 <= j < k + 1 && |groups[order[..k + 1][j]]| > PARENT_SHARE;
      assert j < k ==> order[..k + 1][j] == order[..k][j];
    }
  }

  /** What one more parent adds to a round. */
  lemma TurnTaken(order: seq<Id>, groups: Groups, k: nat)
    requires Covers(order, groups) && Distinct(order) && k < |order|
    ensures var p, before := order[k], Partly(groups, order[..k]);
            var count := Min(PARENT_SHARE, |groups[p]|);
            && before[p] == groups[p]
            && Partly(groups, order[..k + 1]) == before[p := groups[p][count..]]
            && Round(order[..k + 1], groups) == Round(order[..k], groups) + groups[p][..count]
            && (Remaining(order[..k + 1], groups) <==> Remaining(order[..k], groups) || |groups[p]| > count)
  {
    PartlyAppend(groups, order, k);
    RoundAppend(order, groups, k);
    RemainingAppend(order, groups, k);
  }

  lemma AllTurnsTaken(order: seq<Id>, groups: Groups)
    requires forall p | p in groups :: p in order
    ensures Partly(groups, order) == Rest(groups) && Partly(groups, []) == groups
  {
    assert Partly(groups, order).Keys == groups.Keys == Rest(groups).Keys;
    forall p | p in groups ensures Partly(groups, order)[p] == Rest(groups)[p] {}
  }

  ghost predicate TurnOk(order: seq<Id>, parents: set<Id>, k: int) {
    && (0 <= k < |order| ==> order[k] in parents && order[k] !in order[..k])
    && (k in parents ==> k in order)
  }

  /** Every parent has exactly one turn. */
  ghost predicate Turns(order: seq<Id>, parents: set<Id>) {
    forall k {:trigger TurnOk(order, parents, k)} :: TurnOk(order, parents, k)
  }

  lemma TurnsMean(order: seq<Id>, groups: Groups)
    ensures Turns(order, groups.Keys) <==> (Distinct(order) && Covers(order, groups) && forall p | p in groups :: p in order)
  {
    if Turns(order, groups.Keys) {
      forall a, b | 0 <= a < b < |order| ensures order[a] != order[b] {
        assert TurnOk(order, groups.Keys, b) && order[..b][a] == order[a];
      }
      forall k | 0 <= k < |order| ensures order[k] in groups { assert TurnOk(order, groups.Keys, k); }
      forall p | p in groups ensures p in order { assert TurnOk(order, groups.Keys, p); }
    }
  }

  /** One pass over the parents: at most eight candidates of each. */
  method OneRound(groups: Groups, order: seq<Id>) returns (round: seq<Candidate>, rest: Groups, remaining: bool)
    requires Turns(order, groups.Keys)
    ensures Covers(order, groups) && round == Round(order, groups) && rest == Rest(groups) && remaining == Remaining(order, groups)
  {
    TurnsMean(order, groups);
    round, rest, remaining := [], groups, false;
    AllTurnsTaken(order, groups);
    var offset := 0;
    while offset < |order|
      invariant 0 <= offset <= |order|
      invariant round == Round(order[..offset], groups) && rest == Partly(groups, order[..offset])
      invariant remaining == Remaining(order[..offset], groups)
    {
      TurnTaken(order, groups, offset);
      var id := order[offset];
      var group := rest[id];
      var count := Min(PARENT_SHARE, |group|);
      round, rest, remaining := round + group[..count], rest[id := group[count..]], remaining || |group| > count;
      offset := offset + 1;
    }
    assert order[..offset] == order;
  }

  lemma {:induction false} RoundAppend(order: seq<Id>, groups: Groups, k: nat)
    requires Covers(order, groups) && k < |order|
    ensures Round(order[..k + 1], groups) ==
            Round(order[..k], groups) + groups[order[k]][..Min(PARENT_SHARE, |groups[order[k]]|)]
  {
    if k == 0 {
      assert order[..1][1..] == [];
    } else {
      assert order[..k + 1][1..] == order[1..][..k] && order[..k][1..] == order[1..][..k - 1];
      RoundAppend(order[1..], groups, k - 1);
    }
  }

  /** Offer at most eight candidates per parent and round, until none is left. */
  method RotateFrom(groups: Groups, order: seq<Id>) returns (rows: seq<Candidate>)
    requires Covers(order, groups) && Turns(order, groups.Keys)
    ensures rows == Flat(Rounds(order, groups))
  {
    rows := [];
    var left, remaining := groups, true;
    ghost var tail := Flat(Rounds(order, groups));
    while remaining
      invariant left.Keys == groups.Keys && Covers(order, left)
      invariant remaining ==> tail == Flat(Rounds(order, left))
      invariant !remaining ==> tail == []
      invariant rows + tail == Flat(Rounds(order, groups))
      decreases if remaining then 1 + Total(order, left) else 0
    {
      RoundsUnfold(order, left);
      var round, rest, more := OneRound(left, order);
      tail := tail[|round|..];
      rows, left, remaining := rows + round, rest, more;
    }
  }

  lemma RoundsUnfold(order: seq<Id>, groups: Groups)
    requires Covers(order, groups)
    ensures Covers(order, Rest(groups)) && Rest(groups).Keys == groups.Keys
    ensures Remaining(order, groups) ==> Total(order, Rest(groups)) < Total(order, groups)
    ensures Flat(Rounds(order, groups)) == Round(order, groups) + if Remaining(order, groups) then Flat(Rounds(order, Rest(groups))) else []
  {
    FlatRounds(order, groups);
    RestShrinks(order, groups);
  }

  method Rotate(ghost accepted: seq<Candidate>, groups: Groups, parents: seq<Id>, draw: nat) returns (rows: seq<Candidate>)
    requires groups == GroupsOf(accepted) && parents == ParentsOf(accepted)
    ensures rows == Flat(Rotation(accepted, draw))
  {
    rows := [];
    if parents != [] {
      var start := draw % |parents|;
      var order := TurnOrder(parents, start);
      ParentsOfMembers(accepted);
      RotatedMembers(parents, start);
      RotationGroups(accepted, order);
      GroupsOfMeans(accepted);
      TurnsMean(order, groups);
      rows := RotateFrom(groups, order);
    }
  }

  // ----- the runtime -----

  class Runtime {
    const concurrency: nat
    const capacity: nat
    var started: bool
    var stopping: bool
    var waiting: int
    var reserved: int
    var pending: seq<Candidate>
    var owned: map<Key, nat>
    var registering: map<Id, Candidate>
    var lastParent: Id
    var parentShare: nat
    var changes: nat
    var sequence: nat
    var generations: seq<nat>
    var pagesLeft: int
    var resumeAt: nat
    var conflicted: map<Id, nat>
    var until: nat
    var full: bool
    ghost var held: set<Candidate>
    ghost var owner: map<Key, Candidate>
    ghost var served: seq<Id>
    ghost var phase: Phase

    ghost function View(): Supply
      reads this
    {
      Supply(concurrency, capacity, started, stopping, waiting, reserved, pending, owned, registering, lastParent, parentShare,
             changes, sequence, generations, pagesLeft, resumeAt, conflicted, until, full, held, owner, served, phase)
    }

    constructor (concurrency: nat, capacity: nat)
      ensures View() == Initial(concurrency, capacity)
    {
      this.concurrency, this.capacity := concurrency, capacity;
      started, stopping, waiting, reserved, pending, owned, registering := false, false, 0, 0, [], map[], map[];
      lastParent, parentShare, changes, sequence, generations := 0, 0, 0, 0, [0, 0];
      pagesLeft, resumeAt, conflicted, until, full := PAGE_BUDGET, 0, map[], 0, false;
      held, owner, served, phase := {}, map[], [], Idle;
    }

    method Start() returns (ok: bool)
      modifies `started
      ensures View() == old(View()).(started := old(started) || !stopping) && ok == (!old(started) && !stopping)
    {
      ok := !started && !stopping;
      if ok { started := true; }
    }

    method ExpireConflicts(now: nat)
      modifies `conflicted, `until, `full, `changes
      ensures View() == Expire(old(View()), now)
    {
      if until != 0 && until <= now {
        conflicted, until := KeepUnexpired(conflicted, now);
        full := |conflicted| >= capacity;
        changes := changes + 1;
      }
    }

    method Claim(c: Candidate)
      modifies `sequence, `owned, `owner
      ensures View() == old(View()).(sequence := c.sequence, owned := old(owned)[c.Key() := c.sequence], owner := old(owner)[c.Key() := c])
    {
      sequence, owned, owner := c.sequence, owned[c.Key() := c.sequence], owner[c.Key() := c];
    }

    method Enqueue(c: Candidate)
      modifies `changes, `sequence, `pending, `owned, `owner, `waiting
      ensures View() == Queued(old(View()), c)
    {
      Claim(c);
      pending := pending + [c];
      waiting := waiting + 1;
      changes := changes + 1;
    }

    method AcceptHint(id: Id, now: nat) returns (ok: bool)
      modifies `conflicted, `until, `full, `changes, `sequence, `pending, `owned, `owner, `waiting
      ensures View() == Hint(old(View()), id, now) && ok == Accepts(old(View()), id, now)
    {
      if id <= 0 || !started || stopping { return false; }
      ExpireConflicts(now);
      if First(id) in owned { return true; }
      if id in conflicted { return false; }
      if waiting == capacity { return false; }
      Enqueue(Candidate(sequence + 1, id, None, 0, 0));
      return true;
    }
  
    method StopSupply()
      requires Sound(View())
      modifies `stopping, `pending, `owned, `owner, `waiting, `changes
      ensures View() == Stop(old(View()))
    {
      if stopping { return; }
      DisownWaiting();
      ClearWaiting();
      stopping, changes := true, changes + 1;
    }

    method ClearWaiting()
      modifies `waiting, `pending
      ensures View() == old(View()).(waiting := old(waiting) - |old(pending)|, pending := [])
    {
      waiting, pending := waiting - |pending|, [];
    }

    method DisownWaiting()
      requires Owns(multiset(pending), held, owner) && owned == Sequences(owner)
      modifies `owned, `owner
      ensures View() == old(View()).(owner := OwnerHeld(old(owner), pending), owned := Sequences(OwnerHeld(old(owner), pending)))
    {
      owned := Disown(pending, owned, owner, held);
      owner := OwnerHeld(owner, pending);
    }

    /** One pass of the scanner's wait loop. */
    method GrantPage(scans: Scans, now: nat) returns (d: PageDecision)
      requires scans.Valid() && |generations| == 2
      modifies `conflicted, `until, `full, `changes, `pagesLeft, `resumeAt, `reserved, `waiting, `generations, `phase
      ensures (View(), d) == NextPage(old(View()), scans, now)
    {
      if stopping { return Stopped; }
      ExpireConflicts(now);
      Refill(now);
      var kind, wakeAt := 2, 0;
      var offset := 0;
      while offset < 2
        invariant 0 <= offset <= 2
        invariant offset == 0 ==> kind == 2 && wakeAt == 0
        invariant offset == 1 ==> kind == (if scans.readyAt[scans.next] <= now then scans.next else 2)
                                  && wakeAt == Later(0, scans.readyAt[scans.next], now)
        invariant offset == 2 ==> kind == ReadyKind(scans, now)
                                  && wakeAt == Later(Later(0, scans.readyAt[scans.next], now), scans.readyAt[1 - scans.next], now)
      {
        var index := (scans.next + offset) % 2;
        if scans.readyAt[index] <= now {
          if kind == 2 { kind := index; }
        } else {
          wakeAt := Earlier(wakeAt, scans.readyAt[index]);
        }
        offset := offset + 1;
      }
      if pagesLeft == 0 { wakeAt := Earlier(wakeAt, resumeAt); }
      if full { wakeAt := Earlier(wakeAt, until); }
      if kind < 2 && pagesLeft > 0 && !full && waiting < capacity {
        var generation := ReservePage(scans, kind);
        return Page(kind, reserved, generation);
      }
      return WaitUntil(wakeAt);
    }

    method Refill(now: nat)
      modifies `pagesLeft, `resumeAt
      ensures View() == Refilled(old(View()), now)
    {
      if pagesLeft == 0 && resumeAt != 0 && resumeAt <= now {
        pagesLeft, resumeAt := PAGE_BUDGET, 0;
      }
    }

    method ReservePage(scans: Scans, kind: nat) returns (generation: nat)
      requires scans.Valid() && kind < 2 && |generations| == 2 && waiting < capacity
      modifies `reserved, `waiting, `generations, `phase
      ensures View() == Reserve(old(View()), scans, kind)
      ensures generation == if scans.generation[kind] == 0 then generations[kind] else scans.generation[kind]
    {
      Reserving();
      generation := scans.generation[kind];
      if generation == 0 {
        generations := generations[kind := generations[kind] + 1];
        generation := generations[kind];
      }
    }

    method Reserving()
      requires waiting < capacity
      modifies `reserved, `waiting, `phase
      ensures var limit := Min(PAGE_LIMIT, capacity - old(waiting));
              View() == old(View()).(reserved := limit, waiting := old(waiting) + limit, phase := Granted)
    {
      reserved := Min(PAGE_LIMIT, capacity - waiting);
      waiting := waiting + reserved;
      phase := Granted;
    }

    method ChargeForPage(now: nat) returns (r: Charge)
      modifies `conflicted, `until, `full, `changes, `pagesLeft, `resumeAt, `phase
      ensures (View(), r) == ChargePage(old(View()), now)
    {
      if stopping { return ChargeStopped; }
      ExpireConflicts(now);
      if full { return ChargePaused; }
      SpendPage();
      return ChargeOk;
    }

    method SpendPage()
      modifies `pagesLeft, `resumeAt, `phase
      ensures View() == Spent(old(View()))
    {
      pagesLeft := pagesLeft - 1;
      if pagesLeft == 0 { resumeAt := 0; }
      phase := Charged;
    }

    method PageReturned(now: nat, delay: nat)
      modifies `resumeAt, `phase
      ensures View() == PageBack(old(View()), now, delay)
    {
      if pagesLeft == 0 && resumeAt == 0 { resumeAt := now + delay; }
      phase := Returned;
    }

    method Release()
      modifies `waiting, `reserved, `changes, `phase
      ensures View() == ReleasePage(old(View()))
    {
      waiting := waiting - reserved;
      reserved := 0;
      changes := changes + 1;
      phase := Idle;
    }

    method Admit(page: seq<Candidate>, kind: nat, generation: nat, draw: nat, now: nat) returns (ok: bool)
      requires Sound(View()) && phase.Returned?
      modifies `waiting, `reserved, `changes, `phase, `conflicted, `until, `full, `pending, `owned, `owner, `sequence
      ensures View() == AdmitPage(old(View()), page, kind, generation, draw, now) && ok == !stopping
    {
      ReleaseKeeps(View());
      Release();
      if stopping { return false; }
      ExpireKeeps(View(), now);
      ExpireConflicts(now);
      AdmitRows(page, kind, generation, draw);
      return true;
    }

    method AdmitRows(page: seq<Candidate>, kind: nat, generation: nat, draw: nat)
      requires owned == Sequences(owner)
      modifies `waiting, `pending, `owned, `owner, `sequence
      ensures View() == Admitted(old(View()), page, kind, generation, draw)
    {
      var g, accepted := AcceptRows(page, owned, conflicted.Keys, sequence, kind, generation, owner);
      var rows := Rotate(accepted, g.groups, g.parents, draw);
      var count := g.sequence - sequence;
      ClaimRows(g, accepted);
      LineUp(rows, count);
    }

    method ClaimRows(g: Gathering, ghost accepted: seq<Candidate>)
      requires g.owned == Sequences(OwnerWith(owner, accepted)) && g.sequence == sequence + |accepted|
      modifies `owned, `owner, `sequence
      ensures View() == Claimed(old(View()), accepted)
    {
      owned, sequence := g.owned, g.sequence;
      owner := OwnerWith(owner, accepted);
    }

    method LineUp(rows: seq<Candidate>, count: nat)
      modifies `waiting, `pending
      ensures View() == Lined(old(View()), rows, count)
    {
      waiting := waiting + count;
      pending := pending + rows;
    }

    method TakeNext(now: nat) returns (c: Option<Candidate>)
      requires Sound(View())
      modifies `conflicted, `until, `full, `changes, `pending, `waiting, `registering, `parentShare, `lastParent, `held, `served
      ensures View() == Take(old(View()), now)
      ensures c.None? ==> stopping || full || forall k :: !Eligible(pending, registering, k)
      ensures c.Some? ==> Registers(View(), c.value) && c.value in held && c.value !in old(held) && c.value in old(pending)
    {
      if stopping { return None; }
      ExpireKeeps(View(), now);
      ExpireConflicts(now);
      ghost var y := View();
      var index := -1;
      if !full { index := FindServed(pending, registering, parentShare, lastParent); }
      if index < 0 { return None; }
      NextIndexIs(y, index);
      var candidate := pending[index];
      OwnTaken(multiset(pending), held, owner, candidate);
      Serve(index);
      return Some(candidate);
    }

    method Serve(index: nat)
      requires index < |pending|
      modifies `changes, `pending, `waiting, `registering, `parentShare, `lastParent, `held, `served
      ensures View() == Served(old(View()), index)
    {
      var candidate := pending[index];
      CountServed(candidate);
      pending := pending[..index] + pending[index + 1..];
      waiting := waiting - 1;
      registering := registering[candidate.parent := candidate];
      changes := changes + 1;
    }

    method CountServed(c: Candidate)
      modifies `parentShare, `lastParent, `held, `served
      ensures View() == old(View()).(held := old(held) + {c}, served := old(served) + [c.parent], lastParent := c.parent,
                                     parentShare := if old(lastParent) == c.parent then Min(old(parentShare) + 1, PARENT_SHARE) else 1)
    {
      if lastParent == c.parent {
        parentShare := Min(parentShare + 1, PARENT_SHARE);
      } else {
        lastParent, parentShare := c.parent, 1;
      }
      held, served := held + {c}, served + [c.parent];
    }

    /** The candidate registering for a parent, if registration may still begin. */
    method RegistrationCandidate(id: Id, now: nat) returns (c: Option<Candidate>)
      modifies `conflicted, `until, `full, `changes
      ensures View() == Expire(old(View()), now)
      ensures c == if id in registering && !stopping then Some(registering[id]) else None
    {
      ExpireConflicts(now);
      if id in registering && !stopping { return Some(registering[id]); }
      return None;
    }

    method RegistrationFinished(c: Candidate, confirmed: bool, locked: bool, now: nat, delay: nat)
      requires Sound(View())
      modifies `registering, `changes, `conflicted, `until, `full, `pending, `owned, `owner, `waiting, `pagesLeft, `resumeAt
      ensures View() == Finished(old(View()), c, confirmed, locked, now, delay)
    {
      if c.parent !in registering || registering[c.parent] != c { return; }
      UnregisteredKeeps(View(), c.parent);
      Unregister(c.parent);
      if locked { BlockParent(c.parent, now, delay); }
      Credit(c, confirmed);
    }

    method Unregister(p: Id)
      modifies `registering, `changes
      ensures View() == Unregistered(old(View()), p)
    {
      registering := registering - {p};
      changes := changes + 1;
    }

    /** Confirmed progress of the current traversal restores the page budget. */
    method Credit(c: Candidate, confirmed: bool)
      modifies `pagesLeft, `resumeAt
      ensures View() == Credited(old(View()), c, confirmed)
    {
      if confirmed && c.generation != 0 && c.scanKind < |generations| && c.generation == generations[c.scanKind] {
        pagesLeft, resumeAt := PAGE_BUDGET, 0;
      }
    }

    method BlockParent(id: Id, now: nat, delay: nat)
      requires Sound(View())
      modifies `changes, `conflicted, `until, `full, `pending, `owned, `owner, `waiting
      ensures View() == Block(old(View()), id, now, delay)
    {
      ExpireKeeps(View(), now);
      ExpireConflicts(now);
      RecordConflict(id, now + delay);
      DropWaiting(id);
    }

    method RecordConflict(id: Id, deadline: nat)
      modifies `conflicted, `until, `full
      ensures View() == Recording(old(View()), id, deadline)
    {
      if id !in conflicted {
        conflicted := conflicted[id := deadline];
        until := Earlier(until, deadline);
      }
      full := |conflicted| >= capacity;
    }

    method DropWaiting(id: Id)
      requires Owns(multiset(pending), held, owner) && owned == Sequences(owner)
      modifies `pending, `owned, `owner, `waiting
      ensures View() == Dropped(old(View()), id)
    {
      var kept, owned' := DropParent(pending, owned, id, owner, held);
      owner := OwnerWithout(owner, pending, id);
      waiting := waiting - (|pending| - |kept|);
      pending, owned := kept, owned';
    }

    /** A worker's last section for its candidate. */
    method Discard(c: Candidate)
      modifies `owned, `owner, `held, `changes
      ensures View() == Cleanup(old(View()), c)
    {
      LetGo(c);
      if c.Key() in owned && owned[c.Key()] == c.sequence {
        owned, owner := owned - {c.Key()}, owner - {c.Key()};
      }
    }

    method LetGo(c: Candidate)
      modifies `held, `changes
      ensures View() == old(View()).(held := old(held) - {c}, changes := old(changes) + 1)
    {
      held, changes := held - {c}, changes + 1;
    }
  }

  lemma NextIndexIs(y: Supply, index: int)
    requires !y.full && Serves(y.pending, y.registering, y.parentShare, y.lastParent, index)
    ensures NextIndex(y) == index
  {
    ServesUnique(y.pending, y.registering, y.parentShare, y.lastParent, index, NextIndex(y));
  }

  /** Remove the ownership of every waiting candidate. */
  method Disown(pending: seq<Candidate>, owned: map<Key, nat>, ghost owner: map<Key, Candidate>, ghost held: set<Candidate>)
    returns (owned': map<Key, nat>)
    requires Owns(multiset(pending), held, owner) && owned == Sequences(owner)
    ensures owned' == Sequences(OwnerHeld(owner, pending))
  {
    owned' := owned;
    assert OwnerHeld(owner, pending[..0]) == owner;
    for i := 0 to |pending|
      invariant owned' == Sequences(OwnerHeld(owner, pending[..i]))
    {
      DisownOne(pending, owner, held, i);
      owned' := owned' - {pending[i].Key()};
    }
    assert pending[..|pending|] == pending;
  }

  lemma DisownOne(pending: seq<Candidate>, owner: map<Key, Candidate>, held: set<Candidate>, i: nat)
    requires Owns(multiset(pending), held, owner) && i < |pending|
    ensures Sequences(OwnerHeld(owner, pending[..i + 1])) == Sequences(OwnerHeld(owner, pending[..i])) - {pending[i].Key()}
  {
    var c := pending[i];
    assert c in multiset(pending) && OwnedOk(multiset(pending), held, owner, c);
    assert pending[..i + 1] == pending[..i] + [c];
    forall k | k in owner ensures k in OwnerHeld(owner, pending[..i + 1]) <==> k in OwnerHeld(owner, pending[..i]) && k != c.Key() {
      assert OwnerOk(multiset(pending), held, owner, k);
    }
  }

  /** Drop the waiting candidates of one parent. */
  method DropParent(pending: seq<Candidate>, owned: map<Key, nat>, id: Id, ghost owner: map<Key, Candidate>, ghost held: set<Candidate>)
    returns (kept: seq<Candidate>, owned': map<Key, nat>)
    requires Owns(multiset(pending), held, owner) && owned == Sequences(owner)
    ensures kept == Without(pending, id) && owned' == Sequences(OwnerWithout(owner, pending, id))
  {
    kept, owned' := [], owned;
    assert OwnerWithout(owner, pending[..0], id) == owner;
    for i := 0 to |pending|
      invariant kept == Without(pending[..i], id)
      invariant owned' == Sequences(OwnerWithout(owner, pending[..i], id))
    {
      DropOne(pending, owner, held, id, i);
      if pending[i].parent == id {
        owned' := owned' - {pending[i].Key()};
      } else {
        kept := kept + [pending[i]];
      }
    }
    assert pending[..|pending|] == pending;
  }

  lemma DropOne(pending: seq<Candidate>, owner: map<Key, Candidate>, held: set<Candidate>, id: Id, i: nat)
    requires Owns(multiset(pending), held, owner) && i < |pending|
    ensures var before, after := Sequences(OwnerWithout(owner, pending[..i], id)), Sequences(OwnerWithout(owner, pending[..i + 1], id));
            after == if pending[i].parent == id then before - {pending[i].Key()} else before
    ensures Without(pending[..i + 1], id) == if pending[i].parent == id then Without(pending[..i], id) else Without(pending[..i], id) + [pending[i]]
  {
    var c := pending[i];
    assert c in multiset(pending) && OwnedOk(multiset(pending), held, owner, c);
    assert pending[..i + 1] == pending[..i] + [c] && pending[..i + 1][..i] == pending[..i];
    forall k | k in owner
      ensures k in OwnerWithout(owner, pending[..i + 1], id) <==>
              (k in OwnerWithout(owner, pending[..i], id) && (c.parent == id ==> k != c.Key()))
    {
      assert OwnerOk(multiset(pending), held, owner, k);
    }
  }
}
