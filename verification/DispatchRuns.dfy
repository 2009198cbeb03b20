/** What the dispatch runtime guarantees in every run of its sections. */
module DispatchRuns {
  import opened Base
  import opened DispatchSupply
  import opened DispatchSections

  datatype Event =
    | EStart | EStop | EHint(id: Id, now: nat) | ENextPage(scans: Scans, now: nat) | ECharge(now: nat) | EBack(now: nat, delay: nat)
    | ERelease | EAdmit(page: seq<Candidate>, kind: nat, generation: nat, draw: nat, now: nat)
    | EExpire(now: nat) | ETake(now: nat)
    | EFinished(c: Candidate, confirmed: bool, locked: bool, now: nat, delay: nat) | ECleanup(c: Candidate)

  /** Who may run a section: the one scanner in its order, a free worker, or the worker that
      holds the candidate. */
  ghost predicate Enabled(x: Supply, ev: Event) {
    match ev
    case ENextPage(scans, _) => x.phase.Idle? && scans.Valid()
    case ECharge(_) => x.phase.Granted?
    case EBack(_, delay) => (x.phase.Granted? || x.phase.Charged?) && 0 < delay
    case ERelease => x.phase.Returned?
    case EAdmit(page, _, _, _, _) => x.phase.Returned? && |page| <= x.reserved
    case ETake(_) => |x.held| < x.concurrency
    case EFinished(c, _, _, _, delay) => c in x.held && 0 < delay
    case ECleanup(c) => c in x.held && !Registers(x, c)
    case _ => true
  }

  ghost function Next(x: Supply, ev: Event): Supply {
    if !Enabled(x, ev) then x
    else match ev
      case EStart => x.(started := x.started || !x.stopping)
      case EStop => Stop(x)
      case EHint(id, now) => Hint(x, id, now)
      case ENextPage(scans, now) => if |x.generations| == 2 then NextPage(x, scans, now).0 else x
      case ECharge(now) => ChargePage(x, now).0
      case EBack(now, delay) => PageBack(x, now, delay)
      case ERelease => ReleasePage(x)
      case EAdmit(page, kind, generation, draw, now) => AdmitPage(x, page, kind, generation, draw, now)
      case EExpire(now) => Expire(x, now)
      case ETake(now) => Take(x, now)
      case EFinished(c, confirmed, locked, now, delay) => Finished(x, c, confirmed, locked, now, delay)
      case ECleanup(c) => Cleanup(x, c)
  }

  ghost function Run(x: Supply, events: seq<Event>): Supply
    decreases |events|
  {
    if events == [] then x else Run(Next(x, events[0]), events[1..])
  }

  lemma StepKeeps(x: Supply, ev: Event)
    requires Sound(x)
    ensures Sound(Next(x, ev))
  {
    if Enabled(x, ev) {
      match ev
      case EStart => {}
      case EStop => StopKeeps(x);
      case EHint(id, now) => HintKeeps(x, id, now);
      case ENextPage(scans, now) => NextPageKeeps(x, scans, now);
      case ECharge(now) => ChargeKeeps(x, now);
      case EBack(now, delay) => PageBackKeeps(x, now, delay);
      case ERelease => ReleaseKeeps(x);
      case EAdmit(page, kind, generation, draw, now) => AdmitKeeps(x, page, kind, generation, draw, now);
      case EExpire(now) => ExpireKeeps(x, now);
      case ETake(now) => TakeKeeps(x, now);
      case EFinished(c, confirmed, locked, now, delay) => FinishedKeeps(x, c, confirmed, locked, now, delay);
      case ECleanup(c) => CleanupKeeps(x, c);
    }
  }

  lemma {:induction false} RunKeeps(x: Supply, events: seq<Event>)
    requires Sound(x)
    ensures Sound(Run(x, events))
    decreases |events|
  {
    if events != [] {
      StepKeeps(x, events[0]);
      RunKeeps(Next(x, events[0]), events[1..]);
    }
  }

  lemma InitialOk(concurrency: nat, capacity: nat)
    requires 0 < concurrency && 0 < capacity
    ensures Sound(Initial(concurrency, capacity))
  {
    var x := Initial(concurrency, capacity);
    assert multiset(x.pending) == multiset{};
  }

  /** In every run: the waiting set and the conflicts stay within their bounds, owned keys are
      the disjoint union of waiting and taken candidates, and parents in conflict neither wait
      nor register. */
  lemma SupplyBounds(concurrency: nat, capacity: nat, events: seq<Event>)
    requires 0 < concurrency && 0 < capacity
    ensures var x := Run(Initial(concurrency, capacity), events);
            && x.capacity == capacity && x.concurrency == concurrency
            && x.waiting == |x.pending| + x.reserved <= capacity
            && |x.conflicted| + |x.registering| <= capacity + concurrency - 1
            && IsEarliest(x.until, x.conflicted) && (x.full <==> |x.conflicted| >= capacity)
            && (forall k | k in x.owned :: exists c: Candidate :: c.Key() == k && (c in x.pending || c in x.held))
            && (forall c | c in x.pending || c in x.held :: c.Key() in x.owned && x.owned[c.Key()] == c.sequence)
            && (forall c, d | (c in x.pending || c in x.held) && (d in x.pending || d in x.held) && c.Key() == d.Key() :: c == d)
            && (forall c | c in x.pending :: multiset(x.pending)[c] == 1 && c !in x.held && c.parent !in x.conflicted)
            && (forall p | p in x.registering :: p !in x.conflicted && x.registering[p] in x.held && x.registering[p].parent == p)
  {
    InitialOk(concurrency, capacity);
    RunKeeps(Initial(concurrency, capacity), events);
    RunConstants(Initial(concurrency, capacity), events);
    var x := Run(Initial(concurrency, capacity), events);
    OwnedKeys(x);
    OnePerKey(x);
    GatesClosed(x);
  }

  lemma OwnedKeys(x: Supply)
    requires Sound(x)
    ensures forall k | k in x.owned :: exists c: Candidate :: c.Key() == k && (c in x.pending || c in x.held)
    ensures forall c | c in x.pending || c in x.held :: c.Key() in x.owned && x.owned[c.Key()] == c.sequence
  {
    forall k | k in x.owned ensures exists c: Candidate :: c.Key() == k && (c in x.pending || c in x.held) {
      assert OwnerOk(multiset(x.pending), x.held, x.owner, k);
      assert x.owner[k].Key() == k && (x.owner[k] in multiset(x.pending) || x.owner[k] in x.held);
    }
    forall c | c in x.pending || c in x.held ensures c.Key() in x.owned && x.owned[c.Key()] == c.sequence {
      assert OwnedOk(multiset(x.pending), x.held, x.owner, c);
    }
  }

  lemma OnePerKey(x: Supply)
    requires Sound(x)
    ensures forall c, d | (c in x.pending || c in x.held) && (d in x.pending || d in x.held) && c.Key() == d.Key() :: c == d
  {
    forall c, d | (c in x.pending || c in x.held) && (d in x.pending || d in x.held) && c.Key() == d.Key() ensures c == d {
      assert OwnedOk(multiset(x.pending), x.held, x.owner, c) && OwnedOk(multiset(x.pending), x.held, x.owner, d);
    }
  }

  lemma GatesClosed(x: Supply)
    requires Sound(x)
    ensures forall c | c in x.pending :: multiset(x.pending)[c] == 1 && c !in x.held && c.parent !in x.conflicted
    ensures forall p | p in x.registering :: p !in x.conflicted && x.registering[p] in x.held && x.registering[p].parent == p
  {
    forall c | c in x.pending ensures multiset(x.pending)[c] == 1 && c !in x.held && c.parent !in x.conflicted {
      assert OwnedOk(multiset(x.pending), x.held, x.owner, c) && OwnerOk(multiset(x.pending), x.held, x.owner, c.Key());
      var k :| 0 <= k < |x.pending| && x.pending[k] == c;
      assert WaitOk(x.conflicted, x.pending, k);
    }
    forall p | p in x.registering ensures p !in x.conflicted && x.registering[p] in x.held && x.registering[p].parent == p {
      assert GateOk(x.registering, x.held, x.conflicted, p);
    }
  }

  lemma StepConstants(x: Supply, ev: Event)
    ensures Next(x, ev).capacity == x.capacity && Next(x, ev).concurrency == x.concurrency
  {
  }

  lemma {:induction false} RunConstants(x: Supply, events: seq<Event>)
    ensures Run(x, events).capacity == x.capacity && Run(x, events).concurrency == x.concurrency
    decreases |events|
  {
    if events != [] {
      StepConstants(x, events[0]);
      RunConstants(Next(x, events[0]), events[1..]);
    }
  }

  // ----- one registration per parent -----

  /** What a section may do to the gate that `c` holds for its parent: nothing, unless it is the end
      of that very registration; in particular no second candidate of the parent is taken. */
  ghost predicate GateKept(x: Supply, y: Supply, c: Candidate) {
    Registers(y, c) && |x.served| <= |y.served| && x.served == y.served[..|x.served|] && forall k | |x.served| <= k < |y.served| :: y.served[k] != c.parent
  }

  lemma TakeKeepsGate(x: Supply, now: nat, c: Candidate)
    requires Registers(x, c)
    ensures GateKept(x, Take(x, now), c)
  {
    if !x.stopping {
      var y := Expire(x, now);
      var k := NextIndex(y);
      if k >= 0 { assert Eligible(y.pending, y.registering, k) && y.pending[k].parent != c.parent; }
    }
  }

  lemma StepKeepsGate(x: Supply, ev: Event, c: Candidate)
    requires Registers(x, c) && !(ev.EFinished? && ev.c == c)
    ensures GateKept(x, Next(x, ev), c)
  {
    if ev.ETake? {
      TakeKeepsGate(x, ev.now, c);
    } else if ev.EFinished? {
      FinishKeepsGate(x, ev.c, c, ev.confirmed, ev.locked, ev.now, ev.delay);
    } else if !ev.ECleanup? {
      WorkersUndisturbed(x, ev);
    }
  }

  lemma FinishKeepsGate(x: Supply, d: Candidate, c: Candidate, confirmed: bool, locked: bool, now: nat, delay: nat)
    requires Registers(x, c) && c != d
    ensures GateKept(x, Finished(x, d, confirmed, locked, now, delay), c)
  {
  }

  /** One registration per parent, over every run: from the moment a candidate holds its parent's
      gate until that registration itself is finished, nobody else's cleanup releases the gate and
      no other candidate of the parent is taken. */
  lemma {:induction false} OneRegistrationPerParent(x: Supply, events: seq<Event>, c: Candidate)
    requires Registers(x, c) && forall k | 0 <= k < |events| && events[k].EFinished? :: events[k].c != c
    ensures GateKept(x, Run(x, events), c)
    decreases |events|
  {
    if events != [] {
      var y := Next(x, events[0]);
      StepKeepsGate(x, events[0], c);
      OneRegistrationPerParent(y, events[1..], c);
      var z := Run(x, events);
      forall k | |x.served| <= k < |z.served| ensures z.served[k] != c.parent {
        if k < |y.served| { assert z.served[k] == y.served[k]; }
      }
    }
  }

  lemma WorkersUndisturbed(x: Supply, ev: Event)
    requires !ev.ETake? && !ev.EFinished? && !ev.ECleanup?
    ensures SameWorkers(x, Next(x, ev))
  {
  }

  /** A released candidate does not register again while its worker holds it. */
  lemma ReleasedStays(x: Supply, ev: Event, c: Candidate)
    requires Sound(x) && c in x.held && !Registers(x, c)
    ensures !Registers(Next(x, ev), c)
    ensures ev != ECleanup(c) ==> c in Next(x, ev).held
  {
    if ev.ETake? {
      TakeIsNew(x, ev.now, c);
    } else if !ev.EFinished? && !ev.ECleanup? {
      WorkersUndisturbed(x, ev);
    }
  }

  /** What is taken was not held before. */
  lemma TakeIsNew(x: Supply, now: nat, c: Candidate)
    requires Sound(x) && c in x.held && !Registers(x, c)
    ensures !Registers(Take(x, now), c) && c in Take(x, now).held
  {
    if !x.stopping {
      ExpireKeeps(x, now);
      ServedIsNew(Expire(x, now), NextIndex(Expire(x, now)), c);
    }
  }

  lemma ServedIsNew(y: Supply, k: int, c: Candidate)
    requires Sound(y) && c in y.held && !Registers(y, c) && k < |y.pending|
    ensures k >= 0 ==> !Registers(Served(y, k), c) && c in Served(y, k).held
  {
    if k >= 0 {
      assert y.pending[k] in multiset(y.pending);
      OwnTaken(multiset(y.pending), y.held, y.owner, y.pending[k]);
    }
  }

  ghost predicate NeverCleans(events: seq<Event>, c: Candidate) { forall k | 0 <= k < |events| :: events[k] != ECleanup(c) }

  lemma {:induction false} ReleasedForGood(x: Supply, events: seq<Event>, c: Candidate)
    requires Sound(x) && c in x.held && !Registers(x, c) && NeverCleans(events, c)
    ensures c in Run(x, events).held && !Registers(Run(x, events), c)
    decreases |events|
  {
    if events != [] {
      StepKeeps(x, events[0]);
      ReleasedStays(x, events[0], c);
      ReleasedForGood(Next(x, events[0]), events[1..], c);
    }
  }

  /** So the second, later call for the same candidate changes nothing at all. */
  lemma SecondFinishHarmless(x: Supply, events: seq<Event>, c: Candidate, a: bool, b: bool, now: nat, delay: nat, now': nat, delay': nat)
    requires Sound(x) && c in x.held && 0 < delay && NeverCleans(events, c)
    ensures var y := Run(Finished(x, c, a, b, now, delay), events);
            Finished(y, c, false, false, now', delay') == y
  {
    FinishedKeeps(x, c, a, b, now, delay);
    ReleasedForGood(Finished(x, c, a, b, now, delay), events, c);
  }

  // ----- fairness -----

  /** No parent is served a ninth time in a row while a candidate of another parent could be. */
  lemma FairShare(x: Supply, now: nat, p: Id)
    requires Sound(x) && !x.stopping && NextIndex(Expire(x, now)) >= 0 && Take(x, now).served == x.served + [p]
    requires PARENT_SHARE <= |x.served| && forall k | |x.served| - PARENT_SHARE <= k < |x.served| :: x.served[k] == p
    ensures forall k | Eligible(x.pending, x.registering, k) :: x.pending[k].parent == p
  {
    StreakMeans(x.served, p, PARENT_SHARE);
    var y := Expire(x, now);
    var k := NextIndex(y);
    assert Serves(y.pending, y.registering, y.parentShare, y.lastParent, k);
    assert Served(y, k).served[|x.served|] == p;
  }
}
