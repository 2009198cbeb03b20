/** The queue of completion checks: hints of one Instance share a position, a hint during a
    check asks for one follow-up, and recovery admits only below half capacity. Times are
    positive; zero is the zero value. */
module CheckQueue {
  import opened Base
  import opened Collections

  const MERGE_WINDOW: nat := 100

  datatype Check = Check(due: nat, processing: bool, nextDue: nat)

  datatype Checks = Checks(capacity: nat, started: bool, stopping: bool, cancelled: bool, entries: map<Id, Check>, pending: seq<Id>)

  function Empty(capacity: nat): Checks { Checks(capacity, false, false, false, map[], []) }

  // ----- sections -----

  /** The first hint during a check sets the follow-up's time; later ones cannot extend it. */
  function Merge(x: Checks, id: Id, now: nat): Checks
    requires id in x.entries
  {
    var e := x.entries[id];
    if e.processing && e.nextDue == 0 then x.(entries := x.entries[id := e.(nextDue := now + MERGE_WINDOW)]) else x
  }

  function Add(x: Checks, id: Id, now: nat): Checks {
    x.(entries := x.entries[id := Check(now + MERGE_WINDOW, false, 0)], pending := x.pending + [id])
  }

  predicate Accepts(x: Checks, id: Id) { 0 < id && x.started && !x.stopping && (id in x.entries || |x.entries| != x.capacity) }

  function Hint(x: Checks, id: Id, now: nat): Checks {
    if !Accepts(x, id) then x else if id in x.entries then Merge(x, id, now) else Add(x, id, now)
  }

  function Threshold(capacity: nat): nat { if capacity / 2 < 1 then 1 else capacity / 2 }

  predicate Recovers(x: Checks, id: Id) {
    0 < id && x.started && !x.stopping && !x.cancelled && (id in x.entries || |x.entries| < Threshold(x.capacity))
  }

  function HintRecovery(x: Checks, id: Id, now: nat): Checks {
    if !Recovers(x, id) then x else if id in x.entries then Merge(x, id, now) else Add(x, id, now)
  }

  predicate DueAt(x: Checks, now: nat, k: int) { 0 <= k < |x.pending| && x.pending[k] in x.entries && x.entries[x.pending[k]].due <= now }

  ghost predicate FirstDue(x: Checks, now: nat, k: int) { DueAt(x, now, k) && forall j | j < k :: !DueAt(x, now, j) }

  ghost predicate TakesNothing(x: Checks, now: nat) { x.cancelled || forall k :: !DueAt(x, now, k) }

  function Started(x: Checks, k: nat): Checks
    requires k < |x.pending| && x.pending[k] in x.entries
  {
    x.(pending := x.pending[..k] + x.pending[k + 1..], entries := x.entries[x.pending[k] := x.entries[x.pending[k]].(processing := true)])
  }

  /** The first entry whose window has passed is checked next. */
  ghost function Take(x: Checks, now: nat, k: int): Checks {
    if !x.cancelled && FirstDue(x, now, k) then Started(x, k) else x
  }

  function Complete(x: Checks, id: Id, terminal: bool): Checks {
    if id in x.entries && x.entries[id].processing then
      if !terminal && x.entries[id].nextDue != 0 && !x.cancelled then
        x.(entries := x.entries[id := Check(x.entries[id].nextDue, false, 0)], pending := x.pending + [id])
      else x.(entries := x.entries - {id})
    else x
  }

  datatype Event =
    | EStart | EStop | ECancel | EHint(id: Id, now: nat) | EHintRecovery(id: Id, now: nat) | ETake(now: nat, k: int)
    | EComplete(id: Id, terminal: bool)

  ghost function Next(x: Checks, ev: Event): Checks {
    match ev
    case EStart => if x.stopping then x else x.(started := true)
    case EStop => x.(stopping := true)
    case ECancel => x.(cancelled := true)
    case EHint(id, now) => Hint(x, id, now)
    case EHintRecovery(id, now) => HintRecovery(x, id, now)
    case ETake(now, k) => Take(x, now, k)
    case EComplete(id, terminal) => Complete(x, id, terminal)
  }

  ghost function Run(x: Checks, events: seq<Event>): Checks
    decreases |events|
  {
    if events == [] then x else Run(Next(x, events[0]), events[1..])
  }

  // ----- invariants -----

  /** An entry waits in the list once, or is being checked. */
  ghost predicate EntryOk(entries: map<Id, Check>, pending: seq<Id>, id: Id) {
    && multiset(pending)[id] == (if id in entries && !entries[id].processing then 1 else 0)
    && (id in entries ==> 0 < entries[id].due && (entries[id].nextDue != 0 ==> entries[id].processing))
  }

  ghost predicate Inv(x: Checks) {
    && (forall id {:trigger EntryOk(x.entries, x.pending, id)} :: EntryOk(x.entries, x.pending, id))
    && |x.entries| <= x.capacity && 0 < x.capacity
  }

  lemma MergeKeeps(x: Checks, id: Id, now: nat)
    requires Inv(x) && id in x.entries
    ensures Inv(Merge(x, id, now))
  {
    var y := Merge(x, id, now);
    forall i ensures EntryOk(y.entries, y.pending, i) { assert EntryOk(x.entries, x.pending, i); }
    assert y.entries.Keys == x.entries.Keys;
  }

  lemma AddKeeps(x: Checks, id: Id, now: nat)
    requires Inv(x) && id !in x.entries && |x.entries| < x.capacity
    ensures Inv(Add(x, id, now))
  {
    var y := Add(x, id, now);
    forall i ensures EntryOk(y.entries, y.pending, i) { assert EntryOk(x.entries, x.pending, i); }
    assert y.entries.Keys == x.entries.Keys + {id};
  }

  lemma StartedKeeps(x: Checks, k: nat)
    requires Inv(x) && k < |x.pending| && x.pending[k] in x.entries
    ensures Inv(Started(x, k)) && !x.entries[x.pending[k]].processing
  {
    var y, id := Started(x, k), x.pending[k];
    assert x.pending == x.pending[..k] + [id] + x.pending[k + 1..];
    assert EntryOk(x.entries, x.pending, id);
    forall i ensures EntryOk(y.entries, y.pending, i) { assert EntryOk(x.entries, x.pending, i); }
    assert y.entries.Keys == x.entries.Keys;
  }

  lemma CompleteKeeps(x: Checks, id: Id, terminal: bool)
    requires Inv(x)
    ensures Inv(Complete(x, id, terminal))
  {
    var y := Complete(x, id, terminal);
    forall i ensures EntryOk(y.entries, y.pending, i) { CompleteEntry(x, id, terminal, i); }
    SubsetCount(y.entries.Keys, x.entries.Keys);
  }

  lemma CompleteEntry(x: Checks, id: Id, terminal: bool, i: Id)
    requires Inv(x)
    ensures EntryOk(Complete(x, id, terminal).entries, Complete(x, id, terminal).pending, i)
  {
    assert EntryOk(x.entries, x.pending, i);
  }

  lemma StepKeeps(x: Checks, ev: Event)
    requires Inv(x)
    ensures Inv(Next(x, ev))
  {
    match ev
    case EHint(id, now) => if Accepts(x, id) { if id in x.entries { MergeKeeps(x, id, now); } else { AddKeeps(x, id, now); } }
    case EHintRecovery(id, now) =>
      if Recovers(x, id) { if id in x.entries { MergeKeeps(x, id, now); } else { AddKeeps(x, id, now); } }
    case ETake(now, k) => if !x.cancelled && FirstDue(x, now, k) { StartedKeeps(x, k); }
    case EComplete(id, terminal) => CompleteKeeps(x, id, terminal);
    case _ =>
  }

  lemma {:induction false} RunKeeps(x: Checks, events: seq<Event>)
    requires Inv(x)
    ensures Inv(Run(x, events))
    decreases |events|
  {
    if events != [] {
      StepKeeps(x, events[0]);
      RunKeeps(Next(x, events[0]), events[1..]);
    }
  }

  // ----- no lost hint -----

  /** A check that begins later is still due for the ID. */
  predicate Owed(x: Checks, id: Id) { id in x.entries && (!x.entries[id].processing || x.entries[id].nextDue != 0) }

  lemma AcceptedIsOwed(x: Checks, id: Id, now: nat)
    requires Inv(x)
    ensures Accepts(x, id) ==> Owed(Hint(x, id, now), id)
    ensures Recovers(x, id) ==> Owed(HintRecovery(x, id, now), id)
    ensures Recovers(x, id) && id !in x.entries ==> |HintRecovery(x, id, now).entries| <= Threshold(x.capacity)
  {
    var y := HintRecovery(x, id, now);
    if Recovers(x, id) && id !in x.entries { assert y.entries.Keys == x.entries.Keys + {id}; }
  }

  /** Only a check that begins after the hint, a terminal outcome or the cancelled run ends
      what is owed. */
  predicate Settles(x: Checks, ev: Event, id: Id) {
    || (ev.ETake? && 0 <= ev.k < |x.pending| && x.pending[ev.k] == id)
    || (ev.EComplete? && ev.id == id && (ev.terminal || x.cancelled))
  }

  lemma OwedStays(x: Checks, ev: Event, id: Id)
    requires Inv(x) && Owed(x, id) && !Settles(x, ev, id)
    ensures Owed(Next(x, ev), id)
  {
  }

  ghost predicate Unsettled(x: Checks, events: seq<Event>, id: Id)
    decreases |events|
  {
    events != [] ==> !Settles(x, events[0], id) && Unsettled(Next(x, events[0]), events[1..], id)
  }

  /** The time of the check that is owed. */
  function DueOf(x: Checks, id: Id): nat
    requires id in x.entries
  {
    if x.entries[id].processing then x.entries[id].nextDue else x.entries[id].due
  }

  lemma DueStays(x: Checks, ev: Event, id: Id)
    requires Inv(x) && Owed(x, id) && !Settles(x, ev, id)
    ensures Owed(Next(x, ev), id) && DueOf(Next(x, ev), id) == DueOf(x, id)
  {
    assert EntryOk(x.entries, x.pending, id);
    OwedStays(x, ev, id);
  }

  /** An owed check keeps its time through every run until it is settled: hints that merge with it,
      the end of a check in progress and everything else leave it where it is. */
  lemma {:induction false} DueNeverLater(x: Checks, events: seq<Event>, id: Id)
    requires Inv(x) && Owed(x, id) && Unsettled(x, events, id)
    ensures Owed(Run(x, events), id) && DueOf(Run(x, events), id) == DueOf(x, id)
    decreases |events|
  {
    if events != [] {
      StepKeeps(x, events[0]);
      DueStays(x, events[0], id);
      DueNeverLater(Next(x, events[0]), events[1..], id);
    }
  }

  /** No accepted hint is lost: whatever follows, until it is settled a check stays owed, at the time
      it had when the hint was accepted. */
  lemma HintNotLost(x: Checks, id: Id, now: nat, recovery: bool, events: seq<Event>)
    requires Inv(x) && (if recovery then Recovers(x, id) else Accepts(x, id))
    requires Unsettled(Next(x, if recovery then EHintRecovery(id, now) else EHint(id, now)), events, id)
    ensures var y := Next(x, if recovery then EHintRecovery(id, now) else EHint(id, now));
            Owed(y, id) && Owed(Run(y, events), id) && DueOf(Run(y, events), id) == DueOf(y, id)
  {
    StepKeeps(x, if recovery then EHintRecovery(id, now) else EHint(id, now));
    AcceptedIsOwed(x, id, now);
    DueNeverLater(Next(x, if recovery then EHintRecovery(id, now) else EHint(id, now)), events, id);
  }

  // ----- in place -----

  class Queue {
    const capacity: nat
    var started: bool
    var stopping: bool
    var cancelled: bool
    var entries: map<Id, Check>
    var pending: seq<Id>

    ghost function View(): Checks
      reads this
    {
      Checks(capacity, started, stopping, cancelled, entries, pending)
    }

    constructor (capacity: nat)
      ensures View() == Empty(capacity)
    {
      this.capacity := capacity;
      started, stopping, cancelled, entries, pending := false, false, false, map[], [];
    }

    method Start() returns (ok: bool)
      modifies `started
      ensures View() == Next(old(View()), EStart) && ok == (!old(started) && !stopping)
    {
      ok := !started && !stopping;
      if ok { started := true; }
    }

    method Stop()
      modifies `stopping
      ensures View() == Next(old(View()), EStop)
    {
      stopping := true;
    }

    /** The drain budget is used up. */
    method Cancel()
      modifies `cancelled
      ensures View() == Next(old(View()), ECancel)
    {
      cancelled := true;
    }

    method MergeLocked(id: Id, now: nat) returns (merged: bool)
      modifies `entries
      ensures merged == (id in old(entries)) && View() == if merged then Merge(old(View()), id, now) else old(View())
    {
      if id !in entries { return false; }
      if entries[id].processing && entries[id].nextDue == 0 {
        entries := entries[id := entries[id].(nextDue := now + MERGE_WINDOW)];
      }
      return true;
    }

    method AddLocked(id: Id, now: nat)
      modifies `entries, `pending
      ensures View() == Add(old(View()), id, now)
    {
      entries := entries[id := Check(now + MERGE_WINDOW, false, 0)];
      pending := pending + [id];
    }

    method AcceptHint(id: Id, now: nat) returns (ok: bool)
      modifies `entries, `pending
      ensures View() == Hint(old(View()), id, now) && ok == Accepts(old(View()), id)
    {
      if id <= 0 || !started || stopping { return false; }
      var merged := MergeLocked(id, now);
      if merged { return true; }
      if |entries| == capacity { return false; }
      AddLocked(id, now);
      return true;
    }

    /** One pass of the recovery wait; None means to wait for a change. */
    method AcceptRecovery(id: Id, now: nat) returns (r: Option<bool>)
      requires 0 < id
      modifies `entries, `pending
      ensures View() == HintRecovery(old(View()), id, now)
      ensures r == if !started || stopping || cancelled then Some(false) else if Recovers(old(View()), id) then Some(true) else None
    {
      if !started || stopping || cancelled { return Some(false); }
      var merged := MergeLocked(id, now);
      if merged { return Some(true); }
      if |entries| < Threshold(capacity) {
        AddLocked(id, now);
        return Some(true);
      }
      return None;
    }

    /** Search in list order for an elapsed window, noting the earliest other one. */
    method TakeDue(now: nat) returns (r: Option<Id>, earliest: nat)
      requires Inv(View())
      modifies `entries, `pending
      ensures Inv(View())
      ensures r.None? ==> View() == old(View()) && TakesNothing(old(View()), now)
      ensures r.Some? ==> exists k :: 0 <= k < |old(pending)| && FirstDue(old(View()), now, k) && r.value == old(pending)[k] && View() == Take(old(View()), now, k)
      ensures r.None? && !cancelled ==> (earliest == 0 <==> pending == []) && forall k | 0 <= k < |pending| :: pending[k] in entries && earliest <= entries[pending[k]].due
    {
      r, earliest := None, 0;
      if cancelled { return; }
      var k := 0;
      while k < |pending|
        invariant 0 <= k <= |pending|
        invariant forall j | j < k :: !DueAt(View(), now, j)
        invariant (earliest == 0 <==> k == 0) && forall j | 0 <= j < k :: pending[j] in entries && earliest <= entries[pending[j]].due
      {
        var id := pending[k];
        assert id in multiset(pending) && EntryOk(entries, pending, id);
        if entries[id].due <= now {
          StartedKeeps(View(), k);
          Begin(k);
          return Some(id), earliest;
        }
        if earliest == 0 || entries[id].due < earliest { earliest := entries[id].due; }
        k := k + 1;
      }
    }

    method Begin(k: nat)
      requires k < |pending| && pending[k] in entries
      modifies `entries, `pending
      ensures View() == Started(old(View()), k)
    {
      var id := pending[k];
      pending := pending[..k] + pending[k + 1..];
      entries := entries[id := entries[id].(processing := true)];
    }

    method CompleteCheck(id: Id, terminal: bool)
      requires id in entries && entries[id].processing
      modifies `entries, `pending
      ensures View() == Complete(old(View()), id, terminal)
    {
      if !terminal && entries[id].nextDue != 0 && !cancelled {
        entries := entries[id := Check(entries[id].nextDue, false, 0)];
        pending := pending + [id];
      } else {
        entries := entries - {id};
      }
    }
  }
}
