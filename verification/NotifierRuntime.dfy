/** The notifier in place: its sections as methods and its housekeeping loops, each proved
    equal to the section's function. */
module NotifierRuntime {
  import opened Base
  import opened Collections
  import opened NotifierState

  // ----- housekeeping loops -----

  function AfterMark(e: Entry): Entry { e.(expired := true, enumerated := true, queued := false) }

  lemma {:induction false} DroppingTwice(ts: seq<nat>, a: set<nat>, t: nat)
    ensures Dropping(Dropping(ts, a), {t}) == Dropping(ts, a + {t})
  {
    if ts != [] {
      var init, last := ts[..|ts| - 1], ts[|ts| - 1];
      DroppingTwice(init, a, t);
      var kept := Dropping(init, a);
      if last in a {
        assert kept + [] == kept;
      } else {
        assert (kept + [last])[..|kept|] == kept;
      }
    }
  }

  lemma {:induction false} DroppingNone(ts: seq<nat>)
    ensures Dropping(ts, {}) == ts
  {
    if ts != [] { DroppingNone(ts[..|ts| - 1]); }
  }

  /** The entries of some Instances that are over. */
  ghost function OverIn(n: Notifier, ids: set<Id>): set<nat> {
    set i | i in ids && i in n.entries && n.entries[i] in n.table && Over(n, n.table[n.entries[i]]) :: n.entries[i]
  }

  lemma OverNext(n: Notifier, ids: set<Id>, id: Id)
    requires id in n.entries && n.entries[id] in n.table
    ensures OverIn(n, ids + {id}) == if Over(n, n.table[n.entries[id]]) then OverIn(n, ids) + {n.entries[id]} else OverIn(n, ids)
  {
  }

  /** The entries in `marked` are marked and out of the reader's queue. */
  ghost predicate MarkedBy(n: Notifier, marked: set<nat>, table: map<nat, Entry>, enumerating: seq<nat>) {
    && table.Keys == n.table.Keys && enumerating == Dropping(n.enumerating, marked)
    && forall t | t in n.table :: table[t] == if t in marked then AfterMark(n.table[t]) else n.table[t]
  }

  lemma MarkOne(n: Notifier, marked: set<nat>, table: map<nat, Entry>, enumerating: seq<nat>, t: nat)
    requires MarkedBy(n, marked, table, enumerating) && t in n.table
    ensures MarkedBy(n, marked + {t}, table[t := AfterMark(n.table[t])], Dropping(enumerating, {t}))
  {
    DroppingTwice(n.enumerating, marked, t);
  }

  lemma MarkedAll(n: Notifier, table: map<nat, Entry>, enumerating: seq<nat>)
    requires MarkedBy(n, OverIn(n, n.entries.Keys), table, enumerating)
    ensures table == Marked(n).table && enumerating == Marked(n).enumerating
  {
    assert OverIn(n, n.entries.Keys) == OverSet(n);
  }

  /** Mark every registered entry that is over and take it out of the reader's queue. */
  method MarkOver(ghost n: Notifier, entries: map<Id, nat>, table: map<nat, Entry>, enumerating: seq<nat>, cancelled: bool, clock: nat)
    returns (table': map<nat, Entry>, enumerating': seq<nat>)
    requires EntriesOk(n.entries, n.table)
    requires entries == n.entries && table == n.table && enumerating == n.enumerating && cancelled == n.cancelled && clock == n.clock
    ensures table' == Marked(n).table && enumerating' == Marked(n).enumerating
  {
    table', enumerating' := table, enumerating;
    var ids := entries.Keys;
    DroppingNone(enumerating);
    assert entries.Keys - ids == {} && OverIn(n, {}) == {};
    while ids != {}
      invariant ids <= entries.Keys && MarkedBy(n, OverIn(n, entries.Keys - ids), table', enumerating')
      decreases ids
    {
      var id, rest := Pick(ids);
      assert EntryOk(n.entries, n.table, id);
      var t := entries[id];
      OverNext(n, entries.Keys - ids, id);
      assert entries.Keys - ids + {id} == entries.Keys - rest;
      if cancelled || table[t].deadline <= clock {
        MarkOne(n, OverIn(n, entries.Keys - ids), table', enumerating', t);
        table', enumerating' := table'[t := AfterMark(table[t])], Dropping(enumerating', {t});
      }
      ids := rest;
    }
    assert entries.Keys - ids == entries.Keys;
    MarkedAll(n, table', enumerating');
  }

  /** The table once the expired ones among the first targets are dropped. */
  function SweptTable(table: map<nat, Entry>, seen: seq<nat>): map<nat, Entry> {
    map t | t in table :: if table[t].expired then table[t].(outstanding := table[t].outstanding - multiset(seen)[t]) else table[t]
  }

  lemma SweepOne(table: map<nat, Entry>, seen: seq<nat>, t: nat)
    requires t in table
    ensures var before, after := SweptTable(table, seen), SweptTable(table, seen + [t]);
            && before[t].expired == table[t].expired
            && after == if table[t].expired then before[t := before[t].(outstanding := before[t].outstanding - 1)] else before
  {
    assert multiset(seen + [t]) == multiset(seen) + multiset{t};
  }

  lemma DroppingOne(seen: seq<nat>, gone: set<nat>, t: nat)
    ensures Dropping(seen + [t], gone) == if t in gone then Dropping(seen, gone) else Dropping(seen, gone) + [t]
  {
    assert (seen + [t])[..|seen|] == seen;
  }

  /** Drop the waiting targets of expired entries. */
  method Sweep(ghost n: Notifier, table: map<nat, Entry>, targets: seq<nat>, targetCount: int)
    returns (table': map<nat, Entry>, kept: seq<nat>, targetCount': int)
    requires table == n.table && targets == n.targets && targetCount == n.targetCount
    requires forall k | 0 <= k < |targets| :: targets[k] in table
    ensures table' == Swept(n).table && kept == Swept(n).targets && targetCount' == Swept(n).targetCount
  {
    table', kept, targetCount' := table, [], targetCount;
    assert SweptTable(table, []) == table;
    for i := 0 to |targets|
      invariant table' == SweptTable(table, targets[..i])
      invariant kept == Dropping(targets[..i], ExpiredTokens(n)) && targetCount' == targetCount - (i - |kept|)
    {
      var t := targets[i];
      assert targets[..i + 1] == targets[..i] + [t];
      SweepOne(table, targets[..i], t);
      DroppingOne(targets[..i], ExpiredTokens(n), t);
      if table'[t].expired {
        targetCount' := targetCount' - 1;
        table' := table'[t := table'[t].(outstanding := table'[t].outstanding - 1)];
      } else {
        kept := kept + [t];
      }
    }
    assert targets[..|targets|] == targets;
    assert SweptTable(table, targets) == Swept(n).table;
  }

  /** Give up every idle entry. */
  method GiveUpIdle(ghost n: Notifier, entries: map<Id, nat>, table: map<nat, Entry>) returns (entries': map<Id, nat>)
    requires entries == n.entries && table == n.table && forall i | i in entries :: entries[i] in table
    ensures entries' == Emptied(n).entries
  {
    entries' := entries;
    var ids := entries.Keys;
    while ids != {}
      invariant ids <= entries.Keys
      invariant entries' == map i | i in entries && (i in ids || !Idle(table[entries[i]])) :: entries[i]
      decreases ids
    {
      var id, rest := Pick(ids);
      if Idle(table[entries[id]]) { entries' := entries' - {id}; }
      ids := rest;
    }
    forall i | i in entries ensures i in entries' <==> i in Emptied(n).entries { assert entries[i] in table; }
  }

  // ----- the notifier -----

  class Runtime {
    const instanceCapacity: nat
    const targetCapacity: nat
    var started: bool
    var stopping: bool
    var cancelled: bool
    var entries: map<Id, nat>
    var table: map<nat, Entry>
    var next: nat
    var enumerating: seq<nat>
    var targets: seq<nat>
    var targetCount: int
    ghost var reader: Option<nat>
    ghost var sending: multiset<nat>
    var clock: nat

    ghost function View(): Notifier
      reads this
    {
      Notifier(instanceCapacity, targetCapacity, started, stopping, cancelled, entries, table, next, enumerating, targets, targetCount,
               reader, sending, clock)
    }

    constructor (instanceCapacity: nat, targetCapacity: nat)
      ensures View() == Initial(instanceCapacity, targetCapacity)
    {
      this.instanceCapacity, this.targetCapacity := instanceCapacity, targetCapacity;
      started, stopping, cancelled, entries, table, next := false, false, false, map[], map[], 0;
      enumerating, targets, targetCount, clock := [], [], 0, 0;
      reader, sending := None, multiset{};
    }

    method Start() returns (ok: bool)
      modifies `started
      ensures View() == Next(old(View()), EStart) && ok == (!old(started) && !stopping)
    {
      ok := !started && !stopping;
      if ok { started := true; }
    }

    method Stop()
      modifies `stopping
      ensures View() == Next(old(View()), EStop)
    {
      stopping := true;
    }

    /** The drain budget is used up. */
    method Cancel()
      modifies `cancelled
      ensures View() == Next(old(View()), ECancel)
    {
      cancelled := true;
    }

    /** Merge with a retained equal notice, admit a new one, or refuse. */
    method AcceptHint(notice: Notice, deadline: nat) returns (ok: bool)
      requires Inv(View())
      modifies `entries, `table, `next, `enumerating
      ensures View() == Hint(old(View()), notice, deadline)
      ensures ok <==> Admits(old(View()), notice) || (0 < notice.instance && 0 < notice.group && started && !stopping
                      && notice.instance in old(entries) && old(entries)[notice.instance] in old(table)
                      && old(table)[old(entries)[notice.instance]].notice == notice)
    {
      if notice.instance <= 0 || notice.group <= 0 || !started || stopping { return false; }
      assert EntryOk(entries, table, notice.instance);
      if notice.instance in entries { return table[entries[notice.instance]].notice == notice; }
      if |entries| == instanceCapacity { return false; }
      entries := entries[notice.instance := next];
      table := table[next := Entry(notice, deadline, true, false, false, false, 0)];
      enumerating, next := enumerating + [next], next + 1;
      return true;
    }

    method StartReading() returns (t: Option<nat>)
      requires Inv(View()) && reader.None?
      modifies `enumerating, `table, `reader
      ensures View() == TakeEnumeration(old(View())) && t == reader
    {
      if cancelled || targetCount >= targetCapacity || enumerating == [] { return None; }
      var first := enumerating[0];
      assert first in multiset(enumerating) && At(View(), first);
      enumerating := enumerating[1..];
      table := table[first := table[first].(queued := false, reading := true)];
      reader := Some(first);
      return Some(first);
    }

    method Offer(t: nat) returns (ok: bool)
      requires Inv(View()) && reader == Some(t)
      modifies `targets, `targetCount, `table
      ensures View() == OfferTarget(old(View())) && ok == Offers(old(View()))
    {
      assert At(View(), t);
      if cancelled || table[t].deadline <= clock || targetCount >= targetCapacity { return false; }
      targets, targetCount := targets + [t], targetCount + 1;
      table := table[t := table[t].(outstanding := table[t].outstanding + 1)];
      return true;
    }

    method ReleaseIdle(t: nat)
      requires t in table
      modifies `entries
      ensures View() == Release(old(View()), t)
    {
      if table[t].enumerated && !table[t].reading && table[t].outstanding == 0 {
        entries := entries - {table[t].notice.instance};
      }
    }

    method EndReading(t: nat, complete: bool)
      requires Inv(View()) && reader == Some(t)
      modifies `table, `enumerating, `reader, `entries
      ensures View() == FinishEnumeration(old(View()), complete)
    {
      assert At(View(), t);
      var done := table[t].enumerated || complete || cancelled || table[t].deadline <= clock;
      table := table[t := table[t].(reading := false, enumerated := done, queued := !done)];
      if !done { enumerating := enumerating + [t]; }
      reader := None;
      ReleaseIdle(t);
    }

    method StartSending() returns (t: Option<nat>)
      modifies `targets, `sending
      ensures View() == TakeTarget(old(View()))
      ensures t == if old(cancelled) || old(targets) == [] then None else Some(old(targets)[0])
    {
      if cancelled || targets == [] { return None; }
      t := Some(targets[0]);
      sending, targets := sending + multiset{targets[0]}, targets[1..];
    }

    /** The capacity is given back only when the call has returned. */
    method EndSending(t: nat)
      requires Inv(View()) && t in sending
      modifies `targetCount, `table, `sending, `entries
      ensures View() == FinishSend(old(View()), t)
    {
      assert At(View(), t);
      SendReturned(t);
      ReleaseIdle(t);
    }

    method SendReturned(t: nat)
      requires t in table
      modifies `targetCount, `table, `sending
      ensures View() == SenderBack(old(View()), t)
    {
      LowerCounts(t);
      sending := sending - multiset{t};
    }

    method LowerCounts(t: nat)
      requires t in table
      modifies `targetCount, `table
      ensures View() == old(View()).(targetCount := old(targetCount) - 1,
                                     table := old(table)[t := old(table)[t].(outstanding := old(table)[t].outstanding - 1)])
    {
      targetCount := targetCount - 1;
      table := table[t := table[t].(outstanding := table[t].outstanding - 1)];
    }

    method Housekeep()
      requires Inv(View())
      modifies `table, `enumerating, `targets, `targetCount, `entries
      ensures View() == Expire(old(View()))
    {
      MarkSection();
      SweepSection();
      EmptySection();
    }

    method MarkSection()
      requires Inv(View())
      modifies `table, `enumerating
      ensures View() == Marked(old(View())) && forall t | t in multiset(targets) :: t in table
      ensures forall i | i in entries :: entries[i] in table
    {
      forall t | t in multiset(targets) ensures t in table { assert At(View(), t); }
      forall i | i in entries ensures entries[i] in table { assert EntryOk(entries, table, i); }
      table, enumerating := MarkOver(View(), entries, table, enumerating, cancelled, clock);
    }

    method SweepSection()
      requires forall t | t in multiset(targets) :: t in table
      modifies `table, `targets, `targetCount
      ensures View() == Swept(old(View())) && table.Keys == old(table).Keys
    {
      forall k | 0 <= k < |targets| ensures targets[k] in table { assert targets[k] in multiset(targets); }
      table, targets, targetCount := Sweep(View(), table, targets, targetCount);
    }

    method EmptySection()
      requires forall i | i in entries :: entries[i] in table
      modifies `entries
      ensures View() == Emptied(old(View()))
    {
      entries := GiveUpIdle(View(), entries, table);
    }
  }
}
