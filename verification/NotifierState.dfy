/** The cancellation notifier's sections as functions on its fields. An entry is known by its
    token, so that a later entry of the same Instance is a different one. `reader` and
    `sending` record the calls that are out; `clock` is the latest time anybody has read. */
module NotifierState {
  import opened Base
  import opened Collections

  datatype Notice = Notice(instance: Id, group: Id, timeout: bool)

  datatype Entry = Entry(notice: Notice, deadline: nat, queued: bool, reading: bool, enumerated: bool, expired: bool, outstanding: int)

  datatype Notifier = Notifier(
    instanceCapacity: nat, targetCapacity: nat, started: bool, stopping: bool, cancelled: bool,
    entries: map<Id, nat>, table: map<nat, Entry>, next: nat, enumerating: seq<nat>, targets: seq<nat>, targetCount: int,
    reader: Option<nat>, sending: multiset<nat>, clock: nat)

  function Initial(instanceCapacity: nat, targetCapacity: nat): Notifier {
    Notifier(instanceCapacity, targetCapacity, false, false, false, map[], map[], 0, [], [], 0, None, multiset{}, 0)
  }

  /** The entry's own budget or the runtime has ended. */
  predicate Over(n: Notifier, e: Entry) { n.cancelled || e.deadline <= n.clock }

  // ----- sections -----

  predicate Admits(n: Notifier, notice: Notice) {
    && 0 < notice.instance && 0 < notice.group && n.started && !n.stopping
    && notice.instance !in n.entries && |n.entries| != n.instanceCapacity
  }

  function Hint(n: Notifier, notice: Notice, deadline: nat): Notifier {
    if Admits(n, notice) then
      n.(entries := n.entries[notice.instance := n.next], table := n.table[n.next := Entry(notice, deadline, true, false, false, false, 0)],
         enumerating := n.enumerating + [n.next], next := n.next + 1)
    else n
  }

  function TakeEnumeration(n: Notifier): Notifier {
    if !n.cancelled && n.reader.None? && n.targetCount < n.targetCapacity && n.enumerating != [] && n.enumerating[0] in n.table then
      var t := n.enumerating[0];
      n.(enumerating := n.enumerating[1..], table := n.table[t := n.table[t].(queued := false, reading := true)], reader := Some(t))
    else n
  }

  predicate Offers(n: Notifier) {
    n.reader.Some? && n.reader.value in n.table && !Over(n, n.table[n.reader.value]) && n.targetCount < n.targetCapacity
  }

  /** The reader admits one more address of the entry it reads. */
  function OfferTarget(n: Notifier): Notifier {
    if Offers(n) then
      var t := n.reader.value;
      n.(targets := n.targets + [t], targetCount := n.targetCount + 1,
         table := n.table[t := n.table[t].(outstanding := n.table[t].outstanding + 1)])
    else n
  }

  /** Give up an entry nobody works for any more. */
  function Release(n: Notifier, t: nat): Notifier {
    if t in n.table && n.table[t].enumerated && !n.table[t].reading && n.table[t].outstanding == 0 then
      n.(entries := n.entries - {n.table[t].notice.instance})
    else n
  }

  function ReaderBack(n: Notifier, complete: bool): Notifier {
    if n.reader.Some? && n.reader.value in n.table then
      var t := n.reader.value;
      var done := n.table[t].enumerated || complete || Over(n, n.table[t]);
      n.(table := n.table[t := n.table[t].(reading := false, enumerated := done, queued := !done)],
         enumerating := if done then n.enumerating else n.enumerating + [t], reader := None)
    else n
  }

  function FinishEnumeration(n: Notifier, complete: bool): Notifier {
    if n.reader.Some? then Release(ReaderBack(n, complete), n.reader.value) else n
  }

  function TakeTarget(n: Notifier): Notifier {
    if !n.cancelled && n.targets != [] then n.(targets := n.targets[1..], sending := n.sending + multiset{n.targets[0]}) else n
  }

  function SenderBack(n: Notifier, t: nat): Notifier
    requires t in n.table
  {
    n.(sending := n.sending - multiset{t}, targetCount := n.targetCount - 1,
       table := n.table[t := n.table[t].(outstanding := n.table[t].outstanding - 1)])
  }

  function FinishSend(n: Notifier, t: nat): Notifier {
    if t in n.sending && t in n.table then Release(SenderBack(n, t), t) else n
  }

  function OverSet(n: Notifier): set<nat> {
    set i | i in n.entries && n.entries[i] in n.table && Over(n, n.table[n.entries[i]]) :: n.entries[i]
  }

  /** Housekeeping marks what is over, drops its waiting work and gives up what is idle. */
  function Marked(n: Notifier): Notifier {
    var over := OverSet(n);
    n.(table := map t | t in n.table :: if t in over then n.table[t].(expired := true, enumerated := true, queued := false) else n.table[t],
       enumerating := Dropping(n.enumerating, over))
  }

  function Dropping(ts: seq<nat>, gone: set<nat>): seq<nat> {
    if ts == [] then [] else Dropping(ts[..|ts| - 1], gone) + if ts[|ts| - 1] in gone then [] else [ts[|ts| - 1]]
  }

  function ExpiredTokens(n: Notifier): set<nat> { set t | t in n.table && n.table[t].expired }

  function Swept(n: Notifier): Notifier {
    var kept := Dropping(n.targets, ExpiredTokens(n));
    n.(targets := kept, targetCount := n.targetCount - (|n.targets| - |kept|),
       table := map t | t in n.table :: if n.table[t].expired then n.table[t].(outstanding := n.table[t].outstanding - multiset(n.targets)[t]) else n.table[t])
  }

  predicate Idle(e: Entry) { e.enumerated && !e.reading && e.outstanding == 0 }

  function Emptied(n: Notifier): Notifier {
    n.(entries := map i | i in n.entries && !(n.entries[i] in n.table && Idle(n.table[n.entries[i]])) :: n.entries[i])
  }

  function Expire(n: Notifier): Notifier { Emptied(Swept(Marked(n))) }

  function Tick(n: Notifier, now: nat): Notifier { if n.clock <= now then n.(clock := now) else n }

  // ----- runs -----

  datatype Event =
    | EStart | EStop | ECancel | ETick(now: nat) | EHint(notice: Notice, deadline: nat) | ETakeEnumeration | EOfferTarget
    | EFinishEnumeration(complete: bool) | ETakeTarget | EFinishSend(t: nat) | EExpire

  function Next(n: Notifier, ev: Event): Notifier {
    match ev
    case EStart => if n.stopping then n else n.(started := true)
    case EStop => n.(stopping := true)
    case ECancel => n.(cancelled := true)
    case ETick(now) => Tick(n, now)
    case EHint(notice, deadline) => Hint(n, notice, deadline)
    case ETakeEnumeration => TakeEnumeration(n)
    case EOfferTarget => OfferTarget(n)
    case EFinishEnumeration(complete) => FinishEnumeration(n, complete)
    case ETakeTarget => TakeTarget(n)
    case EFinishSend(t) => FinishSend(n, t)
    case EExpire => Expire(n)
  }

  function Run(n: Notifier, events: seq<Event>): Notifier
    decreases |events|
  {
    if events == [] then n else Run(Next(n, events[0]), events[1..])
  }

  // ----- invariants -----

  function Load(targets: seq<nat>, sending: multiset<nat>): multiset<nat> { multiset(targets) + sending }

  /** What the work lists say about one token. */
  ghost predicate WorkOk(table: map<nat, Entry>, next: nat, enumerating: seq<nat>, load: multiset<nat>,
                         reader: Option<nat>, over: bool, clock: nat, t: nat)
  {
    && (t in table <==> t < next)
    && (t !in table ==> t !in multiset(enumerating) && t !in load && reader != Some(t))
    && (t in table ==>
          var e := table[t];
          && e.outstanding == load[t]
          && multiset(enumerating)[t] == (if e.queued then 1 else 0)
          && (e.reading <==> reader == Some(t))
          && (e.queued ==> !e.reading && !e.enumerated)
          && (!e.enumerated ==> e.queued || e.reading)
          && (e.expired ==> e.enumerated && (over || e.deadline <= clock)))
  }

  predicate Registered(entries: map<Id, nat>, table: map<nat, Entry>, t: nat) {
    t in table && table[t].notice.instance in entries && entries[table[t].notice.instance] == t
  }

  /** An entry is registered exactly while somebody works for it. */
  ghost predicate TokenOk(entries: map<Id, nat>, table: map<nat, Entry>, next: nat, enumerating: seq<nat>, load: multiset<nat>,
                          reader: Option<nat>, over: bool, clock: nat, t: nat)
  {
    && WorkOk(table, next, enumerating, load, reader, over, clock, t)
    && (Registered(entries, table, t) <==> t in table && !Idle(table[t]))
  }

  ghost predicate EntryOk(entries: map<Id, nat>, table: map<nat, Entry>, i: Id) {
    i in entries ==> entries[i] in table && table[entries[i]].notice.instance == i
  }

  ghost predicate TokensOk(entries: map<Id, nat>, table: map<nat, Entry>, next: nat, enumerating: seq<nat>, load: multiset<nat>,
                           reader: Option<nat>, over: bool, clock: nat)
  {
    forall t: nat {:trigger TokenOk(entries, table, next, enumerating, load, reader, over, clock, t)} ::
      TokenOk(entries, table, next, enumerating, load, reader, over, clock, t)
  }

  ghost predicate EntriesOk(entries: map<Id, nat>, table: map<nat, Entry>) {
    forall i {:trigger EntryOk(entries, table, i)} :: EntryOk(entries, table, i)
  }

  ghost predicate Inv(n: Notifier) {
    && TokensOk(n.entries, n.table, n.next, n.enumerating, Load(n.targets, n.sending), n.reader, n.cancelled, n.clock)
    && EntriesOk(n.entries, n.table)
    && n.targetCount == |n.targets| + |n.sending| <= n.targetCapacity
    && |n.entries| <= n.instanceCapacity
  }

  // ----- every section keeps them -----

  /** The invariant of one token, named by the state. */
  ghost predicate At(n: Notifier, t: nat) {
    TokenOk(n.entries, n.table, n.next, n.enumerating, Load(n.targets, n.sending), n.reader, n.cancelled, n.clock, t)
  }

  lemma Conclude(n: Notifier)
    requires forall t: nat :: At(n, t)
    requires forall i :: EntryOk(n.entries, n.table, i)
    requires n.targetCount == |n.targets| + |n.sending| <= n.targetCapacity && |n.entries| <= n.instanceCapacity
    ensures Inv(n)
  {
    forall t: nat ensures TokenOk(n.entries, n.table, n.next, n.enumerating, Load(n.targets, n.sending), n.reader, n.cancelled, n.clock, t) {
      assert At(n, t);
    }
  }

  lemma {:induction false} DroppingCount(ts: seq<nat>, gone: set<nat>, t: nat)
    ensures multiset(Dropping(ts, gone))[t] == if t in gone then 0 else multiset(ts)[t]
    ensures |Dropping(ts, gone)| <= |ts|
  {
    if ts != [] {
      DroppingCount(ts[..|ts| - 1], gone, t);
      assert ts == ts[..|ts| - 1] + [ts[|ts| - 1]];
    }
  }

  lemma HintAt(n: Notifier, notice: Notice, deadline: nat, t: nat)
    requires Inv(n) && Admits(n, notice)
    ensures At(Hint(n, notice, deadline), t)
  {
    var n' := Hint(n, notice, deadline);
    assert At(n, n.next) && At(n, t);
    assert multiset(n'.enumerating) == multiset(n.enumerating) + multiset{n.next};
  }

  lemma HintEntries(n: Notifier, notice: Notice, deadline: nat)
    requires Inv(n) && Admits(n, notice)
    ensures var n' := Hint(n, notice, deadline); EntriesOk(n'.entries, n'.table) && |n'.entries| <= n.instanceCapacity
  {
    var n' := Hint(n, notice, deadline);
    assert At(n, n.next);
    forall i ensures EntryOk(n'.entries, n'.table, i) { assert EntryOk(n.entries, n.table, i); }
    assert n'.entries.Keys == n.entries.Keys + {notice.instance};
  }

  lemma HintKeeps(n: Notifier, notice: Notice, deadline: nat)
    requires Inv(n)
    ensures Inv(Hint(n, notice, deadline))
  {
    if Admits(n, notice) {
      var n' := Hint(n, notice, deadline);
      forall t: nat ensures At(n', t) { HintAt(n, notice, deadline, t); }
      HintEntries(n, notice, deadline);
      Conclude(n');
    }
  }

  lemma TakeEnumerationKeeps(n: Notifier)
    requires Inv(n)
    ensures Inv(TakeEnumeration(n))
  {
    var n' := TakeEnumeration(n);
    if n' != n {
      var first := n.enumerating[0];
      assert n.enumerating == [first] + n'.enumerating;
      assert multiset(n.enumerating) == multiset{first} + multiset(n'.enumerating);
      assert At(n, first);
      forall t: nat ensures At(n', t) { assert At(n, t); }
      forall i ensures EntryOk(n'.entries, n'.table, i) { assert EntryOk(n.entries, n.table, i); }
      Conclude(n');
    }
  }

  lemma OfferTargetKeeps(n: Notifier)
    requires Inv(n)
    ensures Inv(OfferTarget(n))
  {
    if Offers(n) {
      var n' := OfferTarget(n);
      var r := n.reader.value;
      assert multiset(n'.targets) == multiset(n.targets) + multiset{r};
      assert At(n, r);
      forall t: nat ensures At(n', t) { assert At(n, t); }
      forall i ensures EntryOk(n'.entries, n'.table, i) { assert EntryOk(n.entries, n.table, i); }
      Conclude(n');
    }
  }

  lemma TakeTargetKeeps(n: Notifier)
    requires Inv(n)
    ensures Inv(TakeTarget(n))
  {
    var n' := TakeTarget(n);
    if n' != n {
      assert n.targets == [n.targets[0]] + n'.targets;
      assert Load(n'.targets, n'.sending) == Load(n.targets, n.sending);
      forall t: nat ensures At(n', t) { assert At(n, t); }
      Conclude(n');
    }
  }

  /** All is well but for one token, which may be due for release. */
  ghost predicate Nearly(n: Notifier, due: nat) {
    && Registered(n.entries, n.table, due)
    && (forall t: nat | t != due :: At(n, t))
    && At(n.(entries := if due in n.table && Idle(n.table[due]) then n.entries - {n.table[due].notice.instance} else n.entries), due)
    && (forall i :: EntryOk(n.entries, n.table, i))
    && n.targetCount == |n.targets| + |n.sending| <= n.targetCapacity && |n.entries| <= n.instanceCapacity
  }

  lemma ReleaseKeeps(n: Notifier, due: nat)
    requires Nearly(n, due)
    ensures Inv(Release(n, due))
  {
    var n' := Release(n, due);
    forall t: nat ensures At(n', t) {
      if t != due { assert At(n, t); }
    }
    forall i ensures EntryOk(n'.entries, n'.table, i) { assert EntryOk(n.entries, n.table, i); }
    SubsetCount(n'.entries.Keys, n.entries.Keys);
    Conclude(n');
  }

  lemma FinishEnumerationKeeps(n: Notifier, complete: bool)
    requires Inv(n)
    ensures Inv(FinishEnumeration(n, complete))
  {
    if n.reader.Some? {
      var r, n' := n.reader.value, ReaderBack(n, complete);
      assert At(n, r);
      assert multiset(n.enumerating + [r]) == multiset(n.enumerating) + multiset{r};
      forall t: nat | t != r ensures At(n', t) { assert At(n, t); }
      forall i ensures EntryOk(n'.entries, n'.table, i) { assert EntryOk(n.entries, n.table, i); }
      ReleaseKeeps(n', r);
    }
  }

  lemma FinishSendKeeps(n: Notifier, t: nat)
    requires Inv(n)
    ensures Inv(FinishSend(n, t))
  {
    if t in n.sending && t in n.table {
      var n' := SenderBack(n, t);
      assert At(n, t);
      forall u: nat | u != t ensures At(n', u) { assert At(n, u); }
      forall i ensures EntryOk(n'.entries, n'.table, i) { assert EntryOk(n.entries, n.table, i); }
      ReleaseKeeps(n', t);
    }
  }

  /** Like At, for a token that may be idle and not yet given up. */
  ghost predicate Loose(n: Notifier, t: nat) {
    && WorkOk(n.table, n.next, n.enumerating, Load(n.targets, n.sending), n.reader, n.cancelled, n.clock, t)
    && (t in n.table && !Idle(n.table[t]) ==> Registered(n.entries, n.table, t))
  }

  lemma OverTokens(n: Notifier, t: nat)
    requires Inv(n)
    ensures t in OverSet(n) <==> t in n.table && Registered(n.entries, n.table, t) && Over(n, n.table[t])
  {
    if t in OverSet(n) {
      var i :| i in n.entries && n.entries[i] == t;
      assert EntryOk(n.entries, n.table, i);
    }
  }

  lemma MarkedToken(n: Notifier, t: nat)
    requires Inv(n)
    ensures Loose(Marked(n), t)
    ensures t in n.table ==> Marked(n).table[t].expired == (n.table[t].expired || t in OverSet(n))
  {
    assert At(n, t);
    OverTokens(n, t);
    DroppingCount(n.enumerating, OverSet(n), t);
  }

  lemma SweptToken(m: Notifier, t: nat)
    requires Loose(m, t)
    ensures Loose(Swept(m), t)
  {
    DroppingCount(m.targets, ExpiredTokens(m), t);
  }

  lemma EmptiedToken(w: Notifier, t: nat)
    requires Loose(w, t)
    ensures At(Emptied(w), t)
  {
  }

  lemma ExpireKeeps(n: Notifier)
    requires Inv(n)
    ensures Inv(Expire(n))
  {
    var n' := Expire(n);
    forall t: nat ensures At(n', t) {
      MarkedToken(n, t);
      SweptToken(Marked(n), t);
      EmptiedToken(Swept(Marked(n)), t);
    }
    forall i ensures EntryOk(n'.entries, n'.table, i) { assert EntryOk(n.entries, n.table, i); }
    SubsetCount(n'.entries.Keys, n.entries.Keys);
    DroppingCount(n.targets, ExpiredTokens(Marked(n)), 0);
    Conclude(n');
  }

  lemma StepKeeps(n: Notifier, ev: Event)
    requires Inv(n)
    ensures Inv(Next(n, ev))
  {
    match ev
    case EHint(notice, deadline) => HintKeeps(n, notice, deadline);
    case ETakeEnumeration => TakeEnumerationKeeps(n);
    case EOfferTarget => OfferTargetKeeps(n);
    case EFinishEnumeration(complete) => FinishEnumerationKeeps(n, complete);
    case ETakeTarget => TakeTargetKeeps(n);
    case EFinishSend(t) => FinishSendKeeps(n, t);
    case EExpire => ExpireKeeps(n);
    case _ => SignalKeeps(n, ev);
  }

  lemma SignalKeeps(n: Notifier, ev: Event)
    requires Inv(n) && (ev.EStart? || ev.EStop? || ev.ECancel? || ev.ETick?)
    ensures Inv(Next(n, ev))
  {
    if ev.ECancel? || ev.ETick? {
      var n' := Next(n, ev);
      forall t: nat ensures TokenOk(n.entries, n.table, n.next, n.enumerating, Load(n.targets, n.sending), n.reader, n'.cancelled, n'.clock, t) {
        assert At(n, t);
      }
    }
  }

  lemma {:induction false} RunKeeps(n: Notifier, events: seq<Event>)
    requires Inv(n)
    ensures Inv(Run(n, events))
    decreases |events|
  {
    if events != [] {
      StepKeeps(n, events[0]);
      RunKeeps(Next(n, events[0]), events[1..]);
    }
  }

  lemma InitialOk(instanceCapacity: nat, targetCapacity: nat)
    ensures Inv(Initial(instanceCapacity, targetCapacity))
  {
    var n := Initial(instanceCapacity, targetCapacity);
    forall t: nat ensures At(n, t) {}
    Conclude(n);
  }

  // ----- what the notifier promises -----

  /** The outstanding counts of the listed entries. */
  function Sum(table: map<nat, Entry>, ts: seq<nat>): int
    requires forall k | 0 <= k < |ts| :: ts[k] in table
  {
    if ts == [] then 0 else table[ts[0]].outstanding + Sum(table, ts[1..])
  }

  lemma {:induction false} SumIsSize(table: map<nat, Entry>, ts: seq<nat>, load: multiset<nat>)
    requires forall k | 0 <= k < |ts| :: ts[k] in table && table[ts[k]].outstanding == load[ts[k]]
    requires forall a, b | 0 <= a < b < |ts| :: ts[a] != ts[b]
    requires forall t | t in load :: t in ts
    ensures Sum(table, ts) == |load|
  {
    if ts == [] {
      assert load == multiset{};
    } else {
      var rest := load[ts[0] := 0];
      assert rest[ts[0] := load[ts[0]]] == load;
      assert |load| == |rest| + load[ts[0]];
      forall t | t in rest ensures t in ts[1..] { assert t in load && t in ts; }
      SumIsSize(table, ts[1..], rest);
    }
  }

  /** In every run the outstanding counts of all entries add up to the target count, which
      stays within its capacity, as do the retained Instances. */
  lemma TargetsAddUp(instanceCapacity: nat, targetCapacity: nat, events: seq<Event>, ts: seq<nat>)
    requires var n := Run(Initial(instanceCapacity, targetCapacity), events);
             && (forall k | 0 <= k < |ts| :: ts[k] in n.table) && (forall t | t in n.table :: t in ts)
             && (forall a, b | 0 <= a < b < |ts| :: ts[a] != ts[b])
    ensures var n := Run(Initial(instanceCapacity, targetCapacity), events);
            Sum(n.table, ts) == n.targetCount <= n.targetCapacity && |n.entries| <= n.instanceCapacity
  {
    InitialOk(instanceCapacity, targetCapacity);
    RunKeeps(Initial(instanceCapacity, targetCapacity), events);
    var n := Run(Initial(instanceCapacity, targetCapacity), events);
    forall k | 0 <= k < |ts| ensures n.table[ts[k]].outstanding == Load(n.targets, n.sending)[ts[k]] { assert At(n, ts[k]); }
    forall t | t in Load(n.targets, n.sending) ensures t in ts { assert At(n, t); }
    SumIsSize(n.table, ts, Load(n.targets, n.sending));
  }

  lemma ExpiredStep(n: Notifier, ev: Event, t: nat)
    requires Inv(n) && t in n.table && n.table[t].expired
    ensures t in Next(n, ev).table && Next(n, ev).table[t].expired && Next(n, ev).table[t].outstanding <= n.table[t].outstanding
  {
    assert At(n, t) && At(n, n.next);
    if ev.EExpire? {
      ExpireOnlyDrops(n, t);
    } else if ev.EFinishSend? || ev.EFinishEnumeration? {
      ReturnOnlyDrops(n, ev, t);
    }
  }

  /** An expired entry gains no target and stays expired, whatever follows. */
  lemma {:induction false} ExpiredGainsNothing(n: Notifier, events: seq<Event>, t: nat)
    requires Inv(n) && t in n.table && n.table[t].expired
    ensures var m := Run(n, events); t in m.table && m.table[t].expired && m.table[t].outstanding <= n.table[t].outstanding
    decreases |events|
  {
    if events != [] {
      StepKeeps(n, events[0]);
      ExpiredStep(n, events[0], t);
      ExpiredGainsNothing(Next(n, events[0]), events[1..], t);
    }
  }

  lemma ReleaseOnlyDrops(n: Notifier, t: nat)
    ensures Release(n, t).table == n.table
    ensures forall i | i in Release(n, t).entries :: i in n.entries && Release(n, t).entries[i] == n.entries[i]
  {
  }

  lemma ReturnOnlyDrops(n: Notifier, ev: Event, t: nat)
    requires t in n.table && (ev.EFinishSend? || ev.EFinishEnumeration?)
    ensures t in Next(n, ev).table
    ensures var e, e' := n.table[t], Next(n, ev).table[t];
            e'.notice == e.notice && e'.expired == e.expired && e'.outstanding <= e.outstanding
    ensures forall i | i in Next(n, ev).entries :: i in n.entries && Next(n, ev).entries[i] == n.entries[i]
  {
    if ev.EFinishSend? {
      if ev.t in n.sending && ev.t in n.table { ReleaseOnlyDrops(SenderBack(n, ev.t), ev.t); }
    } else if n.reader.Some? {
      var back := ReaderBack(n, ev.complete);
      assert back.entries == n.entries && t in back.table && back.table[t].notice == n.table[t].notice;
      assert back.table[t].expired == n.table[t].expired && back.table[t].outstanding == n.table[t].outstanding;
      ReleaseOnlyDrops(back, n.reader.value);
    }
  }

  /** Housekeeping changes neither whose entry it is nor adds any work. */
  lemma ExpireOnlyDrops(n: Notifier, t: nat)
    requires t in n.table
    ensures t in Expire(n).table
    ensures var e, e' := n.table[t], Expire(n).table[t];
            e'.notice == e.notice && (e.expired ==> e'.expired) && e'.outstanding <= e.outstanding
    ensures forall i | i in Expire(n).entries :: i in n.entries && Expire(n).entries[i] == n.entries[i]
  {
    var m := Marked(n);
    var w := Swept(m);
    assert t in m.table && m.table[t].notice == n.table[t].notice && m.table[t].outstanding == n.table[t].outstanding;
    assert t in w.table && w.table[t].notice == m.table[t].notice && w.table[t].outstanding <= m.table[t].outstanding;
    assert w.entries == n.entries;
  }

  /** Who works for an entry finds it registered: a returning call gives up no other entry. */
  lemma LateReturnHarmless(n: Notifier, ev: Event, i: Id)
    requires Inv(n) && i in n.entries
    requires match ev case EFinishSend(t) => t != n.entries[i] case EFinishEnumeration(_) => n.reader != Some(n.entries[i]) case _ => false
    ensures i in Next(n, ev).entries && Next(n, ev).entries[i] == n.entries[i]
  {
    match ev
    case EFinishSend(t) => assert At(n, t);
    case EFinishEnumeration(_) => if n.reader.Some? { assert At(n, n.reader.value); }
  }

  /** Release happens once: a token given up is never registered again. */
  lemma GivenUpForGood(n: Notifier, ev: Event, t: nat)
    requires Inv(n) && t in n.table && !Registered(n.entries, n.table, t)
    ensures t in Next(n, ev).table && !Registered(Next(n, ev).entries, Next(n, ev).table, t)
  {
    assert At(n, t) && At(n, n.next);
    if ev.EExpire? {
      ExpireOnlyDrops(n, t);
    } else if ev.EFinishSend? || ev.EFinishEnumeration? {
      ReturnOnlyDrops(n, ev, t);
    }
  }

  lemma {:induction false} GivenUpInRun(n: Notifier, events: seq<Event>, t: nat)
    requires Inv(n) && t in n.table && !Registered(n.entries, n.table, t)
    ensures t in Run(n, events).table && !Registered(Run(n, events).entries, Run(n, events).table, t)
    decreases |events|
  {
    if events != [] {
      StepKeeps(n, events[0]);
      GivenUpForGood(n, events[0], t);
      GivenUpInRun(Next(n, events[0]), events[1..], t);
    }
  }
}
