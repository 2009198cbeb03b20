/** The values the dispatch runtime moves around, and what its loops compute: which rows of a
    page are accepted, in which rotated order they wait, and who is served next. */
module DispatchSupply {
  import opened Base
  import opened Collections

  const PAGE_LIMIT: nat := 128
  const PAGE_BUDGET: nat := 4
  const PARENT_SHARE: nat := 8

  /** First dispatches are identified by their Instance, retries by Task and attempt. */
  datatype Key = First(parent: Id) | Again(task: Id, attemptNo: int)

  datatype Retry = Retry(task: Id, attemptNo: int)

  datatype Candidate = Candidate(sequence: nat, parent: Id, retry: Option<Retry>, scanKind: nat, generation: nat) {
    function Key(): Key { if retry.Some? then Again(retry.value.task, retry.value.attemptNo) else First(parent) }
  }

  function Min(a: nat, b: nat): nat { if a < b then a else b }

  /** Times are positive; zero is the zero value. A zero `b` wins, as in the source. */
  function Earlier(a: nat, b: nat): nat { if a == 0 || b < a then b else a }

  // ----- one parent's candidates -----

  function ByParent(cs: seq<Candidate>, p: Id): (r: seq<Candidate>) {
    if cs == [] then [] else (if cs[0].parent == p then [cs[0]] else []) + ByParent(cs[1..], p)
  }

  lemma {:induction false} ByParentConcat(a: seq<Candidate>, b: seq<Candidate>, p: Id)
    ensures ByParent(a + b, p) == ByParent(a, p) + ByParent(b, p)
  {
    if a == [] {
      assert a + b == b;
    } else {
      assert (a + b)[1..] == a[1..] + b && (a + b)[0] == a[0];
      ByParentConcat(a[1..], b, p);
      Reassociate(if a[0].parent == p then [a[0]] else [], ByParent(a[1..], p), ByParent(b, p));
    }
  }

  lemma {:induction false} ByParentAll(cs: seq<Candidate>, p: Id)
    requires forall c | c in cs :: c.parent == p
    ensures ByParent(cs, p) == cs
  {
    if cs != [] { ByParentAll(cs[1..], p); }
  }

  lemma {:induction false} ByParentNone(cs: seq<Candidate>, p: Id)
    requires forall c | c in cs :: c.parent != p
    ensures ByParent(cs, p) == []
  {
    if cs != [] { ByParentNone(cs[1..], p); }
  }

  lemma {:induction false} ByParentMembers(cs: seq<Candidate>, p: Id)
    ensures forall c | c in ByParent(cs, p) :: c.parent == p && c in cs
    ensures |ByParent(cs, p)| <= |cs|
  {
    if cs != [] { ByParentMembers(cs[1..], p); }
  }

  lemma {:induction false} CountByParent(cs: seq<Candidate>, c: Candidate)
    ensures multiset(cs)[c] == multiset(ByParent(cs, c.parent))[c]
  {
    if cs != [] {
      assert cs == [cs[0]] + cs[1..];
      CountByParent(cs[1..], c);
    }
  }

  /** Two lists with the same candidates per parent hold the same candidates. */
  lemma SameParentsPermute(a: seq<Candidate>, b: seq<Candidate>)
    requires forall p :: ByParent(a, p) == ByParent(b, p)
    ensures multiset(a) == multiset(b)
  {
    forall c ensures multiset(a)[c] == multiset(b)[c] {
      CountByParent(a, c);
      CountByParent(b, c);
    }
  }

  // ----- accepting a page -----

  function Stamped(c: Candidate, sequence: nat, kind: nat, generation: nat): Candidate {
    c.(sequence := sequence, scanKind := kind, generation := generation)
  }

  /** The rows of a page that are neither owned nor of a conflicted parent, numbered on. */
  function Accepted(page: seq<Candidate>, owned: map<Key, nat>, conflicted: set<Id>, sequence: nat, kind: nat, generation: nat): (r: seq<Candidate>)
    ensures |r| <= |page|
  {
    if page == [] then []
    else if page[0].Key() in owned || page[0].parent in conflicted then
      Accepted(page[1..], owned, conflicted, sequence, kind, generation)
    else
      var c := Stamped(page[0], sequence + 1, kind, generation);
      [c] + Accepted(page[1..], owned[c.Key() := c.sequence], conflicted, sequence + 1, kind, generation)
  }

  // ----- rotation -----

  type Groups = map<Id, seq<Candidate>>

  predicate Covers(order: seq<Id>, groups: Groups) { forall k | 0 <= k < |order| :: order[k] in groups }

  /** At most eight candidates of each parent, in the given order. */
  function Round(order: seq<Id>, groups: Groups): seq<Candidate>
    requires Covers(order, groups)
  {
    if order == [] then [] else groups[order[0]][..Min(PARENT_SHARE, |groups[order[0]]|)] + Round(order[1..], groups)
  }

  function Rest(groups: Groups): Groups { map p | p in groups :: groups[p][Min(PARENT_SHARE, |groups[p]|)..] }

  function Total(order: seq<Id>, groups: Groups): nat
    requires Covers(order, groups)
  {
    if order == [] then 0 else |groups[order[0]]| + Total(order[1..], groups)
  }

  predicate Remaining(order: seq<Id>, groups: Groups)
    requires Covers(order, groups)
  {
    exists k | 0 <= k < |order| :: |groups[order[k]]| > PARENT_SHARE
  }

  lemma {:induction false} RestShrinks(order: seq<Id>, groups: Groups)
    requires Covers(order, groups)
    ensures Total(order, Rest(groups)) <= Total(order, groups)
    ensures Remaining(order, groups) ==> Total(order, Rest(groups)) < Total(order, groups)
  {
    if order != [] {
      RestShrinks(order[1..], groups);
      assert |Rest(groups)[order[0]]| == |groups[order[0]]| - Min(PARENT_SHARE, |groups[order[0]]|);
      if Remaining(order, groups) && |groups[order[0]]| <= PARENT_SHARE {
        var k :| 0 <= k < |order| && |groups[order[k]]| > PARENT_SHARE;
        assert order[k] == order[1..][k - 1];
      }
    }
  }

  /** Rounds until every group is used up; there is always a first one. */
  function Rounds(order: seq<Id>, groups: Groups): seq<seq<Candidate>>
    requires Covers(order, groups)
    decreases Total(order, groups)
  {
    RestShrinks(order, groups);
    [Round(order, groups)] + if Remaining(order, groups) then Rounds(order, Rest(groups)) else []
  }

  function Flat(rounds: seq<seq<Candidate>>): seq<Candidate> {
    if rounds == [] then [] else rounds[0] + Flat(rounds[1..])
  }

  predicate Sorted(groups: Groups) { forall p, c | p in groups && c in groups[p] :: c.parent == p }

  lemma {:induction false} RoundByParent(order: seq<Id>, groups: Groups, p: Id)
    requires Distinct(order) && Sorted(groups) && Covers(order, groups)
    ensures ByParent(Round(order, groups), p) == if p in order then groups[p][..Min(PARENT_SHARE, |groups[p]|)] else []
  {
    if order != [] {
      var q := order[0];
      var part := groups[q][..Min(PARENT_SHARE, |groups[q]|)];
      RoundByParent(order[1..], groups, p);
      ByParentConcat(part, Round(order[1..], groups), p);
      assert forall c | c in part :: c in groups[q];
      if q == p {
        assert p !in order[1..];
        ByParentAll(part, p);
      } else {
        ByParentNone(part, p);
      }
    }
  }

  /** The rotation keeps each parent's order and loses nothing. */
  lemma {:induction false} RoundsByParent(order: seq<Id>, groups: Groups, p: Id)
    requires Distinct(order) && Sorted(groups) && Covers(order, groups)
    ensures ByParent(Flat(Rounds(order, groups)), p) == if p in order then groups[p] else []
    decreases Total(order, groups)
  {
    RestShrinks(order, groups);
    RoundByParent(order, groups, p);
    FlatRounds(order, groups);
    if Remaining(order, groups) {
      RestSorted(groups);
      RoundsByParent(order, Rest(groups), p);
      ByParentConcat(Round(order, groups), Flat(Rounds(order, Rest(groups))), p);
      if p in order { TakenAndRest(groups, p); }
    } else {
      assert Round(order, groups) + [] == Round(order, groups);
      if p in order { LastTake(order, groups, p); }
    }
  }

  lemma TakenAndRest(groups: Groups, p: Id)
    requires p in groups
    ensures p in Rest(groups) && groups[p][..Min(PARENT_SHARE, |groups[p]|)] + Rest(groups)[p] == groups[p]
  {
  }

  lemma LastTake(order: seq<Id>, groups: Groups, p: Id)
    requires Covers(order, groups) && p in order && !Remaining(order, groups)
    ensures p in groups && groups[p][..Min(PARENT_SHARE, |groups[p]|)] == groups[p]
  {
    var k :| 0 <= k < |order| && order[k] == p;
    assert |groups[order[k]]| <= PARENT_SHARE;
  }

  lemma RestSorted(groups: Groups)
    requires Sorted(groups)
    ensures Sorted(Rest(groups))
  {
  }

  lemma FlatRounds(order: seq<Id>, groups: Groups)
    requires Covers(order, groups)
    ensures Flat(Rounds(order, groups)) ==
            Round(order, groups) + if Remaining(order, groups) then Flat(Rounds(order, Rest(groups))) else []
  {
    var rest := if Remaining(order, groups) then Rounds(order, Rest(groups)) else [];
    assert Rounds(order, groups) == [Round(order, groups)] + rest;
    assert ([Round(order, groups)] + rest)[1..] == rest;
  }

  /** No round serves a parent more than eight times. */
  lemma {:induction false} RoundsShare(order: seq<Id>, groups: Groups, k: nat, p: Id)
    requires Distinct(order) && Sorted(groups) && Covers(order, groups)
    requires k < |Rounds(order, groups)|
    ensures |ByParent(Rounds(order, groups)[k], p)| <= PARENT_SHARE
    decreases Total(order, groups)
  {
    RestShrinks(order, groups);
    if k == 0 {
      RoundByParent(order, groups, p);
    } else {
      RoundsShare(order, Rest(groups), k - 1, p);
    }
  }

  function Rotated(parents: seq<Id>, start: nat): seq<Id>
    requires start <= |parents|
  {
    parents[start..] + parents[..start]
  }

  // ----- serving -----

  /** How often the last served parent was served without interruption. */
  function Streak(served: seq<Id>, p: Id): nat {
    if served == [] || served[|served| - 1] != p then 0 else 1 + Streak(served[..|served| - 1], p)
  }

  lemma {:induction false} StreakMeans(served: seq<Id>, p: Id, n: nat)
    ensures n <= Streak(served, p) <==> n <= |served| && forall k | |served| - n <= k < |served| :: served[k] == p
  {
    if n != 0 && served != [] {
      var init := served[..|served| - 1];
      StreakMeans(init, p, n - 1);
      if n <= |served| && forall k | |served| - n <= k < |served| :: served[k] == p {
        assert forall k | |init| - (n - 1) <= k < |init| :: init[k] == served[k];
      } else if n <= Streak(served, p) {
        assert forall k | |served| - n <= k < |served| :: k < |init| ==> init[k] == served[k];
      }
    }
  }

  // ----- ownership -----

  /** The owner of a key is either waiting or taken. */
  ghost predicate OwnerOk(waiting: multiset<Candidate>, held: set<Candidate>, owner: map<Key, Candidate>, k: Key) {
    k in owner ==> owner[k].Key() == k && (owner[k] in waiting <==> owner[k] !in held)
  }

  /** A waiting or taken candidate is there once and owns its key. */
  ghost predicate OwnedOk(waiting: multiset<Candidate>, held: set<Candidate>, owner: map<Key, Candidate>, c: Candidate) {
    c in waiting || c in held ==> waiting[c] <= 1 && c.Key() in owner && owner[c.Key()] == c
  }

  function Sequences(owner: map<Key, Candidate>): map<Key, nat> { map k | k in owner :: owner[k].sequence }

  /** Owned keys are exactly the disjoint union of waiting and taken candidates. */
  ghost predicate Owns(waiting: multiset<Candidate>, held: set<Candidate>, owner: map<Key, Candidate>) {
    && (forall k {:trigger OwnerOk(waiting, held, owner, k)} :: OwnerOk(waiting, held, owner, k))
    && (forall c {:trigger OwnedOk(waiting, held, owner, c)} :: OwnedOk(waiting, held, owner, c))
  }

  lemma OwnMore(waiting: multiset<Candidate>, held: set<Candidate>, owner: map<Key, Candidate>, c: Candidate)
    requires Owns(waiting, held, owner) && c.Key() !in owner
    ensures Owns(waiting + multiset{c}, held, owner[c.Key() := c])
  {
    var more, owner' := waiting + multiset{c}, owner[c.Key() := c];
    assert OwnedOk(waiting, held, owner, c);
    forall k ensures OwnerOk(more, held, owner', k) { assert OwnerOk(waiting, held, owner, k); }
    forall d ensures OwnedOk(more, held, owner', d) { assert OwnedOk(waiting, held, owner, d); }
  }

  lemma OwnLess(waiting: multiset<Candidate>, held: set<Candidate>, owner: map<Key, Candidate>, c: Candidate)
    requires Owns(waiting, held, owner) && (c in waiting || c in held)
    ensures Owns(waiting - multiset{c}, held - {c}, owner - {c.Key()})
  {
    var less, held', owner' := waiting - multiset{c}, held - {c}, owner - {c.Key()};
    assert OwnedOk(waiting, held, owner, c);
    forall k ensures OwnerOk(less, held', owner', k) { assert OwnerOk(waiting, held, owner, k); }
    forall d ensures OwnedOk(less, held', owner', d) { assert OwnedOk(waiting, held, owner, d); }
  }

  lemma OwnTaken(waiting: multiset<Candidate>, held: set<Candidate>, owner: map<Key, Candidate>, c: Candidate)
    requires Owns(waiting, held, owner) && c in waiting
    ensures Owns(waiting - multiset{c}, held + {c}, owner) && c !in held
  {
    var less, held' := waiting - multiset{c}, held + {c};
    assert OwnedOk(waiting, held, owner, c) && OwnerOk(waiting, held, owner, c.Key());
    forall k ensures OwnerOk(less, held', owner, k) { assert OwnerOk(waiting, held, owner, k); }
    forall d ensures OwnedOk(less, held', owner, d) { assert OwnedOk(waiting, held, owner, d); }
  }

  lemma OwnAppend(pending: seq<Candidate>, held: set<Candidate>, owner: map<Key, Candidate>, c: Candidate)
    requires Owns(multiset(pending), held, owner) && c.Key() !in owner
    ensures Owns(multiset(pending + [c]), held, owner[c.Key() := c])
    ensures Sequences(owner[c.Key() := c]) == Sequences(owner)[c.Key() := c.sequence]
  {
    OwnMore(multiset(pending), held, owner, c);
    assert multiset(pending + [c]) == multiset(pending) + multiset{c};
  }

  lemma OwnRemove(pending: seq<Candidate>, held: set<Candidate>, owner: map<Key, Candidate>, k: nat)
    requires Owns(multiset(pending), held, owner) && k < |pending|
    ensures Owns(multiset(pending[..k] + pending[k + 1..]), held, owner - {pending[k].Key()})
    ensures Sequences(owner - {pending[k].Key()}) == Sequences(owner) - {pending[k].Key()}
  {
    var c := pending[k];
    Split(pending, k);
    assert OwnedOk(multiset(pending), held, owner, c) && OwnerOk(multiset(pending), held, owner, c.Key());
    OwnLess(multiset(pending), held, owner, c);
    assert held - {c} == held;
  }

  lemma Split(cs: seq<Candidate>, k: nat)
    requires k < |cs|
    ensures multiset(cs[..k] + cs[k + 1..]) == multiset(cs) - multiset{cs[k]}
    ensures cs[k] in multiset(cs)
  {
    assert cs == cs[..k] + [cs[k]] + cs[k + 1..];
  }

  // ----- conflicts -----

  /** A registration is its holder's, and its parent is not in conflict. */
  ghost predicate GateOk(registering: map<Id, Candidate>, held: set<Candidate>, conflicted: map<Id, nat>, p: Id) {
    p in registering ==> registering[p] in held && registering[p].parent == p && p !in conflicted
  }

  ghost predicate WaitOk(conflicted: map<Id, nat>, pending: seq<Candidate>, k: int) {
    0 <= k < |pending| ==> pending[k].parent !in conflicted
  }

  /** Parents in conflict neither wait nor register. */
  ghost predicate GatesOk(registering: map<Id, Candidate>, held: set<Candidate>, conflicted: map<Id, nat>, pending: seq<Candidate>) {
    && (forall p {:trigger GateOk(registering, held, conflicted, p)} :: GateOk(registering, held, conflicted, p))
    && (forall k {:trigger WaitOk(conflicted, pending, k)} :: WaitOk(conflicted, pending, k))
  }

  lemma GatesShrink(registering: map<Id, Candidate>, held: set<Candidate>, conflicted: map<Id, nat>, pending: seq<Candidate>, kept: map<Id, nat>)
    requires GatesOk(registering, held, conflicted, pending) && kept.Keys <= conflicted.Keys
    ensures GatesOk(registering, held, kept, pending) && |kept| <= |conflicted|
  {
    forall p ensures GateOk(registering, held, kept, p) { assert GateOk(registering, held, conflicted, p); }
    forall k ensures WaitOk(kept, pending, k) { assert WaitOk(conflicted, pending, k); }
    SubsetCount(kept.Keys, conflicted.Keys);
  }

  /** The waiting list changes to candidates whose parents are free. */
  lemma GatesWait(registering: map<Id, Candidate>, held: set<Candidate>, conflicted: map<Id, nat>, pending: seq<Candidate>, pending': seq<Candidate>)
    requires GatesOk(registering, held, conflicted, pending)
    requires forall c | c in pending' :: c in pending || c.parent !in conflicted
    ensures GatesOk(registering, held, conflicted, pending')
  {
    forall k ensures WaitOk(conflicted, pending', k) {
      if 0 <= k < |pending'| && pending'[k] in pending {
        var j :| 0 <= j < |pending| && pending[j] == pending'[k];
        assert WaitOk(conflicted, pending, j);
      }
    }
  }

  /** `until` is the least recorded deadline, zero when there is none. */
  ghost predicate IsEarliest(until: nat, deadlines: map<Id, nat>) {
    && (forall p {:trigger DeadlineOk(until, deadlines, p)} :: DeadlineOk(until, deadlines, p))
    && (until == 0 || Recorded(until, deadlines))
  }

  ghost predicate DeadlineOk(until: nat, deadlines: map<Id, nat>, p: Id) { p in deadlines ==> 0 < until <= deadlines[p] }

  ghost predicate Recorded(until: nat, deadlines: map<Id, nat>) { exists p :: p in deadlines && deadlines[p] == until }

  function Unexpired(deadlines: map<Id, nat>, now: nat): map<Id, nat> {
    map p | p in deadlines && now < deadlines[p] :: deadlines[p]
  }

  /** Each registration belongs to a different held candidate. */
  lemma {:induction false} RegisteringBound(registering: map<Id, Candidate>, held: set<Candidate>)
    requires forall p | p in registering :: registering[p] in held && registering[p].parent == p
    ensures |registering| <= |held|
    decreases |registering|
  {
    if registering != map[] {
      var p := Member(registering.Keys);
      var rest := registering - {p};
      assert rest.Keys == registering.Keys - {p};
      RegisteringBound(rest, held - {registering[p]});
      assert registering[p] in held;
    }
  }

  // ----- who is next -----

  predicate Eligible(pending: seq<Candidate>, registering: map<Id, Candidate>, k: int) {
    0 <= k < |pending| && pending[k].parent !in registering
  }

  /** `index` is the candidate to serve: the first eligible one, or, once the last parent has
      had its share, the first eligible one of another parent if there is any. */
  ghost predicate Serves(pending: seq<Candidate>, registering: map<Id, Candidate>, share: nat, last: Id, index: int) {
    && Eligible(pending, registering, index)
    && if share >= PARENT_SHARE && pending[index].parent != last then
         forall k | k < index && Eligible(pending, registering, k) :: pending[k].parent == last
       else
         && (forall k | k < index :: !Eligible(pending, registering, k))
         && (share >= PARENT_SHARE ==> forall k | Eligible(pending, registering, k) :: pending[k].parent == last)
  }

  function Without(cs: seq<Candidate>, p: Id): seq<Candidate> {
    if cs == [] then [] else Without(cs[..|cs| - 1], p) + if cs[|cs| - 1].parent == p then [] else [cs[|cs| - 1]]
  }

  lemma {:induction false} WithoutMembers(cs: seq<Candidate>, p: Id)
    ensures forall c :: c in Without(cs, p) <==> c in cs && c.parent != p
  {
    if cs != [] {
      WithoutMembers(cs[..|cs| - 1], p);
      assert cs == cs[..|cs| - 1] + [cs[|cs| - 1]];
    }
  }

  lemma {:induction false} WithoutCount(cs: seq<Candidate>, p: Id, c: Candidate)
    ensures multiset(Without(cs, p))[c] <= multiset(cs)[c] && |Without(cs, p)| <= |cs|
  {
    if cs != [] {
      WithoutCount(cs[..|cs| - 1], p, c);
      assert cs == cs[..|cs| - 1] + [cs[|cs| - 1]];
    }
  }

  datatype PageDecision = Page(kind: nat, limit: nat, generation: nat) | WaitUntil(wakeAt: nat) | Stopped

  /** Where the scanner is: idle, given a page, charged for it, or back from the query. */
  datatype Phase = Idle | Granted | Charged | Returned

  lemma NoneExpired(until: nat, deadlines: map<Id, nat>, now: nat)
    requires IsEarliest(until, deadlines) && (until == 0 || now < until)
    ensures Unexpired(deadlines, now) == deadlines
  {
    forall p | p in deadlines ensures p in Unexpired(deadlines, now) { assert DeadlineOk(until, deadlines, p); }
  }

  lemma EarliestExtends(until: nat, deadlines: map<Id, nat>, id: Id, deadline: nat)
    requires IsEarliest(until, deadlines) && id !in deadlines && 0 < deadline
    ensures IsEarliest(Earlier(until, deadline), deadlines[id := deadline])
  {
    var more := deadlines[id := deadline];
    forall p ensures DeadlineOk(Earlier(until, deadline), more, p) { assert DeadlineOk(until, deadlines, p); }
    if until != 0 && until <= deadline {
      var p :| p in deadlines && deadlines[p] == until;
      assert more[p] == until;
    } else {
      assert more[id] == deadline;
    }
  }

  /** The least deadline as a value. */
  ghost function EarliestOf(deadlines: map<Id, nat>): nat {
    if exists u: nat :: IsEarliest(u, deadlines) then var u: nat :| IsEarliest(u, deadlines); u else 0
  }

  lemma {:induction false} EarliestOfIs(deadlines: map<Id, nat>)
    requires forall p | p in deadlines :: 0 < deadlines[p]
    ensures IsEarliest(EarliestOf(deadlines), deadlines)
    decreases |deadlines|
  {
    if deadlines == map[] {
      assert IsEarliest(0, deadlines);
    } else {
      var p := Member(deadlines.Keys);
      var rest := deadlines - {p};
      assert rest.Keys == deadlines.Keys - {p};
      EarliestOfIs(rest);
      EarliestExtends(EarliestOf(rest), rest, p, deadlines[p]);
      assert rest[p := deadlines[p]] == deadlines;
    }
  }

  lemma EarliestUnique(u: nat, v: nat, deadlines: map<Id, nat>)
    requires IsEarliest(u, deadlines) && IsEarliest(v, deadlines)
    ensures u == v
  {
    if u != 0 {
      var p :| p in deadlines && deadlines[p] == u;
      assert DeadlineOk(v, deadlines, p);
    }
    if v != 0 {
      var p :| p in deadlines && deadlines[p] == v;
      assert DeadlineOk(u, deadlines, p);
    }
  }

  // ----- the rotation of accepted rows -----

  function GroupsOf(cs: seq<Candidate>): Groups {
    if cs == [] then map[] else Grouped(GroupsOf(cs[..|cs| - 1]), cs[|cs| - 1])
  }

  function Grouped(groups: Groups, c: Candidate): Groups {
    groups[c.parent := if c.parent in groups then groups[c.parent] + [c] else [c]]
  }

  lemma {:induction false} GroupsOfMeans(cs: seq<Candidate>)
    ensures forall p :: p in GroupsOf(cs) <==> p in ParentsOf(cs)
    ensures forall p | p in GroupsOf(cs) :: GroupsOf(cs)[p] == ByParent(cs, p)
  {
    if cs != [] {
      var init, last := cs[..|cs| - 1], cs[|cs| - 1];
      assert cs == init + [last];
      GroupsOfMeans(init);
      ParentsOfMembers(init);
      forall p | p in GroupsOf(cs) ensures GroupsOf(cs)[p] == ByParent(cs, p) {
        ByParentConcat(init, [last], p);
        assert ByParent([last], p) == if last.parent == p then [last] else [];
        if p !in ParentsOf(init) { ByParentNone(init, p); }
      }
    }
  }

  /** Parents in the order in which they first appear. */
  function ParentsOf(cs: seq<Candidate>): seq<Id> {
    if cs == [] then []
    else
      var init := ParentsOf(cs[..|cs| - 1]);
      if cs[|cs| - 1].parent in init then init else init + [cs[|cs| - 1].parent]
  }

  lemma {:induction false} ParentsOfMembers(cs: seq<Candidate>)
    ensures Distinct(ParentsOf(cs))
    ensures forall k | 0 <= k < |cs| :: cs[k].parent in ParentsOf(cs)
    ensures forall p | p in ParentsOf(cs) :: exists k :: 0 <= k < |cs| && cs[k].parent == p
  {
    if cs != [] {
      var init, last := cs[..|cs| - 1], cs[|cs| - 1];
      ParentsOfMembers(init);
      forall k | 0 <= k < |cs| ensures cs[k].parent in ParentsOf(cs) {
        if k < |init| { assert init[k].parent in ParentsOf(init); }
      }
      forall p | p in ParentsOf(cs) ensures exists k :: 0 <= k < |cs| && cs[k].parent == p {
        if p == last.parent {
          assert cs[|cs| - 1].parent == p;
        } else {
          var k :| 0 <= k < |init| && init[k].parent == p;
          assert cs[k].parent == p;
        }
      }
    }
  }

  /** The accepted rows in the order in which they will wait, from a random first parent. */
  function Rotation(accepted: seq<Candidate>, draw: nat): seq<seq<Candidate>> {
    var parents := ParentsOf(accepted);
    if parents == [] then []
    else
      ParentsOfMembers(accepted);
      RotatedMembers(parents, draw % |parents|);
      RotationGroups(accepted, Rotated(parents, draw % |parents|));
      Rounds(Rotated(parents, draw % |parents|), GroupsOf(accepted))
  }

  lemma RotatedMembers(parents: seq<Id>, start: nat)
    requires start <= |parents| && Distinct(parents)
    ensures Distinct(Rotated(parents, start))
    ensures forall k | 0 <= k < |Rotated(parents, start)| :: Rotated(parents, start)[k] in parents
    ensures forall p | p in parents :: p in Rotated(parents, start)
  {
    assert parents == parents[..start] + parents[start..];
  }

  lemma RotationGroups(accepted: seq<Candidate>, order: seq<Id>)
    requires forall k | 0 <= k < |order| :: order[k] in ParentsOf(accepted)
    ensures Covers(order, GroupsOf(accepted)) && Sorted(GroupsOf(accepted))
  {
    var groups := GroupsOf(accepted);
    GroupsOfMeans(accepted);
    forall k | 0 <= k < |order| ensures order[k] in groups {
      var p := order[k];
      assert p in ParentsOf(accepted);
    }
    forall p, c: Candidate | p in groups && c in groups[p] ensures c.parent == p { ByParentMembers(accepted, p); }
  }

  /** Rotation appends exactly the accepted rows, keeps each parent's order, and gives each
      parent at most eight places per round. */
  lemma RotationFair(accepted: seq<Candidate>, draw: nat)
    ensures forall p :: ByParent(Flat(Rotation(accepted, draw)), p) == ByParent(accepted, p)
    ensures multiset(Flat(Rotation(accepted, draw))) == multiset(accepted)
    ensures forall k, p | 0 <= k < |Rotation(accepted, draw)| :: |ByParent(Rotation(accepted, draw)[k], p)| <= PARENT_SHARE
  {
    var parents := ParentsOf(accepted);
    ParentsOfMembers(accepted);
    if accepted != [] {
      assert accepted[0].parent in parents;
      var order, groups := Rotated(parents, draw % |parents|), GroupsOf(accepted);
      RotatedMembers(parents, draw % |parents|);
      RotationGroups(accepted, order);
      GroupsOfMeans(accepted);
      forall p ensures ByParent(Flat(Rounds(order, groups)), p) == ByParent(accepted, p) {
        RoundsByParent(order, groups, p);
        if p !in order { assert p !in parents; ByParentNone(accepted, p); }
      }
      SameParentsPermute(Flat(Rounds(order, groups)), accepted);
      forall k, p | 0 <= k < |Rounds(order, groups)| ensures |ByParent(Rounds(order, groups)[k], p)| <= PARENT_SHARE {
        RoundsShare(order, groups, k, p);
      }
    }
  }

  function OwnerWith(owner: map<Key, Candidate>, cs: seq<Candidate>): map<Key, Candidate>
    decreases |cs|
  {
    if cs == [] then owner else OwnerWith(owner[cs[0].Key() := cs[0]], cs[1..])
  }

  /** Accepted rows become owned, and none of them has a parent in conflict. */
  lemma {:induction false} AcceptedOwns(page: seq<Candidate>, pending: seq<Candidate>, held: set<Candidate>, owner: map<Key, Candidate>,
                                        conflicted: set<Id>, sequence: nat, kind: nat, generation: nat)
    requires Owns(multiset(pending), held, owner)
    ensures var rows := Accepted(page, Sequences(owner), conflicted, sequence, kind, generation);
            Owns(multiset(pending + rows), held, OwnerWith(owner, rows)) && forall c | c in rows :: c.parent !in conflicted
    decreases |page|
  {
    if page == [] {
      assert pending + [] == pending;
    } else if page[0].Key() in Sequences(owner) || page[0].parent in conflicted {
      AcceptedOwns(page[1..], pending, held, owner, conflicted, sequence, kind, generation);
    } else {
      var c := Stamped(page[0], sequence + 1, kind, generation);
      OwnAppend(pending, held, owner, c);
      var rest := Accepted(page[1..], Sequences(owner[c.Key() := c]), conflicted, sequence + 1, kind, generation);
      AcceptedOwns(page[1..], pending + [c], held, owner[c.Key() := c], conflicted, sequence + 1, kind, generation);
      assert pending + [c] + rest == pending + ([c] + rest);
    }
  }
}
