/** Bounded retention of reports until they are delivered: the shared core of the scheduler's
    result queue and the executor's reporter. Reports are known by their admission number;
    `pending` is the retry heap. */
module Retention {
  import opened Base
  import opened Collections

  datatype Entry = Entry(due: int, tries: nat)

  /** `inFlight` reports are with a worker, `abandoned` ones were given back after the run was
      cancelled; `released` and `dropped` ones have left. */
  datatype Store = Store(
    capacity: nat, retained: int, sequence: nat, pending: map<nat, Entry>, inFlight: map<nat, Entry>,
    released: set<nat>, dropped: set<nat>, abandoned: set<nat>)

  function Empty(capacity: nat): Store { Store(capacity, 0, 0, map[], map[], {}, {}, {}) }

  /** An admitted report is in exactly one place, any other number in none. */
  ghost predicate PlaceOk(x: Store, s: nat) {
    && (1 <= s <= x.sequence <==> s in x.pending || s in x.inFlight || s in x.released || s in x.dropped || s in x.abandoned)
    && (s in x.pending ==> s !in x.inFlight && s !in x.released && s !in x.dropped && s !in x.abandoned)
    && (s in x.inFlight ==> s !in x.released && s !in x.dropped && s !in x.abandoned)
    && (s in x.released ==> s !in x.dropped && s !in x.abandoned)
    && (s in x.dropped ==> s !in x.abandoned)
  }

  ghost predicate Placed(x: Store) { forall s: nat {:trigger PlaceOk(x, s)} :: PlaceOk(x, s) }

  /** Admitted reports have left or are retained, within capacity. */
  ghost predicate Conserved(x: Store) {
    && Placed(x)
    && x.retained == |x.pending| + |x.inFlight| + |x.abandoned| <= x.capacity
    && |x.released| + |x.dropped| + x.retained == x.sequence
  }

  // ----- the moves -----

  function Admit(x: Store, due: int): Store {
    x.(sequence := x.sequence + 1, pending := x.pending[x.sequence + 1 := Entry(due, 0)], retained := x.retained + 1)
  }

  function Begin(x: Store, s: nat): Store
    requires s in x.pending
  {
    x.(pending := x.pending - {s}, inFlight := x.inFlight[s := x.pending[s]])
  }

  function Tried(x: Store, s: nat, tries: nat): Store
    requires s in x.inFlight
  {
    x.(inFlight := x.inFlight[s := x.inFlight[s].(tries := tries)])
  }

  function Release(x: Store, s: nat): Store {
    x.(inFlight := x.inFlight - {s}, released := x.released + {s}, retained := x.retained - 1)
  }

  function Drop(x: Store, s: nat): Store {
    x.(inFlight := x.inFlight - {s}, dropped := x.dropped + {s}, retained := x.retained - 1)
  }

  function Requeue(x: Store, s: nat, e: Entry): Store { x.(inFlight := x.inFlight - {s}, pending := x.pending[s := e]) }

  function Abandon(x: Store, s: nat): Store { x.(inFlight := x.inFlight - {s}, abandoned := x.abandoned + {s}) }

  lemma AdmitPlaced(x: Store, due: int)
    requires Placed(x)
    ensures Placed(Admit(x, due)) && x.sequence + 1 !in x.pending
  {
    var y, next := Admit(x, due), x.sequence + 1;
    assert PlaceOk(x, next);
    forall s: nat ensures PlaceOk(y, s) { assert PlaceOk(x, s); }
  }

  lemma AdmitKeeps(x: Store, due: int)
    requires Conserved(x) && x.retained < x.capacity
    ensures Conserved(Admit(x, due))
  {
    AdmitPlaced(x, due);
    assert Admit(x, due).pending.Keys == x.pending.Keys + {x.sequence + 1};
  }

  lemma BeginKeeps(x: Store, s: nat)
    requires Conserved(x) && s in x.pending
    ensures Conserved(Begin(x, s))
  {
    var y := Begin(x, s);
    assert PlaceOk(x, s);
    forall t: nat ensures PlaceOk(y, t) { assert PlaceOk(x, t); }
    assert y.inFlight.Keys == x.inFlight.Keys + {s} && y.pending.Keys == x.pending.Keys - {s};
  }

  lemma TriedKeeps(x: Store, s: nat, tries: nat)
    requires Conserved(x) && s in x.inFlight
    ensures Conserved(Tried(x, s, tries))
  {
    var y := Tried(x, s, tries);
    forall t: nat ensures PlaceOk(y, t) { assert PlaceOk(x, t); }
    assert y.inFlight.Keys == x.inFlight.Keys;
  }

  lemma ReleaseKeeps(x: Store, s: nat)
    requires Conserved(x) && s in x.inFlight
    ensures Conserved(Release(x, s))
  {
    var y := Release(x, s);
    assert PlaceOk(x, s);
    forall t: nat ensures PlaceOk(y, t) { assert PlaceOk(x, t); }
    assert y.inFlight.Keys == x.inFlight.Keys - {s};
  }

  lemma DropKeeps(x: Store, s: nat)
    requires Conserved(x) && s in x.inFlight
    ensures Conserved(Drop(x, s))
  {
    var y := Drop(x, s);
    assert PlaceOk(x, s);
    forall t: nat ensures PlaceOk(y, t) { assert PlaceOk(x, t); }
    assert y.inFlight.Keys == x.inFlight.Keys - {s};
  }

  lemma RequeuePlaced(x: Store, s: nat, e: Entry)
    requires Placed(x) && s in x.inFlight
    ensures Placed(Requeue(x, s, e)) && s !in x.pending
  {
    var y := Requeue(x, s, e);
    assert PlaceOk(x, s);
    forall t: nat ensures PlaceOk(y, t) { assert PlaceOk(x, t); }
  }

  lemma RequeueKeeps(x: Store, s: nat, e: Entry)
    requires Conserved(x) && s in x.inFlight
    ensures Conserved(Requeue(x, s, e))
  {
    RequeuePlaced(x, s, e);
    var y := Requeue(x, s, e);
    assert y.inFlight.Keys == x.inFlight.Keys - {s} && y.pending.Keys == x.pending.Keys + {s};
  }

  lemma AbandonKeeps(x: Store, s: nat)
    requires Conserved(x) && s in x.inFlight
    ensures Conserved(Abandon(x, s))
  {
    var y := Abandon(x, s);
    assert PlaceOk(x, s);
    forall t: nat ensures PlaceOk(y, t) { assert PlaceOk(x, t); }
    assert y.inFlight.Keys == x.inFlight.Keys - {s};
  }

  /** Nothing retained means that every admitted report has left. */
  lemma NothingRetained(x: Store)
    requires Conserved(x) && x.retained == 0
    ensures forall s: nat :: 1 <= s <= x.sequence <==> s in x.released || s in x.dropped
  {
    forall s: nat ensures 1 <= s <= x.sequence <==> s in x.released || s in x.dropped { assert PlaceOk(x, s); }
  }

  // ----- the least entry -----

  /** Already-due work first, then original admission order. */
  predicate Before(pending: map<nat, Entry>, a: nat, b: nat)
    requires a in pending && b in pending
  {
    pending[a].due < pending[b].due || (pending[a].due == pending[b].due && a <= b)
  }

  ghost predicate IsLeast(pending: map<nat, Entry>, s: nat) {
    s in pending && forall t | t in pending :: Before(pending, s, t)
  }

  /** What popping the heap yields. */
  method Least(pending: map<nat, Entry>) returns (s: nat)
    requires pending != map[]
    ensures IsLeast(pending, s)
  {
    var left;
    s, left := Pick(pending.Keys);
    while left != {}
      invariant left <= pending.Keys && s in pending
      invariant forall t | t in pending && t !in left :: Before(pending, s, t)
      decreases left
    {
      var t, rest := Pick(left);
      if !Before(pending, s, t) { s := t; }
      left := rest;
    }
  }
}
