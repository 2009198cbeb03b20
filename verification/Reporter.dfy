/** The executor's reporter: bounded retention of finished results, at most seven calls each,
    dropped on permanent refusal or exhaustion. */
module Reporter {
  import opened Base
  import opened Retention

  const ATTEMPT_LIMIT: nat := 7

  datatype Outcome = Acknowledged | Refused | Unknown

  /** Every call made for a report is counted; one that may be tried again has calls left. */
  ghost predicate CallsOk(pending: map<nat, Entry>, inFlight: map<nat, Entry>, calls: map<nat, nat>, sequence: nat, s: nat) {
    && (s in calls <==> 1 <= s <= sequence)
    && (s in calls ==> calls[s] <= ATTEMPT_LIMIT)
    && (s in pending ==> s in calls && pending[s].tries == calls[s] < ATTEMPT_LIMIT)
    && (s in inFlight ==> s in calls && inFlight[s].tries == calls[s])
  }

  ghost predicate Counted(pending: map<nat, Entry>, inFlight: map<nat, Entry>, calls: map<nat, nat>, sequence: nat) {
    forall s: nat {:trigger CallsOk(pending, inFlight, calls, sequence, s)} :: CallsOk(pending, inFlight, calls, sequence, s)
  }

  lemma SubmitCounts(pending: map<nat, Entry>, inFlight: map<nat, Entry>, calls: map<nat, nat>, sequence: nat, due: int)
    requires Counted(pending, inFlight, calls, sequence)
    ensures Counted(pending[sequence + 1 := Entry(due, 0)], inFlight, calls[sequence + 1 := 0], sequence + 1)
  {
    var pending', calls', sequence' := pending[sequence + 1 := Entry(due, 0)], calls[sequence + 1 := 0], sequence + 1;
    assert CallsOk(pending, inFlight, calls, sequence, sequence + 1);
    forall s: nat ensures CallsOk(pending', inFlight, calls', sequence', s) { assert CallsOk(pending, inFlight, calls, sequence, s); }
  }

  lemma TakeCounts(pending: map<nat, Entry>, inFlight: map<nat, Entry>, calls: map<nat, nat>, sequence: nat, s: nat)
    requires Counted(pending, inFlight, calls, sequence) && s in pending
    ensures Counted(pending - {s}, inFlight[s := pending[s]], calls, sequence) && pending[s].tries < ATTEMPT_LIMIT
  {
    var pending', inFlight' := pending - {s}, inFlight[s := pending[s]];
    assert CallsOk(pending, inFlight, calls, sequence, s);
    forall t: nat ensures CallsOk(pending', inFlight', calls, sequence, t) { assert CallsOk(pending, inFlight, calls, sequence, t); }
  }

  lemma CallCounts(pending: map<nat, Entry>, inFlight: map<nat, Entry>, calls: map<nat, nat>, sequence: nat, s: nat)
    requires Counted(pending, inFlight, calls, sequence) && s in inFlight && s !in pending && inFlight[s].tries < ATTEMPT_LIMIT
    ensures s in calls && Counted(pending, inFlight[s := inFlight[s].(tries := inFlight[s].tries + 1)], calls[s := calls[s] + 1], sequence)
  {
    assert CallsOk(pending, inFlight, calls, sequence, s);
    var inFlight', calls' := inFlight[s := inFlight[s].(tries := inFlight[s].tries + 1)], calls[s := calls[s] + 1];
    forall t: nat ensures CallsOk(pending, inFlight', calls', sequence, t) { assert CallsOk(pending, inFlight, calls, sequence, t); }
  }

  lemma ReturnCounts(pending: map<nat, Entry>, inFlight: map<nat, Entry>, calls: map<nat, nat>, sequence: nat, s: nat, due: int)
    requires Counted(pending, inFlight, calls, sequence) && s in inFlight
    ensures Counted(pending, inFlight - {s}, calls, sequence) && inFlight[s].tries <= ATTEMPT_LIMIT
    ensures inFlight[s].tries < ATTEMPT_LIMIT ==> Counted(pending[s := Entry(due, inFlight[s].tries)], inFlight - {s}, calls, sequence)
  {
    assert CallsOk(pending, inFlight, calls, sequence, s);
    var inFlight', pending' := inFlight - {s}, pending[s := Entry(due, inFlight[s].tries)];
    forall t: nat ensures CallsOk(pending, inFlight', calls, sequence, t) { assert CallsOk(pending, inFlight, calls, sequence, t); }
    if inFlight[s].tries < ATTEMPT_LIMIT {
      forall t: nat ensures CallsOk(pending', inFlight', calls, sequence, t) { assert CallsOk(pending, inFlight, calls, sequence, t); }
    }
  }

  /** Acknowledged and refused reports leave, as does one whose calls are used up. */
  function Settle(x: Store, s: nat, tries: nat, outcome: Outcome, cancelled: bool, due: int): Store {
    if outcome.Acknowledged? then Release(x, s)
    else if outcome.Refused? || tries == ATTEMPT_LIMIT then Drop(x, s)
    else if cancelled then Abandon(x, s)
    else Requeue(x, s, Entry(due, tries))
  }

  class Reporter {
    const capacity: nat
    var started: bool
    var stopping: bool
    var completed: bool
    var cancelled: bool
    var retained: int
    var sequence: nat
    var pending: map<nat, Entry>
    /** Where every report ever submitted is, and how many calls were made for it. */
    ghost var books: Store
    ghost var calls: map<nat, nat>

    ghost predicate Valid()
      reads this
    {
      && !completed && Conserved(books) && Counted(books.pending, books.inFlight, calls, books.sequence)
      && capacity == books.capacity && retained == books.retained && sequence == books.sequence && pending == books.pending
    }

    constructor (capacity: nat)
      ensures Valid() && books == Empty(capacity) && !started && !stopping && !cancelled
    {
      this.capacity := capacity;
      started, stopping, completed, cancelled, retained, sequence, pending := false, false, false, false, 0, 0, map[];
      books, calls := Empty(capacity), map[];
    }

    method Start() returns (ok: bool)
      requires Valid()
      modifies `started
      ensures Valid() && ok == (!old(started) && !stopping) && started == (old(started) || ok)
    {
      ok := !started && !stopping;
      if ok { started := true; }
    }

    /** Close admission; what is retained is still worked off. A reporter that never started is complete. */
    method Stop()
      requires Valid()
      modifies `stopping, `cancelled, `completed
      ensures stopping && completed == !started && (started ==> Valid() && cancelled == old(cancelled))
    {
      stopping := true;
      if !started { cancelled, completed := true, true; }
    }

    /** The drain budget is used up: retries end. */
    method Cancel()
      requires Valid()
      modifies `cancelled
      ensures Valid() && cancelled
    {
      cancelled := true;
    }

    /** One pass of the submission loop; None means that the producer waits for room. */
    method Submit(callLive: bool, now: int) returns (r: Option<bool>)
      requires Valid()
      modifies `sequence, `pending, `retained, `books, `calls
      ensures Valid()
      ensures r == if !callLive || !started || stopping || cancelled then Some(false) else if old(retained) < capacity then Some(true) else None
      ensures books == if r == Some(true) then Admit(old(books), now) else old(books)
    {
      if !callLive || !started || stopping || cancelled { return Some(false); }
      if retained >= capacity { return None; }
      AdmitKeeps(books, now);
      SubmitCounts(books.pending, books.inFlight, calls, books.sequence, now);
      books, calls := Admit(books, now), calls[books.sequence + 1 := 0];
      sequence := sequence + 1;
      pending, retained := pending[sequence := Entry(now, 0)], retained + 1;
      return Some(true);
    }

    method Take(now: int) returns (s: Option<nat>, leave: bool)
      requires Valid()
      modifies `pending, `books
      ensures Valid()
      ensures leave <==> cancelled || (stopping && retained == 0)
      ensures s.Some? ==> IsLeast(old(pending), s.value) && old(pending)[s.value].due <= now && books == Begin(old(books), s.value)
      ensures s.Some? ==> books.inFlight[s.value].tries < ATTEMPT_LIMIT
      ensures s.None? ==> books == old(books) && (leave || forall t | t in pending :: now < pending[t].due)
    {
      s, leave := None, cancelled || (stopping && retained == 0);
      if leave || pending == map[] { return; }
      var least := Least(pending);
      if now < pending[least].due {
        forall t | t in pending ensures now < pending[t].due { assert Before(pending, least, t); }
        return;
      }
      BeginKeeps(books, least);
      TakeCounts(books.pending, books.inFlight, calls, books.sequence, least);
      books := Begin(books, least);
      pending := pending - {least};
      s := Some(least);
    }

    /** The report call itself, counted before it is made. */
    method Call(s: nat, entry: Entry) returns (counted: Entry)
      requires Valid() && s in books.inFlight && books.inFlight[s] == entry && entry.tries < ATTEMPT_LIMIT
      modifies `books, `calls
      ensures Valid() && books == Tried(old(books), s, entry.tries + 1) && counted == books.inFlight[s]
      ensures s in old(calls) && calls == old(calls)[s := old(calls)[s] + 1]
    {
      TriedKeeps(books, s, entry.tries + 1);
      assert PlaceOk(books, s);
      CallCounts(books.pending, books.inFlight, calls, books.sequence, s);
      books, calls := Tried(books, s, entry.tries + 1), calls[s := calls[s] + 1];
      counted := entry.(tries := entry.tries + 1);
    }

    method CallReturned(s: nat, entry: Entry, outcome: Outcome, now: int, delay: nat)
      requires Valid() && s in books.inFlight && books.inFlight[s] == entry
      modifies `books, `pending, `retained
      ensures Valid() && books == Settle(old(books), s, entry.tries, outcome, cancelled, now + delay)
    {
      if outcome.Acknowledged? {
        Acknowledge(s);
      } else if outcome.Refused? || entry.tries == ATTEMPT_LIMIT {
        Discard(s);
      } else if cancelled {
        Forsake(s);
      } else {
        Retry(s, Entry(now + delay, entry.tries));
      }
    }

    method Acknowledge(s: nat)
      requires Valid() && s in books.inFlight
      modifies `books, `retained
      ensures Valid() && books == Release(old(books), s)
    {
      ReturnCounts(books.pending, books.inFlight, calls, books.sequence, s, 0);
      ReleaseKeeps(books, s);
      books, retained := Release(books, s), retained - 1;
    }

    method Discard(s: nat)
      requires Valid() && s in books.inFlight
      modifies `books, `retained
      ensures Valid() && books == Drop(old(books), s)
    {
      ReturnCounts(books.pending, books.inFlight, calls, books.sequence, s, 0);
      DropKeeps(books, s);
      books, retained := Drop(books, s), retained - 1;
    }

    method Forsake(s: nat)
      requires Valid() && s in books.inFlight
      modifies `books
      ensures Valid() && books == Abandon(old(books), s)
    {
      ReturnCounts(books.pending, books.inFlight, calls, books.sequence, s, 0);
      AbandonKeeps(books, s);
      books := Abandon(books, s);
    }

    method Retry(s: nat, e: Entry)
      requires Valid() && s in books.inFlight && books.inFlight[s].tries == e.tries
      requires e.tries != ATTEMPT_LIMIT
      modifies `books, `pending
      ensures Valid() && books == Requeue(old(books), s, e)
    {
      ReturnCounts(books.pending, books.inFlight, calls, books.sequence, s, e.due);
      RequeueKeeps(books, s, e);
      books, pending := Requeue(books, s, e), pending[s := e];
    }

    /** Workers have left: what is still retained is discarded, and the books balance. */
    method Finish() returns (unsent: int)
      requires Valid() && books.inFlight == map[]
      modifies `completed, `pending, `retained
      ensures completed && unsent == |books.pending| + |books.abandoned|
      ensures sequence == |books.released| + |books.dropped| + unsent
      ensures forall s | s in calls :: calls[s] <= ATTEMPT_LIMIT
    {
      forall s | s in calls ensures calls[s] <= ATTEMPT_LIMIT { assert CallsOk(books.pending, books.inFlight, calls, books.sequence, s); }
      unsent := retained;
      pending, retained, completed := map[], 0, true;
    }
  }
}
