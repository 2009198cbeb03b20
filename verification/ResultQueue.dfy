/** The scheduler's queue of acknowledged business results: retained until a save returns nil,
    retried with backoff, drained at shutdown. */
module ResultQueue {
  import opened Base
  import opened Retention

  datatype Admission = Admitted | Full | Unavailable

  const FAILURE_LIMIT: nat := 6

  class Queue {
    const capacity: nat
    var started: bool
    var stopping: bool
    var completed: bool
    var cancelled: bool
    var retained: int
    var sequence: nat
    var pending: map<nat, Entry>
    /** Where every report ever admitted is. */
    ghost var books: Store

    /** Until it has completed, every admitted report is saved or retained; none is dropped. */
    ghost predicate Valid()
      reads this
    {
      && !completed && Conserved(books) && books.dropped == {} && (books.abandoned != {} ==> cancelled)
      && capacity == books.capacity && retained == books.retained && sequence == books.sequence && pending == books.pending
    }

    constructor (capacity: nat)
      ensures Valid() && books == Empty(capacity) && !started && !stopping && !cancelled
    {
      this.capacity := capacity;
      started, stopping, completed, cancelled, retained, sequence, pending := false, false, false, false, 0, 0, map[];
      books := Empty(capacity);
    }

    method Start() returns (ok: bool)
      requires Valid()
      modifies `started
      ensures Valid() && ok == (!old(started) && !stopping) && started == (old(started) || ok)
    {
      ok := !started && !stopping;
      if ok { started := true; }
    }

    /** Close admission; what is retained is still worked off. A queue that never started is complete. */
    method Stop()
      requires Valid()
      modifies `stopping, `cancelled, `completed
      ensures stopping && completed == !started && (started ==> Valid() && cancelled == old(cancelled))
    {
      stopping := true;
      if !started { cancelled, completed := true, true; }
    }

    /** The drain budget is used up: retries end. */
    method Cancel()
      requires Valid()
      modifies `cancelled
      ensures Valid() && cancelled
    {
      cancelled := true;
    }

    method Accept(callLive: bool, now: int) returns (r: Admission)
      requires Valid()
      modifies `sequence, `pending, `retained, `books
      ensures Valid() && books == if r.Admitted? then Admit(old(books), now) else old(books)
      ensures r == if !callLive || !started || stopping then Unavailable else if old(retained) == capacity then Full else Admitted
    {
      if !callLive || !started || stopping { return Unavailable; }
      if retained == capacity { return Full; }
      AdmitKeeps(books, now);
      books := Admit(books, now);
      sequence := sequence + 1;
      pending, retained := pending[sequence := Entry(now, 0)], retained + 1;
      return Admitted;
    }

    /** The least (due, sequence) entry, once it is due; a worker leaves only when the run is
        cancelled or a stopping queue retains nothing. */
    method Take(now: int) returns (s: Option<nat>, leave: bool)
      requires Valid()
      modifies `pending, `books
      ensures Valid()
      ensures leave <==> cancelled || (stopping && retained == 0)
      ensures s.Some? ==> IsLeast(old(pending), s.value) && old(pending)[s.value].due <= now && books == Begin(old(books), s.value)
      ensures s.None? ==> books == old(books) && (leave || forall t | t in pending :: now < pending[t].due)
    {
      s, leave := None, cancelled || (stopping && retained == 0);
      if leave || pending == map[] { return; }
      var least := Least(pending);
      if now < pending[least].due {
        forall t | t in pending ensures now < pending[t].due { assert Before(pending, least, t); }
        return;
      }
      BeginKeeps(books, least);
      books := Begin(books, least);
      pending := pending - {least};
      s := Some(least);
    }

    /** A nil save releases the report; any other outcome keeps it, for a later attempt unless
        the run was cancelled. */
    method SaveReturned(s: nat, entry: Entry, ok: bool, now: int, delay: nat)
      requires Valid() && s in books.inFlight && books.inFlight[s] == entry
      modifies `books, `pending, `retained
      ensures Valid()
      ensures var retry := Entry(now + delay, if entry.tries < FAILURE_LIMIT then entry.tries + 1 else entry.tries);
              books == (if ok then Release(old(books), s) else if cancelled then Abandon(old(books), s) else Requeue(old(books), s, retry))
    {
      if ok {
        ReleaseKeeps(books, s);
        books := Release(books, s);
        retained := retained - 1;
      } else if cancelled {
        AbandonKeeps(books, s);
        books := Abandon(books, s);
      } else {
        var retry := Entry(now + delay, if entry.tries < FAILURE_LIMIT then entry.tries + 1 else entry.tries);
        RequeueKeeps(books, s, retry);
        books := Requeue(books, s, retry);
        pending := pending[s := retry];
      }
    }

    /** All workers have left. The drain reports success only if nothing was retained, and then
        every admitted report has been saved. */
    method Finish() returns (drained: bool)
      requires Valid() && books.inFlight == map[]
      modifies `completed, `pending, `retained
      ensures completed && drained == (old(retained) == 0)
      ensures drained ==> forall s: nat :: 1 <= s <= sequence <==> s in books.released
      ensures !drained ==> |books.released| < sequence
    {
      drained := retained == 0;
      if drained { NothingRetained(books); }
      pending, retained, completed := map[], 0, true;
    }
  }
}
