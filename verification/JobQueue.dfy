/** The scheduler's ring buffer of trigger hints: bounded, coalescing by Job ID, and requeueing
    an ID hinted while it was processed. */
module JobQueue {
  import opened Base
  import opened Collections

  datatype Hint = Hint(processing: bool, dirty: bool)

  /** The slot `k` places after `head` in a ring of `n`. */
  function Slot(head: nat, k: nat, n: nat): (r: nat)
    requires head < n && k <= n
    ensures r < n && r == (head + k) % n
  {
    Wraps(head + k, n);
    if head + k < n then head + k else head + k - n
  }

  predicate Waiting(jobs: map<Id, Hint>, id: Id) { id in jobs && !jobs[id].processing }

  /** The window holds each retained ID that is not being processed, once. */
  ghost predicate Coalesced(window: seq<Id>, jobs: map<Id, Hint>) {
    && Distinct(window)
    && (forall id :: id in window <==> Waiting(jobs, id))
    && (forall id | Waiting(jobs, id) :: !jobs[id].dirty)
  }

  /** A retained ID leaves room for the window, a processed one leaves a free slot. */
  lemma WindowFits(window: seq<Id>, jobs: map<Id, Hint>)
    requires Coalesced(window, jobs)
    ensures |window| <= |jobs|
    ensures (exists id :: id in jobs && jobs[id].processing) ==> |window| < |jobs|
  {
    var waiting := set id | id in window;
    DistinctCount(window);
    forall id | id in waiting ensures id in jobs { assert Waiting(jobs, id); }
    SubsetCount(waiting, jobs.Keys);
    if id :| id in jobs && jobs[id].processing {
      assert !Waiting(jobs, id) && id !in waiting;
      SubsetCount(waiting, jobs.Keys - {id});
    }
  }

  /** A new or dirty ID joins the tail. */
  lemma Joins(window: seq<Id>, jobs: map<Id, Hint>, id: Id)
    requires Coalesced(window, jobs) && !Waiting(jobs, id)
    ensures Coalesced(window + [id], jobs[id := Hint(false, false)])
  {
    var jobs' := jobs[id := Hint(false, false)];
    assert id !in window;
    forall k ensures k in window + [id] <==> Waiting(jobs', k) { assert k in window <==> Waiting(jobs, k); }
    forall k | Waiting(jobs', k) ensures !jobs'[k].dirty { assert k != id ==> Waiting(jobs, k); }
  }

  /** The head of the window goes to a worker. */
  lemma LeadsOff(window: seq<Id>, jobs: map<Id, Hint>)
    requires Coalesced(window, jobs) && window != []
    ensures Waiting(jobs, window[0]) && Coalesced(window[1..], jobs[window[0] := Hint(true, false)])
  {
    var id, rest, jobs' := window[0], window[1..], jobs[window[0] := Hint(true, false)];
    assert window == [id] + rest && id in window;
    forall k ensures k in rest <==> Waiting(jobs', k) { assert k in window <==> Waiting(jobs, k); }
    forall k | Waiting(jobs', k) ensures !jobs'[k].dirty { assert Waiting(jobs, k); }
  }

  /** A change of a processed ID leaves the window alone. */
  lemma Elsewhere(window: seq<Id>, jobs: map<Id, Hint>, jobs': map<Id, Hint>, id: Id)
    requires Coalesced(window, jobs) && !Waiting(jobs, id) && !Waiting(jobs', id)
    requires forall k | k != id :: (k in jobs <==> k in jobs') && (k in jobs ==> jobs[k] == jobs'[k])
    ensures Coalesced(window, jobs')
  {
    forall k ensures k in window <==> Waiting(jobs', k) { assert k in window <==> Waiting(jobs, k); }
    forall k | Waiting(jobs', k) ensures !jobs'[k].dirty { assert Waiting(jobs, k); }
  }

  class Queue {
    var jobs: map<Id, Hint>
    const buffer: array<Id>
    var head: nat
    var size: nat
    var closed: bool

    /** The queued IDs in order. */
    ghost function Window(): seq<Id>
      requires head < buffer.Length && size <= buffer.Length
      reads this, buffer
    {
      seq(size, k requires 0 <= k < size reads this, buffer => if head < buffer.Length && k <= buffer.Length then buffer[Slot(head, k, buffer.Length)] else 0)
    }

    ghost predicate Valid()
      reads this, buffer
    {
      && head < buffer.Length && size <= buffer.Length
      && Coalesced(Window(), jobs) && |jobs| <= buffer.Length
      && (closed ==> jobs == map[])
    }

    constructor (capacity: nat)
      requires 0 < capacity
      ensures Valid() && fresh(buffer) && buffer.Length == capacity && Window() == [] && jobs == map[] && !closed
    {
      buffer := new Id[capacity](_ => 0);
      jobs, head, size, closed := map[], 0, 0, false;
    }

    /** Never overwrites: the caller has shown that a slot is free. */
    method Push(id: Id)
      requires head < buffer.Length && size < buffer.Length
      modifies buffer, `size
      ensures head < buffer.Length && size <= buffer.Length && Window() == old(Window()) + [id]
    {
      ghost var before := Window();
      var at := Slot(head, size, buffer.Length);
      buffer[at] := id;
      size := size + 1;
      forall k | 0 <= k < size - 1 ensures Window()[k] == before[k] {
        assert Slot(head, k, buffer.Length) != at;
      }
    }

    /** An accepted hint is queued or will be queued when the running turn completes. */
    method Offer(id: Id) returns (ok: bool)
      requires Valid()
      modifies this, buffer
      ensures Valid() && closed == old(closed)
      ensures ok <==> !closed && (id in old(jobs) || |old(jobs)| < buffer.Length)
      ensures ok ==> id in Window() || (id in jobs && jobs[id] == Hint(true, true))
      ensures if ok && id !in old(jobs) then Window() == old(Window()) + [id] && jobs == old(jobs)[id := Hint(false, false)]
              else Window() == old(Window()) && (forall k | k in old(jobs) && k != id :: k in jobs && jobs[k] == old(jobs)[k])
                   && jobs.Keys == old(jobs).Keys
    {
      if closed { return false; }
      ghost var before := Window();
      assert id in before <==> Waiting(jobs, id);
      if id in jobs {
        if jobs[id].processing {
          Elsewhere(before, jobs, jobs[id := jobs[id].(dirty := true)], id);
          jobs := jobs[id := jobs[id].(dirty := true)];
          assert Window() == before;
        }
        return true;
      }
      if |jobs| == buffer.Length { return false; }
      WindowFits(before, jobs);
      Joins(before, jobs, id);
      jobs := jobs[id := Hint(false, false)];
      assert Window() == before;
      Push(id);
      return true;
    }

    /** The oldest queued ID goes to one worker. */
    method Take() returns (r: Option<Id>)
      requires Valid()
      modifies this
      ensures Valid() && closed == old(closed)
      ensures r.None? <==> old(closed) || old(Window()) == []
      ensures r.None? ==> Window() == old(Window()) && jobs == old(jobs)
      ensures r.Some? ==> old(Window()) == [r.value] + Window() && jobs == old(jobs)[r.value := Hint(true, false)]
    {
      if size == 0 || closed { return None; }
      ghost var before := Window();
      var id := buffer[head];
      LeadsOff(before, jobs);
      assert id == before[0];
      head := Slot(head, 1, buffer.Length);
      size := size - 1;
      jobs := jobs[id := jobs[id].(processing := true)];
      assert Window() == before[1..];
      return Some(id);
    }

    /** A finished turn frees its slot, or reuses it for the hint that came meanwhile. */
    method Complete(id: Id)
      requires Valid() && (!closed ==> id in jobs && jobs[id].processing)
      modifies this, buffer
      ensures Valid() && closed == old(closed)
      ensures closed ==> Window() == old(Window()) && jobs == old(jobs)
      ensures !closed && old(jobs)[id].dirty ==> Window() == old(Window()) + [id] && jobs == old(jobs)[id := Hint(false, false)]
      ensures !closed && !old(jobs)[id].dirty ==> Window() == old(Window()) && jobs == old(jobs) - {id}
    {
      if closed { return; }
      ghost var before := Window();
      WindowFits(before, jobs);
      if jobs[id].dirty {
        Joins(before, jobs, id);
        jobs := jobs[id := Hint(false, false)];
        assert Window() == before;
        Push(id);
      } else {
        Elsewhere(before, jobs, jobs - {id}, id);
        SubsetCount((jobs - {id}).Keys, jobs.Keys);
        jobs := jobs - {id};
        assert Window() == before;
      }
    }

    method Close()
      requires Valid()
      modifies this
      ensures Valid() && closed && Window() == [] && jobs == map[]
    {
      closed, jobs, size := true, map[], 0;
    }
  }
}
