/** The stop queue's positions: hints of one Instance share a position, a turn that leaves work
    keeps it and moves to the tail, any other turn gives it up. */
module StopQueue {
  import opened Base

  /** An ID is retained exactly while it waits, once, or is being worked on. */
  ghost predicate PlaceOk(entries: set<Id>, pending: seq<Id>, working: set<Id>, id: Id) {
    && (id in entries <==> id in multiset(pending) || id in working)
    && multiset(pending)[id] <= 1 && !(id in multiset(pending) && id in working)
  }

  ghost predicate PlacesOk(entries: set<Id>, pending: seq<Id>, working: set<Id>) {
    forall id {:trigger PlaceOk(entries, pending, working, id)} :: PlaceOk(entries, pending, working, id)
  }

  lemma Joins(entries: set<Id>, pending: seq<Id>, working: set<Id>, id: Id)
    requires PlacesOk(entries, pending, working) && (id !in entries || id in working)
    ensures PlacesOk(entries + {id}, pending + [id], working - {id})
  {
    var entries', pending', working' := entries + {id}, pending + [id], working - {id};
    assert multiset(pending') == multiset(pending) + multiset{id};
    forall k ensures PlaceOk(entries', pending', working', k) {
      assert PlaceOk(entries, pending, working, k) && PlaceOk(entries, pending, working, id);
    }
  }

  lemma Leads(entries: set<Id>, pending: seq<Id>, working: set<Id>)
    requires PlacesOk(entries, pending, working) && pending != []
    ensures PlacesOk(entries, pending[1..], working + {pending[0]}) && pending[0] !in working
  {
    var pending', working' := pending[1..], working + {pending[0]};
    assert pending == [pending[0]] + pending';
    forall k ensures PlaceOk(entries, pending', working', k) { assert PlaceOk(entries, pending, working, k); }
    assert PlaceOk(entries, pending, working, pending[0]);
  }

  lemma Leaves(entries: set<Id>, pending: seq<Id>, working: set<Id>, id: Id)
    requires PlacesOk(entries, pending, working) && id in working
    ensures PlacesOk(entries - {id}, pending, working - {id}) && |entries - {id}| < |entries|
  {
    var entries', working' := entries - {id}, working - {id};
    assert PlaceOk(entries, pending, working, id);
    forall k ensures PlaceOk(entries', pending, working', k) { assert PlaceOk(entries, pending, working, k); }
  }

  class Queue {
    const capacity: nat
    var started: bool
    var stopping: bool
    var cancelled: bool
    var entries: set<Id>
    var pending: seq<Id>
    ghost var working: set<Id>

    ghost predicate Valid()
      reads this
    {
      PlacesOk(entries, pending, working) && |entries| <= capacity
    }

    constructor (capacity: nat)
      ensures Valid() && entries == {} && pending == [] && working == {} && !started && !stopping && !cancelled
    {
      this.capacity := capacity;
      started, stopping, cancelled, entries, pending := false, false, false, {}, [];
      working := {};
    }

    method Start() returns (ok: bool)
      modifies `started
      ensures ok == (!old(started) && !stopping) && started == (old(started) || ok)
    {
      ok := !started && !stopping;
      if ok { started := true; }
    }

    /** Close admission; retained work goes on unless the queue never started. */
    method Stop()
      modifies `stopping, `cancelled
      ensures stopping && cancelled == (old(cancelled) || (!old(stopping) && !started))
    {
      if stopping { return; }
      stopping := true;
      if !started { cancelled := true; }
    }

    /** The drain budget is used up. */
    method Cancel()
      modifies `cancelled
      ensures cancelled
    {
      cancelled := true;
    }

    method Hint(id: Id) returns (ok: bool)
      requires Valid()
      modifies `entries, `pending
      ensures Valid() && (ok ==> id in entries)
      ensures ok <==> 0 < id && started && !stopping && (id in old(entries) || |old(entries)| < capacity)
      ensures pending == if ok && id !in old(entries) then old(pending) + [id] else old(pending)
    {
      if id <= 0 || !started || stopping { return false; }
      if id in entries { return true; }
      if |entries| == capacity { return false; }
      Joins(entries, pending, working, id);
      assert PlaceOk(entries, pending, working, id) && working - {id} == working;
      entries, pending := entries + {id}, pending + [id];
      return true;
    }

    method Take() returns (r: Option<Id>)
      requires Valid()
      modifies `pending, `working
      ensures Valid() && (r.None? <==> cancelled || old(pending) == [])
      ensures r.None? ==> pending == old(pending) && working == old(working)
      ensures r.Some? ==> old(pending) == [r.value] + pending && working == old(working) + {r.value} && r.value !in old(working)
    {
      if cancelled || pending == [] { return None; }
      Leads(entries, pending, working);
      r := Some(pending[0]);
      working, pending := working + {pending[0]}, pending[1..];
    }

    /** Unfinished work keeps its slot and yields; everything else frees it. A hint merged before
        this release asks for no further turn. */
    method Complete(id: Id, more: bool)
      requires Valid() && id in working
      modifies `entries, `pending, `working
      ensures Valid() && working == old(working) - {id}
      ensures if more && !cancelled then entries == old(entries) && pending == old(pending) + [id]
              else entries == old(entries) - {id} && pending == old(pending)
    {
      if more && !cancelled {
        Joins(entries, pending, working, id);
        assert PlaceOk(entries, pending, working, id) && entries + {id} == entries;
        pending, working := pending + [id], working - {id};
      } else {
        Leaves(entries, pending, working, id);
        entries, working := entries - {id}, working - {id};
      }
    }
  }
}
