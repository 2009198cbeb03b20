/** One executor process's local admission, as atomic critical sections on a value. */
module ExecutorState {
  import opened Base

  datatype Key = Key(task: Id, attemptNo: int)

  /** `executing` means a worker has created the business context; `interrupted` that this
      context has been cancelled. */
  datatype Activity = Activity(instance: Id, deadline: Time, cancelled: bool, executing: bool, interrupted: bool)

  /** `queue` is the bounded channel, `held` the work a worker has received but not yet
      begun, `aborted` the cancelled runtime context. Stopping also closes the channel. */
  datatype Exec = Exec(started: bool, stopping: bool, aborted: bool, capacity: nat,
                       queue: seq<Key>, held: set<Key>, active: map<Key, Activity>)

  datatype Admission = Accepted | Full | NotReady | Stopping | Expired | Uncertain

  function Admit(x: Exec, key: Key, deadline: Time, callLive: bool, valid: bool, now: Time): Admission {
    if key in x.active then Accepted
    else if x.stopping then Stopping
    else if !x.started then NotReady
    else if !callLive then Uncertain
    else if deadline <= now then Expired
    else if !valid then Uncertain
    else if |x.queue| < x.capacity then Accepted
    else Full
  }

  function AfterAdmit(x: Exec, key: Key, instance: Id, deadline: Time, callLive: bool, valid: bool, now: Time): Exec {
    if key !in x.active && Admit(x, key, deadline, callLive, valid, now).Accepted? then
      x.(queue := x.queue + [key], active := x.active[key := Activity(instance, deadline, false, false, false)])
    else x
  }

  function AfterReceive(x: Exec): Exec
    requires x.queue != []
  {
    x.(queue := x.queue[1..], held := x.held + {x.queue[0]})
  }

  /** Whether the worker holding `key` calls the processor or drops the work. */
  predicate Invokes(x: Exec, key: Key, now: Time)
    requires key in x.active
  {
    !x.active[key].cancelled && !x.aborted && now < x.active[key].deadline
  }

  function AfterBegin(x: Exec, key: Key, now: Time): Exec
    requires key in x.active
  {
    if Invokes(x, key, now) then
      x.(held := x.held - {key}, active := x.active[key := x.active[key].(executing := true)])
    else x.(held := x.held - {key}, active := x.active - {key})
  }

  function AfterReturn(x: Exec, key: Key): Exec { x.(active := x.active - {key}) }

  function AfterCancel(x: Exec, instance: Id): Exec {
    x.(active := map k | k in x.active ::
         if x.active[k].instance == instance
         then x.active[k].(cancelled := true, interrupted := x.active[k].interrupted || x.active[k].executing)
         else x.active[k])
  }

  function AfterAbort(x: Exec): Exec {
    x.(aborted := true, active := map k | k in x.active ::
         x.active[k].(interrupted := x.active[k].interrupted || x.active[k].executing))
  }

  function Queued(x: Exec): set<Key> { set k | k in x.queue }

  function Executing(x: Exec): set<Key> { set k | k in x.active && x.active[k].executing }

  /** Active attempts are exactly the queued, the held and the executing ones, each once;
      a cancelled activity that executes has had its context cancelled. */
  ghost predicate Consistent(x: Exec) {
    && (forall a, b | 0 <= a < b < |x.queue| :: x.queue[a] != x.queue[b])
    && |x.queue| <= x.capacity
    && Queued(x) !! x.held !! Executing(x)
    && x.active.Keys == Queued(x) + x.held + Executing(x)
    && (x.queue != [] ==> x.started)
    && (forall k | k in x.active && x.active[k].executing && (x.active[k].cancelled || x.aborted) :: x.active[k].interrupted)
  }

  const IDLE := Exec(false, false, false, 0, [], {}, map[])

  lemma AdmitKeepsConsistent(x: Exec, key: Key, instance: Id, deadline: Time, callLive: bool, valid: bool, now: Time)
    requires Consistent(x)
    ensures Consistent(AfterAdmit(x, key, instance, deadline, callLive, valid, now))
  {
    var y := AfterAdmit(x, key, instance, deadline, callLive, valid, now);
    if y != x {
      assert Queued(y) == Queued(x) + {key};
      assert Executing(y) == Executing(x);
    }
  }

  lemma ReceiveKeepsConsistent(x: Exec)
    requires Consistent(x) && x.queue != []
    ensures Consistent(AfterReceive(x))
  {
    var y := AfterReceive(x);
    assert x.queue == [x.queue[0]] + y.queue;
    assert Queued(x) == {x.queue[0]} + Queued(y);
    assert x.queue[0] !in Queued(y);
    assert Executing(y) == Executing(x);
  }

  lemma BeginKeepsConsistent(x: Exec, key: Key, now: Time)
    requires Consistent(x) && key in x.held
    ensures Consistent(AfterBegin(x, key, now))
  {
    var y := AfterBegin(x, key, now);
    assert Queued(y) == Queued(x);
    assert Executing(y) == if Invokes(x, key, now) then Executing(x) + {key} else Executing(x);
  }

  lemma ReturnKeepsConsistent(x: Exec, key: Key)
    requires Consistent(x) && key in Executing(x)
    ensures Consistent(AfterReturn(x, key))
  {
    assert Executing(AfterReturn(x, key)) == Executing(x) - {key};
    assert Queued(AfterReturn(x, key)) == Queued(x);
  }

  lemma SignalsKeepConsistent(x: Exec, instance: Id)
    requires Consistent(x)
    ensures Consistent(AfterCancel(x, instance))
    ensures Consistent(AfterAbort(x))
  {
    assert Executing(AfterCancel(x, instance)) == Executing(x) == Executing(AfterAbort(x));
    assert Queued(AfterCancel(x, instance)) == Queued(x) == Queued(AfterAbort(x));
  }
}
