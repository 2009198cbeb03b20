/** One executor process over whole runs, and its in-place form. */
module ExecutorRuntime {
  import opened Base
  import opened Collections
  import opened ExecutorState

  // ----- runs -----

  datatype Event =
    | Start | Accept(key: Key, instance: Id, deadline: Time, callLive: bool, valid: bool, now: Time)
    | Receive | Begin(key: Key, now: Time) | Return(key: Key) | Cancel(instance: Id) | Stop | Abort

  function Next(x: Exec, ev: Event): Exec {
    match ev
    case Start => if x.stopping then x else x.(started := true)
    case Accept(key, instance, deadline, callLive, valid, now) => AfterAdmit(x, key, instance, deadline, callLive, valid, now)
    case Receive => if x.queue != [] then AfterReceive(x) else x
    case Begin(key, now) => if key in x.held && key in x.active then AfterBegin(x, key, now) else x
    case Return(key) => if key in Executing(x) then AfterReturn(x, key) else x
    case Cancel(instance) => AfterCancel(x, instance)
    case Stop => x.(stopping := true)
    case Abort => AfterAbort(x)
  }

  /** The step calls the processor for `k`. */
  predicate Calls(x: Exec, ev: Event, k: Key) {
    ev.Begin? && ev.key == k && k in x.held && k in x.active && Invokes(x, k, ev.now)
  }

  /** The step admits `k` as new work. */
  predicate Admits(x: Exec, ev: Event, k: Key) {
    ev.Accept? && ev.key == k && k !in x.active && Admit(x, k, ev.deadline, ev.callLive, ev.valid, ev.now).Accepted?
  }

  /** Work that a worker may still start. */
  predicate Startable(x: Exec, k: Key) { k in x.active && !x.active[k].executing && !x.active[k].cancelled && !x.aborted }

  function Count(b: bool): nat { if b then 1 else 0 }

  function Run(x: Exec, events: seq<Event>): Exec
    decreases |events|
  {
    if events == [] then x else Run(Next(x, events[0]), events[1..])
  }

  function CallsIn(x: Exec, events: seq<Event>, k: Key): nat
    decreases |events|
  {
    if events == [] then 0 else Count(Calls(x, events[0], k)) + CallsIn(Next(x, events[0]), events[1..], k)
  }

  function AdmitsIn(x: Exec, events: seq<Event>, k: Key): nat
    decreases |events|
  {
    if events == [] then 0 else Count(Admits(x, events[0], k)) + AdmitsIn(Next(x, events[0]), events[1..], k)
  }

  lemma StepKeeps(x: Exec, ev: Event)
    requires Consistent(x)
    ensures Consistent(Next(x, ev))
  {
    match ev
    case Start => {}
    case Accept(key, instance, deadline, callLive, valid, now) =>
      AdmitKeepsConsistent(x, key, instance, deadline, callLive, valid, now);
    case Receive => if x.queue != [] { ReceiveKeepsConsistent(x); }
    case Begin(key, now) => if key in x.held && key in x.active { BeginKeepsConsistent(x, key, now); }
    case Return(key) => if key in Executing(x) { ReturnKeepsConsistent(x, key); }
    case Cancel(instance) => SignalsKeepConsistent(x, instance);
    case Stop => {}
    case Abort => SignalsKeepConsistent(x, 0);
  }

  lemma StepCalls(x: Exec, ev: Event, k: Key)
    requires Consistent(x)
    ensures Count(Calls(x, ev, k)) + Count(Startable(Next(x, ev), k)) <= Count(Startable(x, k)) + Count(Admits(x, ev, k))
  {
    if Calls(x, ev, k) { assert k !in Executing(x); }
  }

  /** The processor is called for an attempt no more often than it was admitted. */
  lemma {:induction false} CallsNeedAdmission(x: Exec, events: seq<Event>, k: Key)
    requires Consistent(x)
    ensures Consistent(Run(x, events))
    ensures CallsIn(x, events, k) + Count(Startable(Run(x, events), k)) <= Count(Startable(x, k)) + AdmitsIn(x, events, k)
    decreases |events|
  {
    if events != [] {
      StepKeeps(x, events[0]);
      StepCalls(x, events[0], k);
      CallsNeedAdmission(Next(x, events[0]), events[1..], k);
    }
  }

  /** A cancelled activity never begins to execute, and one that executes is interrupted. */
  predicate Struck(x: Exec, k: Key, executing: bool) {
    k in x.active ==> x.active[k].cancelled && x.active[k].executing == executing && (executing ==> x.active[k].interrupted)
  }

  lemma StepStrikes(x: Exec, ev: Event, k: Key, executing: bool)
    requires Consistent(x) && Struck(x, k, executing) && !Admits(x, ev, k)
    ensures Struck(Next(x, ev), k, executing) && !Calls(x, ev, k)
  {
  }

  lemma {:induction false} RunStrikes(x: Exec, events: seq<Event>, k: Key, executing: bool)
    requires Consistent(x) && Struck(x, k, executing) && AdmitsIn(x, events, k) == 0
    ensures Struck(Run(x, events), k, executing) && CallsIn(x, events, k) == 0
    decreases |events|
  {
    if events != [] {
      StepKeeps(x, events[0]);
      StepStrikes(x, events[0], k, executing);
      RunStrikes(Next(x, events[0]), events[1..], k, executing);
    }
  }

  /** Cancelling an Instance reaches every activity of it for good: whatever happens later, work
      that was not executing is never called, work that was stays interrupted until it leaves, and
      neither is called again unless it is admitted anew. */
  lemma CancelReaches(x: Exec, events: seq<Event>, k: Key)
    requires Consistent(x) && k in x.active
    requires AdmitsIn(Next(x, Cancel(x.active[k].instance)), events, k) == 0
    ensures var y := Next(x, Cancel(x.active[k].instance));
            Struck(Run(y, events), k, x.active[k].executing) && CallsIn(y, events, k) == 0
  {
    StepKeeps(x, Cancel(x.active[k].instance));
    RunStrikes(Next(x, Cancel(x.active[k].instance)), events, k, x.active[k].executing);
  }

  // ----- in place -----

  class Runtime {
    const capacity: nat
    var active: map<Key, Activity>
    var queue: seq<Key>
    var closed: bool
    var started: bool
    var stopping: bool
    var aborted: bool
    ghost var held: set<Key>

    ghost function View(): Exec
      reads this
    {
      Exec(started, stopping, aborted, capacity, queue, held, active)
    }

    /** The channel is closed exactly when the runtime is stopping. */
    ghost predicate Valid()
      reads this
    {
      Consistent(View()) && closed == stopping
    }

    constructor (capacity: nat)
      ensures Valid() && View() == IDLE.(capacity := capacity)
    {
      this.capacity := capacity;
      active, queue, closed, started, stopping, aborted := map[], [], false, false, false, false;
      held := {};
    }

    method Start() returns (ok: bool)
      requires Valid()
      modifies `started
      ensures Valid() && View() == Next(old(View()), Event.Start) && ok == (!old(started) && !stopping)
    {
      StepKeeps(View(), Event.Start);
      ok := !started && !stopping;
      if ok { started := true; }
    }

    /** A send on a closed channel would panic, so it must be open. */
    method Send(key: Key, work: Activity)
      requires !closed
      modifies `queue, `active
      ensures queue == old(queue) + [key] && active == old(active)[key := work]
    {
      queue := queue + [key];
      active := active[key := work];
    }

    method AcceptWork(key: Key, instance: Id, deadline: Time, callLive: bool, valid: bool, now: Time) returns (r: Admission)
      requires Valid()
      modifies `queue, `active
      ensures Valid() && View() == AfterAdmit(old(View()), key, instance, deadline, callLive, valid, now)
      ensures r == Admit(old(View()), key, deadline, callLive, valid, now) && (r.Accepted? <==> key in active)
    {
      if key in active { return Accepted; }
      if stopping { return Stopping; }
      if !started { return NotReady; }
      if !callLive { return Uncertain; }
      if deadline <= now { return Expired; }
      if !valid { return Uncertain; }
      if |queue| == capacity { return Full; }
      AdmitKeepsConsistent(View(), key, instance, deadline, callLive, valid, now);
      Send(key, Activity(instance, deadline, false, false, false));
      return Accepted;
    }

    /** Signal every activity of the Instance, in any order. */
    method CancelInstance(instance: Id)
      requires Valid()
      modifies `active
      ensures Valid() && View() == AfterCancel(old(View()), instance)
    {
      ghost var x := View();
      var keys := active.Keys;
      while keys != {}
        invariant keys <= active.Keys == x.active.Keys
        invariant forall k | k in active :: active[k] == (if k in keys then x.active[k] else AfterCancel(x, instance).active[k])
        decreases keys
      {
        var key, rest := Pick(keys);
        var work := active[key];
        if work.instance == instance {
          active := active[key := work.(cancelled := true, interrupted := work.interrupted || work.executing)];
        }
        keys := rest;
      }
      assert active == AfterCancel(x, instance).active;
      SignalsKeepConsistent(x, instance);
    }

    method StopAdmission()
      requires Valid()
      modifies `stopping, `closed
      ensures Valid() && View() == old(View()).(stopping := true)
    {
      if stopping { return; }
      stopping, closed := true, true;
    }

    /** A worker receives the next queued attempt. */
    method Dequeue() returns (key: Key)
      requires Valid() && queue != []
      modifies `queue, `held
      ensures Valid() && View() == AfterReceive(old(View())) && key == old(queue)[0] && key in held && key in active
    {
      ReceiveKeepsConsistent(View());
      key := queue[0];
      queue, held := queue[1..], held + {key};
    }

    /** Drop the received attempt or create its business context. */
    method BeginWork(key: Key, now: Time) returns (call: bool)
      requires Valid() && key in held
      modifies `active, `held
      ensures Valid() && key in old(active) && View() == AfterBegin(old(View()), key, now) && call == Invokes(old(View()), key, now)
    {
      BeginKeepsConsistent(View(), key, now);
      var work := active[key];
      held := held - {key};
      if work.cancelled || aborted || work.deadline <= now {
        active := active - {key};
        return false;
      }
      active := active[key := work.(executing := true)];
      return true;
    }

    method EndWork(key: Key)
      requires Valid() && key in Executing(View())
      modifies `active
      ensures Valid() && View() == AfterReturn(old(View()), key)
    {
      ReturnKeepsConsistent(View(), key);
      active := active - {key};
    }
  }
}
