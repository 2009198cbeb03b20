/** What the referential protocol promises about whole runs. */
module ReferencesTheorems {
  import opened Base
  import opened References
  import opened ReferencesProofs

  ghost predicate Reachable(s: State) { exists events: seq<Event> :: s == Run(JobsFirst, INITIAL, events) }

  lemma ReachableOk(s: State)
    requires Reachable(s)
    ensures Inv(s)
  {
    var events: seq<Event> :| s == Run(JobsFirst, INITIAL, events);
    assert Inv(INITIAL);
    RunKeeps(INITIAL, events);
  }

  // ----- references to groups -----

  /** No undeleted Job and no active round refers to a deleted group; a deleted Job has no
      active round. */
  predicate NoDanglingReference(s: State) {
    && (forall j | j in s.jobs && !s.jobs[j].deleted :: Available(s, s.jobs[j].group))
    && (forall r | r in s.rounds && s.rounds[r].active ::
          Available(s, s.rounds[r].group) && s.rounds[r].job in s.jobs && !s.jobs[s.rounds[r].job].deleted)
  }

  lemma ReferencesHold(s: State)
    requires Reachable(s)
    ensures NoDanglingReference(s)
  {
    ReachableOk(s);
    forall j | j in s.jobs && !s.jobs[j].deleted ensures Available(s, s.jobs[j].group) {
      assert JobOk(s.groups, s.jobs, s.rounds, s.loosened, j);
    }
    forall r | r in s.rounds && s.rounds[r].active
      ensures Available(s, s.rounds[r].group) && s.rounds[r].job in s.jobs && !s.jobs[s.rounds[r].job].deleted
    {
      assert RoundOk(s.groups, s.jobs, s.rounds, r) && JobOk(s.groups, s.jobs, s.rounds, s.loosened, s.rounds[r].job);
      assert ActiveFor(s.rounds, r, s.rounds[r].job);
    }
  }

  // A run that breaks the references when the rounds are checked first.

  const RAW_JOB := Job(1, false, false, true, false, "", None)
  const RAW_ROUND := Round(7, 1, Request(100), false, "", true)
  const CREATE := Creating(Definition(1, true, false, ""), false)
  const MOVE := Updating(7, Definition(2, true, false, ""))
  const TRIGGER := Manual(100, false, "")

  const TWO_GROUPS := INITIAL.(groups := map[1 := true, 2 := true])
  const ONE_JOB := TWO_GROUPS.(jobs := map[7 := RAW_JOB])
  const TRIGGERING := ONE_JOB.(jobTx := map[7 := JobTx(RAW_JOB, TRIGGER, true, true, Some(false))])
  const NO_ROUNDS_SEEN := TRIGGERING.(groupTx := map[1 := Deleting(false, true)])
  const TRIGGERED := NO_ROUNDS_SEEN.(rounds := map[50 := RAW_ROUND], jobTx := map[], replies := {Reply(7, 100, false, "", 50)})
  const MOVED := TRIGGERED.(jobs := map[7 := RAW_JOB.(group := 2)])
  const DELETED := MOVED.(groups := map[1 := false, 2 := true], groupTx := map[])

  ghost predicate Leads(a: State, events: seq<Event>, b: State) { Run(RoundsFirst, a, events) == b }

  lemma Two(a: State, e: Event, f: Event, b: State)
    requires Next(RoundsFirst, Next(RoundsFirst, a, e), f) == b
    ensures Leads(a, [e, f], b)
  {
    assert [e, f][1..] == [f] && Run(RoundsFirst, Next(RoundsFirst, a, e), [f]) == b;
  }

  lemma Join(a: State, events: seq<Event>, b: State, more: seq<Event>, c: State)
    requires Leads(a, events, b) && Leads(b, more, c)
    ensures Leads(a, events + more, c)
  {
    RunConcat(RoundsFirst, a, events, more);
  }

  lemma GroupsAndJob() returns (events: seq<Event>)
    ensures Leads(INITIAL, events, ONE_JOB)
  {
    Two(INITIAL, OnGroup(ENewGroup(1)), OnGroup(ENewGroup(2)), TWO_GROUPS);
    assert TWO_GROUPS.groupTx[1 := CREATE] - {1} == map[];
    Two(TWO_GROUPS, OnGroup(ELockGroup(1, CREATE)), OnGroup(ECreateJob(1, 7, 0, 1)), ONE_JOB);
    events := [OnGroup(ENewGroup(1)), OnGroup(ENewGroup(2))] + [OnGroup(ELockGroup(1, CREATE)), OnGroup(ECreateJob(1, 7, 0, 1))];
    Join(INITIAL, [OnGroup(ENewGroup(1)), OnGroup(ENewGroup(2))], TWO_GROUPS,
         [OnGroup(ELockGroup(1, CREATE)), OnGroup(ECreateJob(1, 7, 0, 1))], ONE_JOB);
  }

  lemma TriggerBegins() returns (events: seq<Event>)
    ensures Leads(ONE_JOB, events, TRIGGERING)
  {
    var mid := ONE_JOB.(jobTx := map[7 := JobTx(RAW_JOB, TRIGGER, true, false, None)]);
    Two(ONE_JOB, OnJob(ELockJob(7, TRIGGER)), OnJob(EFindManual(7)), mid);
    assert Available(mid, 1);
    Two(mid, OnJob(ECheckAvailable(7)), OnJob(ECheckActive(7)), TRIGGERING);
    events := [OnJob(ELockJob(7, TRIGGER)), OnJob(EFindManual(7))] + [OnJob(ECheckAvailable(7)), OnJob(ECheckActive(7))];
    Join(ONE_JOB, [OnJob(ELockJob(7, TRIGGER)), OnJob(EFindManual(7))], mid,
         [OnJob(ECheckAvailable(7)), OnJob(ECheckActive(7))], TRIGGERING);
  }

  lemma DeletionSeesNoRound() returns (events: seq<Event>)
    ensures Leads(TRIGGERING, events, TRIGGERED)
  {
    Two(TRIGGERING, OnGroup(ELockGroup(1, Deleting(false, false))), OnGroup(ECheckRounds(1)), NO_ROUNDS_SEEN);
    assert NO_ROUNDS_SEEN.jobTx - {7} == map[];
    assert Next(RoundsFirst, NO_ROUNDS_SEEN, OnJob(EManual(7, 50, true))) == TRIGGERED;
    Two(NO_ROUNDS_SEEN, OnJob(EManual(7, 50, true)), OnJob(ERollbackJob(7)), TRIGGERED);
    events := [OnGroup(ELockGroup(1, Deleting(false, false))), OnGroup(ECheckRounds(1))]
      + [OnJob(EManual(7, 50, true)), OnJob(ERollbackJob(7))];
    Join(TRIGGERING, [OnGroup(ELockGroup(1, Deleting(false, false))), OnGroup(ECheckRounds(1))], NO_ROUNDS_SEEN,
         [OnJob(EManual(7, 50, true)), OnJob(ERollbackJob(7))], TRIGGERED);
  }

  lemma JobMovesAway() returns (events: seq<Event>)
    ensures Leads(TRIGGERED, events, MOVED)
  {
    assert TRIGGERED.groupTx[2 := MOVE] - {2} == TRIGGERED.groupTx;
    events := [OnGroup(ELockGroup(2, MOVE)), OnGroup(EUpdateJob(2))];
    Two(TRIGGERED, OnGroup(ELockGroup(2, MOVE)), OnGroup(EUpdateJob(2)), MOVED);
  }

  lemma DeletionSeesNoJob() returns (events: seq<Event>)
    ensures Leads(MOVED, events, DELETED)
  {
    assert MOVED.groupTx[1 := Deleting(true, true)] - {1} == map[];
    events := [OnGroup(ECheckJobs(1)), OnGroup(EDeleteGroup(1))];
    Two(MOVED, OnGroup(ECheckJobs(1)), OnGroup(EDeleteGroup(1)), DELETED);
  }

  /** With the checks swapped the deletion passes both and leaves an active round behind. */
  lemma SwappedOrderUnsound()
    ensures exists events: seq<Event> :: !NoDanglingReference(Run(RoundsFirst, INITIAL, events))
  {
    var a := GroupsAndJob();
    var b := TriggerBegins();
    var c := DeletionSeesNoRound();
    var d := JobMovesAway();
    var e := DeletionSeesNoJob();
    Join(INITIAL, a, ONE_JOB, b, TRIGGERING);
    Join(INITIAL, a + b, TRIGGERING, c, TRIGGERED);
    Join(INITIAL, a + b + c, TRIGGERED, d, MOVED);
    Join(INITIAL, a + b + c + d, MOVED, e, DELETED);
    assert DELETED.rounds[50].active && !Available(DELETED, DELETED.rounds[50].group);
    assert Run(RoundsFirst, INITIAL, a + b + c + d + e) == DELETED;
  }

  lemma {:induction false} RunConcat(order: Order, s: State, a: seq<Event>, b: seq<Event>)
    ensures Run(order, s, a + b) == Run(order, Run(order, s, a), b)
    decreases |a|
  {
    if a == [] {
      assert a + b == b;
    } else {
      assert (a + b)[1..] == a[1..] + b;
      RunConcat(order, Next(order, s, a[0]), a[1..], b);
    }
  }

  // ----- rounds -----

  /** The Job discards overlapping rounds in every state of the run. */
  ghost predicate AlwaysDiscards(s: State, events: seq<Event>, j: Id)
    decreases |events|
  {
    && (j in s.jobs ==> s.jobs[j].discard)
    && (events != [] ==> AlwaysDiscards(Next(JobsFirst, s, events[0]), events[1..], j))
  }

  lemma LoosenedStep(s: State, ev: Event, j: Id)
    requires j !in s.loosened && (j in Next(JobsFirst, s, ev).jobs ==> Next(JobsFirst, s, ev).jobs[j].discard)
    ensures j !in Next(JobsFirst, s, ev).loosened
  {
  }

  lemma {:induction false} NeverLoosened(s: State, events: seq<Event>, j: Id)
    requires j !in s.loosened && AlwaysDiscards(s, events, j)
    ensures j !in Run(JobsFirst, s, events).loosened
    decreases |events|
  {
    if events != [] {
      assert AlwaysDiscards(Next(JobsFirst, s, events[0]), events[1..], j);
      LoosenedStep(s, events[0], j);
      NeverLoosened(Next(JobsFirst, s, events[0]), events[1..], j);
    }
  }

  /** A Job that always used the discard policy never has two active rounds. */
  lemma DiscardedJobsOverlapNever(events: seq<Event>, a: Id, b: Id)
    requires var s := Run(JobsFirst, INITIAL, events);
             && a in s.rounds && b in s.rounds && s.rounds[a].job == s.rounds[b].job
             && s.rounds[a].active && s.rounds[b].active && AlwaysDiscards(INITIAL, events, s.rounds[a].job)
    ensures a == b
  {
    var s := Run(JobsFirst, INITIAL, events);
    ReachableOk(s);
    NeverLoosened(INITIAL, events, s.rounds[a].job);
    assert PairOk(s.rounds, s.loosened, a, b);
  }

  /** An identity creates one round, and every confirmed reply to it names that round. */
  lemma OneRoundPerIdentity(s: State, a: Id, b: Id)
    requires Reachable(s) && a in s.rounds && b in s.rounds
    requires s.rounds[a].job == s.rounds[b].job && s.rounds[a].identity == s.rounds[b].identity
    ensures a == b
  {
    ReachableOk(s);
    assert PairOk(s.rounds, s.loosened, a, b);
  }

  lemma ReplaysAgree(s: State, p: Reply, r: Id)
    requires Reachable(s) && p in s.replies && Identified(s.rounds, r, p.job, Request(p.request))
    ensures p.round == r && SameRequest(s.rounds[r], p.overridden, p.params)
  {
    ReachableOk(s);
    assert ReplyOk(s.rounds, s.replies, p) && PairOk(s.rounds, s.loosened, p.round, r);
  }

  /** Rounds keep their identity, so an ID once returned stays the answer. */
  lemma RoundsRemain(s: State, ev: Event, r: Id)
    requires r in s.rounds
    ensures r in Next(JobsFirst, s, ev).rounds
    ensures Next(JobsFirst, s, ev).rounds[r].(active := s.rounds[r].active) == s.rounds[r]
    ensures Next(JobsFirst, s, ev).rounds[r].active ==> s.rounds[r].active
  {
  }

  lemma {:induction false} RoundsRemainInRun(s: State, events: seq<Event>, r: Id)
    requires r in s.rounds
    ensures r in Run(JobsFirst, s, events).rounds
    ensures Run(JobsFirst, s, events).rounds[r].(active := s.rounds[r].active) == s.rounds[r]
    ensures Run(JobsFirst, s, events).rounds[r].active ==> s.rounds[r].active
    decreases |events|
  {
    if events != [] {
      RoundsRemain(s, events[0], r);
      RoundsRemainInRun(Next(JobsFirst, s, events[0]), events[1..], r);
    }
  }

  /** A manual round created once is what every later reply to its request names. */
  lemma ReplayReturnsOriginal(before: seq<Event>, after: seq<Event>, r: Id, p: Reply)
    requires var s := Run(JobsFirst, INITIAL, before);
             Identified(s.rounds, r, p.job, Request(p.request))
    requires p in Run(JobsFirst, INITIAL, before + after).replies
    ensures p.round == r
  {
    RunConcat(JobsFirst, INITIAL, before, after);
    RoundsRemainInRun(Run(JobsFirst, INITIAL, before), after, r);
    ReplaysAgree(Run(JobsFirst, INITIAL, before + after), p, r);
  }

  /** Under the Job lock an unseen request cannot conflict: the fallback lookup is dead code. */
  lemma InsertNeverConflicts(s: State, j: Id, r: Id)
    requires Reachable(s) && ManualInserts(s, j, r)
    ensures !Taken(s, j, Request(s.jobTx[j].purpose.request))
    ensures r in CommitManual(s, j, r, true).rounds
  {
    ReachableOk(s);
    assert JobTxOk(s.jobs, s.rounds, s.jobTx, j);
  }

  // ----- trigger progress -----

  predicate Decides(s: State, ev: Event, j: Id) {
    && ev.OnJob? && ev.j.EAutomatic? && ev.j.j == j
    && Due(s, j, ev.j.now, ev.j.next) && j in s.jobs && ev.j.r !in s.rounds
  }

  /** The due times the automatic decisions of a run settle, in order. */
  ghost function Settled(s: State, events: seq<Event>, j: Id): seq<Time>
    decreases |events|
  {
    if events == [] then []
    else (if Decides(s, events[0], j) then [s.jobTx[j].view.next.value] else [])
         + Settled(Next(JobsFirst, s, events[0]), events[1..], j)
  }

  predicate Enables(ev: Event, j: Id) { ev.OnJob? && ev.j.EEnable? && ev.j.j == j }

  /** Strictly ascending times in [lo, hi). */
  ghost predicate Ladder(lo: Time, due: seq<Time>, hi: Time) {
    && lo <= hi
    && (forall k | 0 <= k < |due| :: lo <= due[k] < hi)
    && (forall a, b | 0 <= a < b < |due| :: due[a] < due[b])
  }

  lemma GroupsKeepProgress(s: State, ev: GroupEvent, j: Id)
    requires j in s.jobs
    ensures j in NextGroup(JobsFirst, s, ev).jobs && NextGroup(JobsFirst, s, ev).jobs[j].next == s.jobs[j].next
  {
  }

  lemma JobsKeepProgress(s: State, ev: JobEvent, j: Id)
    requires j in s.jobs && !Enables(OnJob(ev), j) && !Decides(s, OnJob(ev), j)
    ensures j in NextJob(s, ev).jobs && NextJob(s, ev).jobs[j].next == s.jobs[j].next
  {
  }

  lemma DecisionAdvances(s: State, ev: Event, j: Id)
    requires Inv(s) && j in s.jobs && s.jobs[j].next.Some? && Decides(s, ev, j)
    ensures s.jobTx[j].view.next == s.jobs[j].next
    ensures var s' := Next(JobsFirst, s, ev);
            j in s'.jobs && s'.jobs[j].next.Some? && s.jobs[j].next.value < s'.jobs[j].next.value
  {
    assert JobTxOk(s.jobs, s.rounds, s.jobTx, j);
  }

  /** Between two enables the settled due times strictly increase and stay below the next one. */
  lemma {:induction false} ProgressIncreases(s: State, events: seq<Event>, j: Id)
    requires Inv(s) && j in s.jobs && s.jobs[j].next.Some?
    requires forall k | 0 <= k < |events| :: !Enables(events[k], j)
    ensures var s' := Run(JobsFirst, s, events);
            && j in s'.jobs && s'.jobs[j].next.Some?
            && Ladder(s.jobs[j].next.value, Settled(s, events, j), s'.jobs[j].next.value)
    decreases |events|
  {
    if events != [] {
      var s1 := Next(JobsFirst, s, events[0]);
      StepKeeps(s, events[0]);
      if Decides(s, events[0], j) {
        DecisionAdvances(s, events[0], j);
      } else if events[0].OnGroup? {
        GroupsKeepProgress(s, events[0].g, j);
      } else {
        JobsKeepProgress(s, events[0].j, j);
      }
      ProgressIncreases(s1, events[1..], j);
      LadderGrows(s.jobs[j].next.value, Decides(s, events[0], j), s1.jobs[j].next.value, Settled(s1, events[1..], j),
                  Run(JobsFirst, s1, events[1..]).jobs[j].next.value);
    }
  }

  lemma LadderGrows(lo: Time, decided: bool, mid: Time, rest: seq<Time>, hi: Time)
    requires Ladder(mid, rest, hi) && (if decided then lo < mid else lo == mid)
    ensures Ladder(lo, (if decided then [lo] else []) + rest, hi)
  {
    if !decided { assert [] + rest == rest; }
  }
}
