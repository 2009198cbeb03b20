/** No reference to a deleted group, and the accounting of triggered rounds, in every run. */
module ReferencesProofs {
  import opened Base
  import opened References

  // ----- invariants, one item at a time -----

  predicate Usable(groups: map<Id, bool>, g: Id) { g in groups && groups[g] }

  /** A group holder's group stays available, and a deletion's checks stay true. */
  ghost predicate GroupTxOk(groups: map<Id, bool>, jobs: map<Id, Job>, rounds: map<Id, Round>, open: map<Id, GroupTx>, g: Id) {
    g in open ==>
      && Usable(groups, g)
      && match open[g]
         case Creating(def, _) => def.group == g
         case Updating(_, def) => def.group == g
         case Deleting(noJobs, noRounds) =>
           && (noRounds ==> noJobs)
           && (noJobs ==> forall j :: !RefersTo(jobs, j, g))
           && (noRounds ==> forall r :: !ActiveIn(rounds, r, g))
  }

  /** An undeleted Job refers to an available group; a deleted one has no active round. */
  ghost predicate JobOk(groups: map<Id, bool>, jobs: map<Id, Job>, rounds: map<Id, Round>, loosened: set<Id>, j: Id) {
    j in jobs ==>
      && (if jobs[j].deleted then forall r :: !ActiveFor(rounds, r, j) else Usable(groups, jobs[j].group))
      && (j !in loosened ==> jobs[j].discard)
  }

  /** A Job holder's row is unchanged, and what its statements found stays true. */
  ghost predicate JobTxOk(jobs: map<Id, Job>, rounds: map<Id, Round>, open: map<Id, JobTx>, j: Id) {
    j in open ==>
      && j in jobs && jobs[j] == open[j].view && !jobs[j].deleted
      && (open[j].unseen ==> open[j].purpose.Manual? && forall r :: !Identified(rounds, r, j, Request(open[j].purpose.request)))
      && (open[j].active == Some(false) ==> forall r :: !ActiveFor(rounds, r, j))
  }

  ghost predicate RoundOk(groups: map<Id, bool>, jobs: map<Id, Job>, rounds: map<Id, Round>, r: Id) {
    r in rounds ==> rounds[r].job in jobs && (rounds[r].active ==> Usable(groups, rounds[r].group))
  }

  /** Identities are unique, and a discarding Job has one active round at most. */
  ghost predicate PairOk(rounds: map<Id, Round>, loosened: set<Id>, a: Id, b: Id) {
    a in rounds && b in rounds && a != b && rounds[a].job == rounds[b].job ==>
      && rounds[a].identity != rounds[b].identity
      && (rounds[a].active && rounds[b].active ==> rounds[a].job in loosened)
  }

  ghost predicate ReplyOk(rounds: map<Id, Round>, replies: set<Reply>, p: Reply) {
    p in replies ==>
      Identified(rounds, p.round, p.job, Request(p.request)) && SameRequest(rounds[p.round], p.overridden, p.params)
  }

  ghost predicate GroupTxsOk(groups: map<Id, bool>, jobs: map<Id, Job>, rounds: map<Id, Round>, open: map<Id, GroupTx>) {
    forall g {:trigger GroupTxOk(groups, jobs, rounds, open, g)} :: GroupTxOk(groups, jobs, rounds, open, g)
  }

  ghost predicate JobsOk(groups: map<Id, bool>, jobs: map<Id, Job>, rounds: map<Id, Round>, loosened: set<Id>) {
    forall j {:trigger JobOk(groups, jobs, rounds, loosened, j)} :: JobOk(groups, jobs, rounds, loosened, j)
  }

  ghost predicate JobTxsOk(jobs: map<Id, Job>, rounds: map<Id, Round>, open: map<Id, JobTx>) {
    forall j {:trigger JobTxOk(jobs, rounds, open, j)} :: JobTxOk(jobs, rounds, open, j)
  }

  ghost predicate RoundsOk(groups: map<Id, bool>, jobs: map<Id, Job>, rounds: map<Id, Round>) {
    forall r {:trigger RoundOk(groups, jobs, rounds, r)} :: RoundOk(groups, jobs, rounds, r)
  }

  ghost predicate PairsOk(rounds: map<Id, Round>, loosened: set<Id>) {
    forall a, b {:trigger PairOk(rounds, loosened, a, b)} :: PairOk(rounds, loosened, a, b)
  }

  ghost predicate RepliesOk(rounds: map<Id, Round>, replies: set<Reply>) {
    forall p {:trigger ReplyOk(rounds, replies, p)} :: ReplyOk(rounds, replies, p)
  }

  ghost predicate Inv(s: State) {
    && GroupTxsOk(s.groups, s.jobs, s.rounds, s.groupTx) && JobsOk(s.groups, s.jobs, s.rounds, s.loosened)
    && JobTxsOk(s.jobs, s.rounds, s.jobTx) && RoundsOk(s.groups, s.jobs, s.rounds)
    && PairsOk(s.rounds, s.loosened) && RepliesOk(s.rounds, s.replies)
  }

  // ----- one kind of change at a time -----

  lemma GroupsChange(s: State, g: Id, usable: bool)
    requires Inv(s)
    requires !usable ==> (forall j :: !RefersTo(s.jobs, j, g)) && (forall r :: !ActiveIn(s.rounds, r, g))
    requires usable ==> g !in s.groups
    ensures Inv(s.(groups := s.groups[g := usable], groupTx := if usable then s.groupTx else s.groupTx - {g}))
  {
    var groups, open := s.groups[g := usable], if usable then s.groupTx else s.groupTx - {g};
    forall h ensures GroupTxOk(groups, s.jobs, s.rounds, open, h) { assert GroupTxOk(s.groups, s.jobs, s.rounds, s.groupTx, h); }
    forall j ensures JobOk(groups, s.jobs, s.rounds, s.loosened, j) {
      assert JobOk(s.groups, s.jobs, s.rounds, s.loosened, j) && !(!usable && RefersTo(s.jobs, j, g));
    }
    forall r ensures RoundOk(groups, s.jobs, s.rounds, r) {
      assert RoundOk(s.groups, s.jobs, s.rounds, r) && !(!usable && ActiveIn(s.rounds, r, g));
    }
  }

  lemma GroupTxChange(s: State, g: Id, tx: GroupTx)
    requires Inv(s)
    requires GroupTxOk(s.groups, s.jobs, s.rounds, s.groupTx[g := tx], g)
    ensures Inv(s.(groupTx := s.groupTx[g := tx]))
  {
    var open := s.groupTx[g := tx];
    forall h ensures GroupTxOk(s.groups, s.jobs, s.rounds, open, h) { assert GroupTxOk(s.groups, s.jobs, s.rounds, s.groupTx, h); }
  }

  lemma GroupTxEnds(s: State, g: Id)
    requires Inv(s)
    ensures Inv(s.(groupTx := s.groupTx - {g}))
  {
    var open := s.groupTx - {g};
    forall h ensures GroupTxOk(s.groups, s.jobs, s.rounds, open, h) { assert GroupTxOk(s.groups, s.jobs, s.rounds, s.groupTx, h); }
  }

  lemma JobTxChange(s: State, j: Id, tx: JobTx)
    requires Inv(s)
    requires JobTxOk(s.jobs, s.rounds, s.jobTx[j := tx], j)
    ensures Inv(s.(jobTx := s.jobTx[j := tx]))
  {
    var open := s.jobTx[j := tx];
    forall k ensures JobTxOk(s.jobs, s.rounds, open, k) { assert JobTxOk(s.jobs, s.rounds, s.jobTx, k); }
  }

  lemma JobTxEnds(s: State, j: Id)
    requires Inv(s)
    ensures Inv(s.(jobTx := s.jobTx - {j}))
  {
    var open := s.jobTx - {j};
    forall k ensures JobTxOk(s.jobs, s.rounds, open, k) { assert JobTxOk(s.jobs, s.rounds, s.jobTx, k); }
  }

  /** A Job nobody else holds gets a new row. */
  lemma JobChange(s: State, j: Id, job: Job, loosened: set<Id>)
    requires Inv(s) && j !in s.jobTx && s.loosened <= loosened
    requires JobOk(s.groups, s.jobs[j := job], s.rounds, loosened, j)
    requires forall g | g in s.groupTx && s.groupTx[g].Deleting? && s.groupTx[g].noJobs :: !RefersTo(s.jobs[j := job], j, g)
    ensures Inv(s.(jobs := s.jobs[j := job], loosened := loosened))
  {
    var jobs := s.jobs[j := job];
    forall g ensures GroupTxOk(s.groups, jobs, s.rounds, s.groupTx, g) {
      assert GroupTxOk(s.groups, s.jobs, s.rounds, s.groupTx, g);
      if g in s.groupTx && s.groupTx[g].Deleting? && s.groupTx[g].noJobs {
        forall k ensures !RefersTo(jobs, k, g) { assert !RefersTo(s.jobs, k, g); }
      }
    }
    forall k ensures JobOk(s.groups, jobs, s.rounds, loosened, k) { assert JobOk(s.groups, s.jobs, s.rounds, s.loosened, k); }
    forall k ensures JobTxOk(jobs, s.rounds, s.jobTx, k) { assert JobTxOk(s.jobs, s.rounds, s.jobTx, k); }
    forall r ensures RoundOk(s.groups, jobs, s.rounds, r) { assert RoundOk(s.groups, s.jobs, s.rounds, r); }
    forall a, b ensures PairOk(s.rounds, loosened, a, b) { assert PairOk(s.rounds, s.loosened, a, b); }
  }

  /** A Job's holder inserts a round of its own group that conflicts with none. */
  lemma RoundInserted(s: State, j: Id, r: Id, round: Round)
    requires Inv(s) && j in s.jobTx && r !in s.rounds && round.job == j && round.group == s.jobTx[j].view.group && round.active
    requires !Taken(s, j, round.identity)
    requires s.jobTx[j].view.discard ==> s.jobTx[j].active == Some(false)
    ensures Inv(s.(rounds := s.rounds[r := round], jobTx := s.jobTx - {j}))
  {
    var rounds, open := s.rounds[r := round], s.jobTx - {j};
    assert JobTxOk(s.jobs, s.rounds, s.jobTx, j) && JobOk(s.groups, s.jobs, s.rounds, s.loosened, j);
    forall g ensures GroupTxOk(s.groups, s.jobs, rounds, s.groupTx, g) {
      assert GroupTxOk(s.groups, s.jobs, s.rounds, s.groupTx, g) && (g == round.group ==> RefersTo(s.jobs, j, g));
      if g in s.groupTx && s.groupTx[g].Deleting? && s.groupTx[g].noRounds {
        forall x ensures !ActiveIn(rounds, x, g) { assert !ActiveIn(s.rounds, x, g); }
      }
    }
    forall k ensures JobOk(s.groups, s.jobs, rounds, s.loosened, k) {
      assert JobOk(s.groups, s.jobs, s.rounds, s.loosened, k);
      if k in s.jobs && s.jobs[k].deleted {
        forall x ensures !ActiveFor(rounds, x, k) { assert !ActiveFor(s.rounds, x, k); }
      }
    }
    forall k ensures JobTxOk(s.jobs, rounds, open, k) {
      assert JobTxOk(s.jobs, s.rounds, s.jobTx, k);
      if k in open {
        forall x, i | !Identified(s.rounds, x, k, i) ensures !Identified(rounds, x, k, i) {}
        forall x | !ActiveFor(s.rounds, x, k) ensures !ActiveFor(rounds, x, k) {}
      }
    }
    forall x ensures RoundOk(s.groups, s.jobs, rounds, x) { assert RoundOk(s.groups, s.jobs, s.rounds, x); }
    forall a, b ensures PairOk(rounds, s.loosened, a, b) { PairWithNew(s, j, r, round, a, b); }
    forall p ensures ReplyOk(rounds, s.replies, p) { assert ReplyOk(s.rounds, s.replies, p); }
  }

  lemma PairWithNew(s: State, j: Id, r: Id, round: Round, a: Id, b: Id)
    requires Inv(s) && j in s.jobTx && r !in s.rounds && round.job == j
    requires !Taken(s, j, round.identity)
    requires s.jobTx[j].view.discard ==> s.jobTx[j].active == Some(false)
    ensures PairOk(s.rounds[r := round], s.loosened, a, b)
  {
    assert PairOk(s.rounds, s.loosened, a, b);
    assert JobTxOk(s.jobs, s.rounds, s.jobTx, j) && JobOk(s.groups, s.jobs, s.rounds, s.loosened, j);
    assert !Identified(s.rounds, a, j, round.identity) && !Identified(s.rounds, b, j, round.identity);
    if s.jobTx[j].active == Some(false) {
      assert !ActiveFor(s.rounds, a, j) && !ActiveFor(s.rounds, b, j);
    }
  }

  lemma FinishKeeps(s: State, r: Id)
    requires Inv(s) && r in s.rounds
    ensures Inv(Finish(s, r))
  {
    var rounds := s.rounds[r := s.rounds[r].(active := false)];
    forall g ensures GroupTxOk(s.groups, s.jobs, rounds, s.groupTx, g) {
      assert GroupTxOk(s.groups, s.jobs, s.rounds, s.groupTx, g);
      forall x | !ActiveIn(s.rounds, x, g) ensures !ActiveIn(rounds, x, g) {}
    }
    forall j ensures JobOk(s.groups, s.jobs, rounds, s.loosened, j) {
      assert JobOk(s.groups, s.jobs, s.rounds, s.loosened, j);
      forall x | !ActiveFor(s.rounds, x, j) ensures !ActiveFor(rounds, x, j) {}
    }
    forall j ensures JobTxOk(s.jobs, rounds, s.jobTx, j) {
      assert JobTxOk(s.jobs, s.rounds, s.jobTx, j);
      forall x | !ActiveFor(s.rounds, x, j) ensures !ActiveFor(rounds, x, j) {}
      forall x, i | !Identified(s.rounds, x, j, i) ensures !Identified(rounds, x, j, i) {}
    }
    forall x ensures RoundOk(s.groups, s.jobs, rounds, x) { assert RoundOk(s.groups, s.jobs, s.rounds, x); }
    forall a, b ensures PairOk(rounds, s.loosened, a, b) { assert PairOk(s.rounds, s.loosened, a, b); }
    forall p ensures ReplyOk(rounds, s.replies, p) { assert ReplyOk(s.rounds, s.replies, p); }
  }

  lemma Replied(s: State, j: Id, p: JobPurpose, r: Id, confirmed: bool)
    requires Inv(s) && p.Manual? && Identified(s.rounds, r, j, Request(p.request)) && SameRequest(s.rounds[r], p.overridden, p.params)
    ensures Inv(s.(replies := Answered(s, j, p, r, confirmed)))
  {
    var replies := Answered(s, j, p, r, confirmed);
    forall q ensures ReplyOk(s.rounds, replies, q) { assert ReplyOk(s.rounds, s.replies, q); }
  }

  // ----- every event -----

  lemma CreateKeeps(s: State, g: Id, j: Id, now: Time, next: Time)
    requires Inv(s)
    ensures Inv(CommitCreate(s, g, j, now, next))
  {
    if g in s.groupTx && s.groupTx[g].Creating? && j !in s.jobs && (s.groupTx[g].enable ==> now < next) {
      assert GroupTxOk(s.groups, s.jobs, s.rounds, s.groupTx, g) && JobTxOk(s.jobs, s.rounds, s.jobTx, j);
      var s' := CommitCreate(s, g, j, now, next);
      JobChange(s, j, s'.jobs[j], s'.loosened);
      GroupTxEnds(s.(jobs := s'.jobs, loosened := s'.loosened), g);
    }
  }

  lemma UpdateKeeps(s: State, g: Id)
    requires Inv(s)
    ensures Inv(CommitUpdate(s, g))
  {
    if UpdateCommits(s, g) {
      var j := s.groupTx[g].job;
      assert GroupTxOk(s.groups, s.jobs, s.rounds, s.groupTx, g) && JobOk(s.groups, s.jobs, s.rounds, s.loosened, j);
      var s' := CommitUpdate(s, g);
      JobChange(s, j, s'.jobs[j], s'.loosened);
      GroupTxEnds(s.(jobs := s'.jobs, loosened := s'.loosened), g);
    }
  }

  lemma GroupStepKeeps(s: State, ev: GroupEvent)
    requires Inv(s)
    ensures Inv(NextGroup(JobsFirst, s, ev))
  {
    assert GroupTxOk(s.groups, s.jobs, s.rounds, s.groupTx, ev.g);
    match ev
    case ENewGroup(g) => if g !in s.groups { GroupsChange(s, g, true); }
    case ELockGroup(g, tx) => if NextGroup(JobsFirst, s, ev) != s { GroupTxChange(s, g, tx); }
    case ERollbackGroup(g) => GroupTxEnds(s, g);
    case ECreateJob(g, j, now, next) => CreateKeeps(s, g, j, now, next);
    case EUpdateJob(g) => UpdateKeeps(s, g);
    case ECheckJobs(g) =>
      if NextGroup(JobsFirst, s, ev) != s {
        forall j ensures !RefersTo(s.jobs, j, g) {}
        GroupTxChange(s, g, s.groupTx[g].(noJobs := true));
      }
    case ECheckRounds(g) =>
      if NextGroup(JobsFirst, s, ev) != s {
        forall r ensures !ActiveIn(s.rounds, r, g) {}
        GroupTxChange(s, g, s.groupTx[g].(noRounds := true));
      }
    case EDeleteGroup(g) => if NextGroup(JobsFirst, s, ev) != s { GroupsChange(s, g, false); }
  }

  /** The holder of a Job row writes it and commits. */
  lemma HolderWrites(s: State, j: Id, job: Job)
    requires Inv(s) && j in s.jobTx && job.group == s.jobTx[j].view.group && job.discard == s.jobTx[j].view.discard
    requires job.deleted ==> s.jobTx[j].active == Some(false)
    ensures Inv(s.(jobs := s.jobs[j := job], jobTx := s.jobTx - {j}))
  {
    assert JobTxOk(s.jobs, s.rounds, s.jobTx, j) && JobOk(s.groups, s.jobs, s.rounds, s.loosened, j);
    JobTxEnds(s, j);
    forall g | g in s.groupTx && s.groupTx[g].Deleting? && s.groupTx[g].noJobs ensures !RefersTo(s.jobs[j := job], j, g) {
      assert GroupTxOk(s.groups, s.jobs, s.rounds, s.groupTx, g) && !RefersTo(s.jobs, j, g);
    }
    JobChange(s.(jobTx := s.jobTx - {j}), j, job, s.loosened);
  }

  lemma ManualKeeps(s: State, j: Id, r: Id, confirmed: bool)
    requires Inv(s)
    ensures Inv(CommitManual(s, j, r, confirmed))
  {
    if ManualInserts(s, j, r) && !Taken(s, j, Request(s.jobTx[j].purpose.request)) {
      var round := ManualRound(j, s.jobTx[j]);
      RoundInserted(s, j, r, round);
      Replied(s.(rounds := s.rounds[r := round], jobTx := s.jobTx - {j}), j, s.jobTx[j].purpose, r, confirmed);
    }
  }

  lemma AutomaticKeeps(s: State, j: Id, r: Id, now: Time, next: Time)
    requires Inv(s)
    ensures Inv(CommitAutomatic(s, j, r, now, next))
  {
    if Due(s, j, now, next) && j in s.jobs && r !in s.rounds {
      var job := s.jobs[j].(next := Some(next));
      assert JobTxOk(s.jobs, s.rounds, s.jobTx, j) && JobOk(s.groups, s.jobs, s.rounds, s.loosened, j);
      if Decide(s, j, now).Created? {
        var round := Snapshot(j, s.jobTx[j].view, Scheduled(s.jobTx[j].view.next.value));
        assert s.jobTx[j].view.discard ==> s.jobTx[j].active.Some? && !s.jobTx[j].active.value;
        RoundInserted(s, j, r, round);
        var mid := s.(rounds := s.rounds[r := round], jobTx := s.jobTx - {j});
        assert JobOk(mid.groups, mid.jobs, mid.rounds, mid.loosened, j);
        forall g | g in mid.groupTx && mid.groupTx[g].Deleting? && mid.groupTx[g].noJobs ensures !RefersTo(mid.jobs[j := job], j, g) {
          assert GroupTxOk(mid.groups, mid.jobs, mid.rounds, mid.groupTx, g) && !RefersTo(mid.jobs, j, g);
        }
        JobChange(mid, j, job, mid.loosened);
      } else {
        HolderWrites(s, j, job);
      }
    }
  }

  lemma DisableKeeps(s: State, j: Id)
    requires Inv(s)
    ensures Inv(Disable(s, j))
  {
    if j in s.jobs && !s.jobs[j].deleted && j !in s.jobTx {
      assert JobOk(s.groups, s.jobs, s.rounds, s.loosened, j);
      var job := s.jobs[j].(enabled := false);
      forall g | g in s.groupTx && s.groupTx[g].Deleting? && s.groupTx[g].noJobs ensures !RefersTo(s.jobs[j := job], j, g) {
        assert GroupTxOk(s.groups, s.jobs, s.rounds, s.groupTx, g) && !RefersTo(s.jobs, j, g);
      }
      JobChange(s, j, job, s.loosened);
    }
  }

  lemma ReadKeeps(s: State, j: Id)
    requires Inv(s) && j in s.jobTx
    ensures Inv(FindManual(s, j)) && Inv(CheckAvailable(s, j)) && Inv(CheckActive(s, j))
  {
    assert JobTxOk(s.jobs, s.rounds, s.jobTx, j);
    JobTxChange(s, j, s.jobTx[j].(available := true));
    if FindManual(s, j) != s {
      forall r ensures !Identified(s.rounds, r, j, Request(s.jobTx[j].purpose.request)) {}
      JobTxChange(s, j, s.jobTx[j].(unseen := true));
    }
    if !HasActive(s, j) {
      forall r ensures !ActiveFor(s.rounds, r, j) {}
    }
    JobTxChange(s, j, s.jobTx[j].(active := Some(HasActive(s, j))));
  }

  lemma JobStepKeeps(s: State, ev: JobEvent)
    requires Inv(s)
    ensures Inv(NextJob(s, ev))
  {
    match ev
    case ELockJob(j, purpose) => if NextJob(s, ev) != s { JobTxChange(s, j, NextJob(s, ev).jobTx[j]); }
    case ERollbackJob(j) => JobTxEnds(s, j);
    case EFindManual(j) => if j in s.jobTx { ReadKeeps(s, j); }
    case EReplay(j, r, confirmed) =>
      if NextJob(s, ev) != s {
        JobTxEnds(s, j);
        Replied(s.(jobTx := s.jobTx - {j}), j, s.jobTx[j].purpose, r, confirmed);
      }
    case ECheckAvailable(j) => if j in s.jobTx { ReadKeeps(s, j); }
    case ECheckActive(j) => if j in s.jobTx { ReadKeeps(s, j); }
    case EManual(j, r, confirmed) => ManualKeeps(s, j, r, confirmed);
    case EAutomatic(j, r, now, next) => AutomaticKeeps(s, j, r, now, next);
    case EDeleteJob(j) =>
      if NextJob(s, ev) != s {
        assert JobTxOk(s.jobs, s.rounds, s.jobTx, j);
        HolderWrites(s, j, s.jobs[j].(deleted := true));
      }
    case EEnable(j, now, next) =>
      if NextJob(s, ev) != s {
        assert JobTxOk(s.jobs, s.rounds, s.jobTx, j);
        HolderWrites(s, j, s.jobs[j].(enabled := true, next := Some(next)));
      }
    case EDisable(j) => DisableKeeps(s, j);
    case EFinish(r) => if r in s.rounds { FinishKeeps(s, r); }
  }

  lemma StepKeeps(s: State, ev: Event)
    requires Inv(s)
    ensures Inv(Next(JobsFirst, s, ev))
  {
    match ev
    case OnGroup(g) => GroupStepKeeps(s, g);
    case OnJob(j) => JobStepKeeps(s, j);
  }

  lemma {:induction false} RunKeeps(s: State, events: seq<Event>)
    requires Inv(s)
    ensures Inv(Run(JobsFirst, s, events))
    decreases |events|
  {
    if events != [] {
      StepKeeps(s, events[0]);
      RunKeeps(Next(JobsFirst, s, events[0]), events[1..]);
    }
  }
}
