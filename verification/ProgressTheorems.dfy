/**
 Every attempt ends. Whatever the outside does, an attempt is resumed a bounded number of times in a whole run,
 and the last time it is resumed it reports.
 */
module ProgressTheorems {
  import opened Models
  import opened Attempts
  import opened History
  import opened ManagerState
  import opened ManagerMachine
  import opened ManagerInvariant
  import opened LedgerProofs
  import opened ProvenanceProofs
  import opened ListenerProofs
  import opened TurnProofs
  import opened WakeProofs
  import opened ManagerTheorems

  /** Resumptions of one attempt that a run can still contain. */
  function Budget(s: State, id: nat): nat {
    if s.supply <= id then 1001 else if Live(s, id) then Rank(s.jobs[id].attempt.at) + 1 else 0
  }

  /** Resumptions of one attempt that a run does contain. */
  function Resumptions(s: State, actions: seq<Action>, id: nat): nat
    decreases |actions|
  {
    if actions == [] then 0
    else
      One(Enabled(s, actions[0]) && actions[0].AttemptWakes? && actions[0].id == id)
      + Resumptions(Do(s, actions[0]), actions[1..], id)
  }

  lemma RankBounded(at: Position)
    ensures Rank(at) <= 1000
  {
  }

  /** This attempt is gone or no further from its end. */
  predicate NoFurther(jobs: Jobs, jobs': Jobs, id: nat) {
    id in jobs' && jobs'[id].MutationJob? ==>
      id in jobs && jobs[id].MutationJob? && Rank(jobs'[id].attempt.at) <= Rank(jobs[id].attempt.at)
  }

  lemma ExtendNoFurther(jobs: Jobs, jobs': Jobs, supply: nat, id: nat)
    requires JobsExtend(jobs, jobs', supply) && id < supply
    ensures NoFurther(jobs, jobs', id)
  {
  }

  lemma FinishExtends(
    s: State, kind: MutationKind, key: Key, id: nat, record: UpdateRecord, claimHealth: bool, l: Listeners, created: bool)
    ensures var s' := FinishMutation(s, kind, key, id, record, claimHealth, l, created);
      JobsExtend(s.jobs, s'.jobs, s.supply) && s.supply <= s'.supply
  {
    hide Listen, PastExtends, JobsExtend, BooksExtend, OwnsMutation, OwnsHealth, HealthClaimBlocked;
    SameJobsExtend(s.jobs, s.past, s.supply);
    var claim := claimHealth && record.status.Succeeded? && !HealthClaimBlocked(s.books, key.vmid);
    var first := ClaimHealth(s.(tasks := ForgetTask(s.tasks, kind, key)), key, SourceOf(kind));
    ListenExtends(first, l.claimed);
    var claimed := Claimed(s, kind, key, claim, l.claimed);
    assert JobsExtend(s.jobs, claimed.jobs, s.supply) && s.supply <= claimed.supply by {
      JobsWeaken(s.jobs, claimed.jobs, s.supply, first.supply);
    }
    ListenExtends(SetMutationRecord(claimed, kind, key, record), l.published);
    var published := Listen(SetMutationRecord(claimed, kind, key, record), l.published);
    JobsTransitive(s.jobs, claimed.jobs, published.jobs, s.supply, claimed.supply);
    ListenExtends(Report(published, id, record), l.reported);
    var reported := Listen(Report(published, id, record), l.reported);
    JobsTransitive(s.jobs, published.jobs, reported.jobs, s.supply, published.supply);
    LaunchExtends(s.jobs, reported, key, s.supply, SourceOf(kind), created);
  }

  lemma JobsWeaken(jobs: Jobs, jobs': Jobs, supply: nat, supply': nat)
    requires supply <= supply'
    ensures JobsExtend(jobs, jobs', supply') ==> JobsExtend(jobs, jobs', supply)
  {
  }

  lemma LaunchExtends(jobs: Jobs, s: State, key: Key, id: nat, source: HealthSource, created: bool)
    requires JobsExtend(jobs, s.jobs, id)
    ensures JobsExtend(jobs, LaunchHealth(s, key, id, source, created).jobs, id)
  {
  }

  /** The turn of one attempt takes no other attempt further from its end. */
  lemma TurnNoFurther(s: State, id: nat, turn: Turn, presented: bool, l: Listeners, created: bool, other: nat)
    requires id in s.jobs && s.jobs[id].MutationJob?
    ensures var s' := ApplyTurn(s, id, turn, presented, l, created);
      (other != id && other < s.supply ==> NoFurther(s.jobs, s'.jobs, other)) && s.supply <= s'.supply
  {
    hide FinishMutation, OwnsMutation, JobsExtend;
    var job := s.jobs[id];
    match turn
    case Proceed(_, _) =>
    case Settle(record, passed) =>
      var left := ForgetCandidates(EndJob(s, id).(past := Pass(s.past, job.attempt, passed)), job);
      FinishNoFurther(left, job, id, record, true, l, created, other);
    case Abort(record) =>
      FinishNoFurther(ForgetCandidates(EndJob(s, id), job), job, id, record, true, l, created, other);
    case Observed(record, candidates) =>
      var begun := if job.attempt.at.AwaitObservation? then job.attempt.at.begun else |s.past.log|;
      FinishNoFurther(PublishCleanup(EndJob(s, id), job.key, candidates, begun, presented), job, id, record, true, l, created, other);
    case Interrupted(record) =>
      FinishNoFurther(PublishCleanup(EndJob(s, id), job.key, None, |s.past.log|, presented), job, id, record, false, l, created, other);
  }

  lemma FinishNoFurther(
    s: State, job: Job, id: nat, record: UpdateRecord, claimHealth: bool, l: Listeners, created: bool, other: nat)
    requires job.MutationJob?
    ensures var s' := FinishMutation(s, job.attempt.kind, job.key, id, record, claimHealth, l, created);
      (other < s.supply ==> NoFurther(s.jobs, s'.jobs, other)) && s.supply <= s'.supply
  {
    hide FinishMutation, JobsExtend, NoFurther;
    FinishExtends(s, job.attempt.kind, job.key, id, record, claimHealth, l, created);
    if other < s.supply {
      var s' := FinishMutation(s, job.attempt.kind, job.key, id, record, claimHealth, l, created);
      ExtendNoFurther(s.jobs, s'.jobs, s.supply, other);
    }
  }

  /** An attempt that settles, aborts or is interrupted is gone, unless it stays for its last observation. */
  lemma EndedIsGone(
    s: State, job: Job, id: nat, record: UpdateRecord, claimHealth: bool, l: Listeners, created: bool)
    requires job.MutationJob? && id !in s.jobs && id < s.supply
    ensures var s' := FinishMutation(s, job.attempt.kind, job.key, id, record, claimHealth, l, created);
      id !in s'.jobs
  {
    hide FinishMutation;
    FinishExtends(s, job.attempt.kind, job.key, id, record, claimHealth, l, created);
  }

  lemma TurnDescends(s: State, id: nat, turn: Turn, presented: bool, l: Listeners, created: bool)
    requires id in s.jobs && s.jobs[id].MutationJob? && id < s.supply
    requires turn.Proceed? ==> Rank(turn.next.at) < Rank(s.jobs[id].attempt.at)
    requires turn.Settle? ==> !s.jobs[id].attempt.at.AwaitObservation?
    ensures var s' := ApplyTurn(s, id, turn, presented, l, created);
      Live(s', id) ==> Rank(s'.jobs[id].attempt.at) < Rank(s.jobs[id].attempt.at)
  {
    hide FinishMutation, OwnsMutation;
    var job := s.jobs[id];
    match turn
    case Proceed(_, _) =>
    case Settle(record, passed) =>
      var left := ForgetCandidates(EndJob(s, id).(past := Pass(s.past, job.attempt, passed)), job);
      EndedIsGone(left, job, id, record, true, l, created);
    case Abort(record) =>
      EndedIsGone(ForgetCandidates(EndJob(s, id), job), job, id, record, true, l, created);
    case Observed(record, candidates) =>
      var begun := if job.attempt.at.AwaitObservation? then job.attempt.at.begun else |s.past.log|;
      EndedIsGone(PublishCleanup(EndJob(s, id), job.key, candidates, begun, presented), job, id, record, true, l, created);
    case Interrupted(record) =>
      EndedIsGone(PublishCleanup(EndJob(s, id), job.key, None, |s.past.log|, presented), job, id, record, false, l, created);
  }

  /** Resuming an attempt brings it closer to its end or ends it. */
  lemma WakeDescends(s: State, action: Action)
    requires Enabled(s, action) && action.AttemptWakes?
    requires Inv(s, NoHole)
    ensures Live(Step(s, action), action.id) ==>
      Rank(Step(s, action).jobs[action.id].attempt.at) < Rank(s.jobs[action.id].attempt.at)
  {
    hide Inv, ApplyTurn, Advance, Possible, Consistent, Accounted, PassedFits, RecordFits, OwnsMutation;
    var a := s.jobs[action.id].attempt;
    LiveAttempt(s, action.id);
    AdvanceFits(a, s.past.snapshots[action.id], action.reply, action.generated);
    TurnDescends(s, action.id, Advance(a, action.reply, action.generated), action.presented, action.listeners, action.created);
  }

  lemma ScanNoFurther(s: State, scan: nat, reply: ScanReply, presented: bool, id: nat)
    requires scan in s.jobs && s.jobs[scan].ScanJob?
    ensures var s' := WakeScan(s, scan, reply, presented);
      NoFurther(s.jobs, s'.jobs, id) && s.supply <= s'.supply
  {
    hide Rank, WakeScan;
    ScanFrame(s, scan, reply, presented);
  }

  lemma RestoreNoFurther(s: State, restore: nat, reply: RestoreReply, id: nat)
    requires restore in s.jobs && s.jobs[restore].RestoreJob?
    ensures var s' := WakeRestore(s, restore, reply);
      NoFurther(s.jobs, s'.jobs, id) && s.supply <= s'.supply
  {
    hide Rank, WakeRestore;
    RestoreFrame(s, restore, reply);
  }

  lemma FollowerNoFurther(s: State, follower: nat, id: nat)
    requires follower in s.followers && id < s.supply
    ensures var s' := RunFollower(s, follower);
      NoFurther(s.jobs, s'.jobs, id) && s.supply <= s'.supply
  {
    hide BusyAt, Decide;
  }

  /** Nothing but its own resumption matters to how many resumptions an attempt has left. */
  lemma OthersNoFurther(s: State, action: Action, id: nat)
    requires Enabled(s, action) && !(action.AttemptWakes? && action.id == id) && id < s.supply
    ensures NoFurther(s.jobs, Step(s, action).jobs, id) && s.supply <= Step(s, action).supply
  {
    hide ApplyTurn, Advance, Possible, Dispatch, RunFollower, WakeScan, WakeRestore, PastExtends, JobsExtend, BooksExtend;
    hide PruneTargets, StoppedTargets, PruneBooks, StopBooks, PrunedIds, HadEvidence;
    match action
    case Press(call) =>
      DispatchExtends(s, call);
      ExtendNoFurther(s.jobs, Dispatch(s, call).jobs, s.supply, id);
    case ScanWakes(scan, reply, presented) => ScanNoFurther(s, scan, reply, presented, id);
    case AttemptWakes(other, reply, generated, presented, l, created) =>
      TurnNoFurther(s, other, Advance(s.jobs[other].attempt, reply, generated), presented, l, created, id);
    case RestoreWakes(restore, reply) => RestoreNoFurther(s, restore, reply, id);
    case FollowerWakes(follower) => FollowerNoFurther(s, follower, id);
    case _ =>
  }

  lemma BudgetDescends(s: State, action: Action, id: nat)
    requires Enabled(s, action)
    requires Inv(s, NoHole)
    ensures Budget(Step(s, action), id) + One(action.AttemptWakes? && action.id == id) <= Budget(s, id)
  {
    hide Inv, Step, Possible;
    var s' := Step(s, action);
    if Live(s', id) {
      RankBounded(s'.jobs[id].attempt.at);
    }
    if action.AttemptWakes? && action.id == id {
      LiveAttempt(s, id);
      WakeDescends(s, action);
      WakeSupply(s, action);
    } else if id < s.supply {
      OthersNoFurther(s, action, id);
    }
  }

  lemma WakeSupply(s: State, action: Action)
    requires Enabled(s, action) && action.AttemptWakes?
    requires Inv(s, NoHole)
    ensures s.supply <= Step(s, action).supply
  {
    hide Inv, ApplyTurn, Advance, Possible;
    LiveAttempt(s, action.id);
    TurnNoFurther(s, action.id, Advance(s.jobs[action.id].attempt, action.reply, action.generated), action.presented,
                  action.listeners, action.created, s.supply);
  }

  lemma {:induction false} ResumptionsBounded(s: State, actions: seq<Action>, id: nat)
    requires Inv(s, NoHole)
    ensures Resumptions(s, actions, id) <= Budget(s, id)
    decreases |actions|
  {
    hide Inv, Budget, Enabled, Step;
    if actions != [] {
      if Enabled(s, actions[0]) {
        BudgetDescends(s, actions[0], id);
        StepKeeps(s, actions[0]);
      }
      ResumptionsBounded(Do(s, actions[0]), actions[1..], id);
    }
  }

  /** No attempt is resumed more than 1001 times in any run, however often PVE answers that its task still runs. */
  lemma AttemptsEnd(configured: bool, c: Coordinator, actions: seq<Action>, id: nat)
    ensures Resumptions(Fresh(configured, c), actions, id) <= 1001
  {
    hide Inv, Resumptions;
    FreshKeeps(configured, c);
    ResumptionsBounded(Fresh(configured, c), actions, id);
  }
}
