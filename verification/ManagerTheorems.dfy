/** What holds in every state any run can reach, and of every history any run can leave behind. */
module ManagerTheorems {
  import opened Models
  import opened Attempts
  import opened History
  import opened ManagerState
  import opened ManagerMachine
  import opened ManagerInvariant
  import opened BooksProofs
  import opened LedgerProofs
  import opened ProvenanceProofs
  import opened ListenerProofs
  import opened TurnProofs
  import opened ActionProofs
  import opened WakeProofs

  // ----- every action of every run keeps the invariant

  lemma StepKeeps(s: State, action: Action)
    requires Enabled(s, action)
    requires Inv(s, NoHole)
    ensures Inv(Step(s, action), NoHole)
  {
    hide Inv, Dispatch, Prune, InvalidateNonRunning, Enter, WakeScan, ApplyTurn, WakeHealth, WakeRestore, RunFollower;
    hide Possible, Advance;
    match action
    case Press(call) => DispatchKeeps(s, NoHole, call);
    case Refresh(coordinator) => RefreshKeeps(s, coordinator);
    case PruneMissing(current) => PruneKeeps(s, current);
    case ObserveRunning(running) => StopKeeps(s, running);
    case CancelTask(id) => CancelKeeps(s, id);
    case WorldMoves(id, snapshot) => WorldMovesKeeps(s, id, snapshot);
    case EnterExecutor(id) =>
      if s.jobs[id].RestoreJob? {
        EnterRollbackKeeps(s, id);
      } else {
        EnterAttemptKeeps(s, id);
      }
    case ScanWakes(id, reply, presented) => ScanWakesKeeps(s, id, reply, presented);
    case AttemptWakes(id, reply, generated, presented, listeners, created) =>
      AttemptWakesKeeps(s, id, reply, generated, presented, listeners, created);
    case HealthWakes(id, reply) => HealthWakesKeeps(s, id, reply);
    case RestoreWakes(id, reply) => RestoreWakesKeeps(s, id, reply);
    case FollowerWakes(id) => FollowerWakesKeeps(s, id);
    case FollowerEnds(id) => LeaveFollowKeeps(s, id);
  }

  lemma FreshKeeps(configured: bool, coordinator: Coordinator)
    ensures Inv(Fresh(configured, coordinator), NoHole)
  {
  }

  lemma {:induction false} RunKeeps(s: State, actions: seq<Action>)
    requires Inv(s, NoHole)
    ensures Inv(Run(s, actions), NoHole)
    decreases |actions|
  {
    hide Inv, Enabled, Step;
    if actions != [] {
      if Enabled(s, actions[0]) {
        StepKeeps(s, actions[0]);
      }
      RunKeeps(Do(s, actions[0]), actions[1..]);
    }
  }

  /** A state some run of a new manager reaches. */
  function Reached(configured: bool, coordinator: Coordinator, actions: seq<Action>): State {
    Run(Fresh(configured, coordinator), actions)
  }

  lemma InvHolds(configured: bool, coordinator: Coordinator, actions: seq<Action>)
    ensures Inv(Reached(configured, coordinator, actions), NoHole)
  {
    hide Inv, Run;
    FreshKeeps(configured, coordinator);
    RunKeeps(Fresh(configured, coordinator), actions);
  }

  // ----- exclusion

  predicate Working(b: Books, key: Key) {
    || (key in b.records && b.records[key].ScanRunning?)
    || (key in b.updates && b.updates[key].status.Running?)
    || (key in b.cleanups && b.cleanups[key].status.Running?)
  }

  /**
   On one VMID at most one Scan, Update, Autoremove or Restore is under way at a time, whatever node its key
   carries, and a running Health check runs beside none of the first three.
   */
  lemma OneOwnerPerGuest(configured: bool, c: Coordinator, actions: seq<Action>, o1: Owner, k1: Key, o2: Owner, k2: Key)
    requires var b := Reached(configured, c, actions).books;
      Busy(b, o1, k1) && Busy(b, o2, k2) && k1.vmid == k2.vmid
    ensures o1 != HealthOwner && o2 != HealthOwner ==> o1 == o2 && k1 == k2
    ensures o1 == HealthOwner && o2 != RestoreOwner ==> o2 == HealthOwner && k1 == k2
  {
    hide Reached, Tethered, EndingOwned, SectionsBounded, TraceOk, ClientsOk;
    InvHolds(configured, c, actions);
  }

  /** At most two scans and one mutation are inside their sections, and each of them is a live task. */
  lemma SectionsStayBounded(configured: bool, c: Coordinator, actions: seq<Action>)
    ensures var s := Reached(configured, c, actions);
      && |set id | id in s.jobs && InScanSection(s.jobs[id])| <= MAX_GLOBAL_SCANS
      && |set id | id in s.jobs && InMutationSection(s.jobs[id])| <= 1
  {
    hide Reached, BooksOk, Tethered, EndingOwned, TraceOk, ClientsOk, InScanSection, InMutationSection;
    InvHolds(configured, c, actions);
    var s := Reached(configured, c, actions);
    assert (set id | id in s.jobs && InScanSection(s.jobs[id])) == s.scanSlots;
    assert (set id | id in s.jobs && InMutationSection(s.jobs[id])) == s.updateSlot;
  }

  // ----- snapshots, outcomes and reports

  /**
   No lost safety snapshot. However the run continued after an attempt was reported, as long as its snapshot
   exists or PVE may still create it the report names it and calls it either retained or uncertain; and a
   snapshot is called retained only if a listing confirmed it complete.
   */
  lemma NoSnapshotIsLost(configured: bool, c: Coordinator, actions: seq<Action>, id: nat)
    requires id in Reached(configured, c, actions).past.reports
    ensures var past := Reached(configured, c, actions).past;
      && id in past.snapshots
      && (MayExist(past.snapshots[id]) ==>
        && past.reports[id].snapshotName == Some(past.snapshots[id].name)
        && past.reports[id].snapshotRetained != past.reports[id].snapshotUncertain)
      && (past.reports[id].snapshotRetained ==>
        exists name :: past.reports[id].snapshotName == Some(name) && SnapshotReady(id, name) in past.log)
  {
    hide Reached, StateOk, Supplied, AttemptsAccounted, ReportedOnce, NoneLost, ProvenanceOk, ClientsOk;
    InvHolds(configured, c, actions);
    var past := Reached(configured, c, actions).past;
    assert Truthful(past, id, past.reports[id]);
    assert past.reports[id].snapshotRetained ==>
      past.reports[id].snapshotName == Some(past.reports[id].snapshotName.value);
  }

  /**
   A reported outcome never hides that the mutation was requested nor claims it when it was not, and no attempt
   ever requested it twice.
   */
  lemma OutcomesAreSound(configured: bool, c: Coordinator, actions: seq<Action>, id: nat)
    requires id in Reached(configured, c, actions).past.reports
    ensures var past := Reached(configured, c, actions).past;
      var requested := Count(past.log, MutationRequested(id));
      && requested <= 1 && past.reports[id].outcome.Some?
      && (PromisesUntouched(past.reports[id].outcome.value) ==> requested == 0)
      && (AdmitsMutation(past.reports[id].outcome.value) ==> requested == 1)
      && (past.reports[id].status.Succeeded? <==> past.reports[id].outcome.value.MutationSucceeded?)
  {
    hide Reached, StateOk, Supplied, AttemptsAccounted, ReportedOnce, NoneLost, ProvenanceOk, ClientsOk;
    InvHolds(configured, c, actions);
    assert Truthful(Reached(configured, c, actions).past, id, Reached(configured, c, actions).past.reports[id]);
  }

  predicate Live(s: State, id: nat) { id in s.jobs && s.jobs[id].MutationJob? }

  /** Every accepted attempt is either still a live task that has not reported, or has reported exactly once. */
  lemma ReportedExactlyOnce(configured: bool, c: Coordinator, actions: seq<Action>, id: nat)
    requires id in Reached(configured, c, actions).past.grants
    ensures var s := Reached(configured, c, actions);
      Count(s.past.log, AttemptReported(id)) == if Live(s, id) then 0 else 1
  {
    hide Reached, StateOk, Supplied, ReportsTruthful, ProvenanceOk, ClientsOk;
    InvHolds(configured, c, actions);
    var s := Reached(configured, c, actions);
    assert Count(s.past.log, AttemptReported(id)) == One(id in s.past.reports);
    if Live(s, id) {
      assert Accounted(s.past, id, s.jobs[id].key, s.jobs[id].attempt);
    }
  }

  /**
   No resurrection: once an attempt no longer owns its target, whether pruned or replaced, its next wake-up
   reports it and touches neither the dictionaries nor the tasks.
   */
  lemma NoResurrection(s: State, action: Action)
    requires action.AttemptWakes? && Enabled(s, action)
    requires !OwnsMutation(s.books, s.jobs[action.id].attempt.kind, s.jobs[action.id].key, action.id)
    requires Inv(s, NoHole)
    ensures var s' := Step(s, action);
      && s'.books == s.books && s'.tasks == s.tasks && s'.jobs == s.jobs - {action.id}
      && action.id in s'.past.reports && s'.past.log == s.past.log + [AttemptReported(action.id)]
  {
    hide Inv, Possible, Consistent, Accounted, Advance, OwnsMutation;
    var a := s.jobs[action.id].attempt;
    LiveAttempt(s, action.id);
    CancelledObeys(a, action.generated);
  }

  // ----- what the history shows

  /** Whatever a run wrote into its history was justified by what the history held before. */
  lemma HistoryIsJustified(configured: bool, c: Coordinator, actions: seq<Action>, i: nat)
    requires i < |Reached(configured, c, actions).past.log|
    ensures var log := Reached(configured, c, actions).past.log;
      EventOk(log[..i], log[i])
  {
    hide Reached, StateOk, Supplied, LedgerOk, ScansProven, EvidenceProven, ObservationsSafe, ClientsOk, EventOk;
    InvHolds(configured, c, actions);
  }

  /** No two acceptances carry the same identity, so the attempt a later event speaks of is unambiguous. */
  lemma AcceptedOnce(configured: bool, c: Coordinator, actions: seq<Action>, i: nat, j: nat, id: nat)
    requires var log := Reached(configured, c, actions).past.log;
      i < |log| && j < |log| && Accepts(log[i], id) && Accepts(log[j], id)
    ensures i == j
  {
    hide Reached, Stranded, Undisturbed, TokenUnused, EvidenceUnused;
    var log := Reached(configured, c, actions).past.log;
    HistoryIsJustified(configured, c, actions, i);
    HistoryIsJustified(configured, c, actions, j);
  }

  /**
   Authorization. Every mutation request belongs to exactly one acceptance before it. An Update's was preceded by
   the published scan, the confirmation of that scan's own token, the acceptance under both, a fresh plan with
   exactly the scanned rows and, unless it was skipped, a snapshot a listing confirmed complete; an Autoremove's by
   the shown evidence, a fresh plan with exactly its rows, and such a snapshot.
   */
  lemma MutationWasAuthorized(configured: bool, c: Coordinator, actions: seq<Action>, i: nat, j: nat)
    requires var log := Reached(configured, c, actions).past.log;
      i < |log| && j < |log| && log[i].MutationRequested? && Accepts(log[j], log[i].id)
    ensures var log := Reached(configured, c, actions).past.log;
      && j < i
      && MutationRequested(log[i].id) !in log[..i]
      && (log[j].UpdateAccepted? ==>
        && log[j].packages != []
        && ScanPublished(log[j].key, log[j].token, log[j].packages) in log[..j]
        && ReviewConfirmed(log[j].key, log[j].token) in log[..j]
        && PlanMatched(log[i].id, Upgrade(PlanTuple(log[j].packages))) in log[..i]
        && (log[j].skip || SnapshotWasReady(log[..i], log[i].id)))
      && (log[j].CleanupAccepted? ==>
        && log[j].evidence.candidates != []
        && PlanMatched(log[i].id, Removal(CleanupTuple(log[j].evidence.candidates))) in log[..i]
        && SnapshotWasReady(log[..i], log[i].id))
  {
    hide Reached, TokenUnused, EvidenceUnused, Stranded, Undisturbed, PlanTuple, CleanupTuple, IdUnused;
    var log := Reached(configured, c, actions).past.log;
    HistoryIsJustified(configured, c, actions, i);
    HistoryIsJustified(configured, c, actions, j);
    var grant := GrantOf(log[..i], log[i].id);
    var k := IndexOf(log[..i], grant);
    AcceptedOnce(configured, c, actions, j, k, log[i].id);
  }

  ghost predicate SnapshotWasReady(log: Log, id: nat) { exists e | e in log :: e.SnapshotReady? && e.id == id }

  lemma GrantOf(log: Log, id: nat) returns (grant: Event)
    requires Authorized(log, id)
    ensures grant in log && Accepts(grant, id)
    ensures grant.UpdateAccepted? ==>
      PlanMatched(id, Upgrade(PlanTuple(grant.packages))) in log && (grant.skip || SnapshotWasReady(log, id))
    ensures grant.CleanupAccepted? ==>
      PlanMatched(id, Removal(CleanupTuple(grant.evidence.candidates))) in log && SnapshotWasReady(log, id)
  {
    grant :| grant in log && (
      || (grant.UpdateAccepted? && grant.id == id
          && PlanMatched(id, Upgrade(PlanTuple(grant.packages))) in log
          && (grant.skip || exists e | e in log :: e.SnapshotReady? && e.id == id))
      || (grant.CleanupAccepted? && grant.id == id
          && PlanMatched(id, Removal(CleanupTuple(grant.evidence.candidates))) in log
          && (exists e | e in log :: e.SnapshotReady? && e.id == id)));
  }

  /** One confirmation, one Update; one observed cleanup plan, one Autoremove. */
  lemma AuthorizedAtMostOnce(configured: bool, c: Coordinator, actions: seq<Action>, i: nat, j: nat)
    requires i < j < |Reached(configured, c, actions).past.log|
    ensures var log := Reached(configured, c, actions).past.log;
      && (log[i].UpdateAccepted? && log[j].UpdateAccepted? ==> log[i].token != log[j].token)
      && (log[i].CleanupAccepted? && log[j].CleanupAccepted? ==>
        log[i].evidence.observedAt != log[j].evidence.observedAt)
      && (log[i].MutationRequested? && log[j].MutationRequested? ==> log[i].id != log[j].id)
      && (log[i].AttemptReported? && log[j].AttemptReported? ==> log[i].id != log[j].id)
  {
    hide Reached, Authorized, Stranded, Undisturbed;
    HistoryIsJustified(configured, c, actions, j);
    var log := Reached(configured, c, actions).past.log;
    assert log[i] == log[..j][i] && log[i] in log[..j];
  }

  /** The events a deletion presupposes are in the history, in order. */
  predicate DeletionFollows(log: Log, i: nat, id: nat, name: string, ready: nat, alive: nat)
    requires i <= |log|
  {
    && ready < i && log[ready] == SnapshotReady(id, name) && PostSubmitted(id, name) in log[..ready]
    && alive < i && log[alive] == GuestAlive(id) && MutationRequested(id) in log[..alive]
  }

  lemma IndexOf(log: Log, e: Event) returns (i: nat)
    requires e in log
    ensures i < |log| && log[i] == e
  {
    i :| i < |log| && log[i] == e;
  }

  /** A snapshot is deleted only under the name its own attempt confirmed, after the mutation and a live guest. */
  lemma OnlyOwnSnapshotsAreDeleted(configured: bool, c: Coordinator, actions: seq<Action>, i: nat)
    requires var log := Reached(configured, c, actions).past.log;
      i < |log| && log[i].DeleteSubmitted?
    ensures var log := Reached(configured, c, actions).past.log;
      exists ready, alive :: DeletionFollows(log, i, log[i].id, log[i].name, ready, alive)
  {
    hide Reached, Authorized;
    var log := Reached(configured, c, actions).past.log;
    HistoryIsJustified(configured, c, actions, i);
    var ready := IndexOf(log[..i], SnapshotReady(log[i].id, log[i].name));
    var alive := IndexOf(log[..i], GuestAlive(log[i].id));
    HistoryIsJustified(configured, c, actions, ready);
    HistoryIsJustified(configured, c, actions, alive);
    assert DeletionFollows(log, i, log[i].id, log[i].name, ready, alive);
  }

  /** A viewed token is always the token of the current non-empty successful scan, so approving it approves that. */
  lemma ViewedTokensAreCurrent(configured: bool, c: Coordinator, actions: seq<Action>, key: Key)
    requires key in Reached(configured, c, actions).books.viewed
    ensures var b := Reached(configured, c, actions).books;
      && key in b.records && b.records[key].ScanSuccess? && b.records[key].packages != []
      && b.records[key].token == b.viewed[key]
      && ConfirmViewed(Reached(configured, c, actions), key).books.records[key].reviewed
  {
    hide Reached, Exclusive, FenceHolds, NoEvidenceWhileRunning, Tethered, SectionsBounded, TraceOk, ClientsOk;
    InvHolds(configured, c, actions);
  }

  // ----- cleanup evidence

  /** Behind a fence or beside running package work there is never cleanup evidence, and what there is is fresh. */
  lemma EvidenceIsFresh(configured: bool, c: Coordinator, actions: seq<Action>, key: Key)
    requires key in Reached(configured, c, actions).books.evidence
    ensures var s := Reached(configured, c, actions);
      && key !in s.books.fenced && !Working(s.books, key)
      && s.books.evidence[key].begun <= |s.past.log|
      && Undisturbed(s.past.log, s.books.evidence[key].begun, key)
  {
    hide Reached, Exclusive, ViewedIsCurrent, Tethered, SectionsBounded, Supplied, LedgerOk, ClientsOk;
    hide LogOk, ScansProven, ObservationsSafe, Undisturbed;
    InvHolds(configured, c, actions);
    assert RunsPackageWork(Reached(configured, c, actions).books, key) == Working(Reached(configured, c, actions).books, key);
  }

  /**
   No Autoremove was ever accepted on evidence that a stop, a prune or a Restore of its target had overtaken
   between the moment it was requested and the acceptance.
   */
  lemma NoStaleAutoremove(configured: bool, c: Coordinator, actions: seq<Action>, i: nat)
    requires var log := Reached(configured, c, actions).past.log;
      i < |log| && log[i].CleanupAccepted?
    ensures var log := Reached(configured, c, actions).past.log;
      && log[i].evidence.candidates != []
      && forall j | log[i].evidence.begun <= j < i :: !Disturbs(log[j], log[i].key)
  {
    hide Reached, Stranded, EvidenceUnused;
    HistoryIsJustified(configured, c, actions, i);
    var log := Reached(configured, c, actions).past.log;
    forall j | log[i].evidence.begun <= j < i ensures !Disturbs(log[j], log[i].key) {
      assert log[..i][j] == log[j];
    }
  }
}
