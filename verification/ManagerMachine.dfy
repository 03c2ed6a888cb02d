/**
 Everything that can happen to a package manager: button presses and service calls, coordinator refreshes,
 wake-ups of its background tasks with every reply the outside can give, cancellations, and PVE moving on its
 own. A run is any sequence of such actions.
 */
module ManagerMachine {
  import opened Models
  import opened Wire
  import opened NativeSnapshots
  import opened Attempts
  import opened History
  import opened ManagerState

  // ----- what users and listeners can call

  datatype Call =
    | PressScan(key: Key, targetIsRunning: bool)
    | PressUpdate(key: Key, targetIsRunning: bool, permission: bool)
    | PressAutoremove(key: Key, targetIsRunning: bool, permission: bool)
    | PressHealth(key: Key, targetIsRunning: bool, created: bool)
    | PressReview(key: Key, token: nat)
    | PressApprove(key: Key)
    | PressRestoreButton(key: Key, created: bool)
    | EasyUpdate(key: Key, expected: Option<nat>, skip: bool, snapshotCreateRunning: bool, follow: bool)

  function Dispatch(s: State, call: Call): State {
    match call
    case PressScan(key, targetIsRunning) => StartScan(s, key, targetIsRunning)
    case PressUpdate(key, targetIsRunning, permission) => StartUpdate(s, key, targetIsRunning, permission, false)
    case PressAutoremove(key, targetIsRunning, permission) => StartAutoremove(s, key, targetIsRunning, permission)
    case PressHealth(key, targetIsRunning, created) => StartHealth(s, key, targetIsRunning, created)
    case PressReview(key, token) => MarkViewed(s, key, token)
    case PressApprove(key) => ConfirmViewed(s, key)
    case PressRestoreButton(key, created) => PressRestore(s, key, created)
    case EasyUpdate(key, expected, skip, snapshotCreateRunning, follow) =>
      StartEasyUpdate(s, key, expected, skip, snapshotCreateRunning, follow)
  }

  // ----- Easy Update (easy_update.py)

  predicate EasyUpdatePrechecks(s: State, key: Key, expected: Option<nat>, skip: bool, snapshotCreateRunning: bool) {
    && s.coordinator.lastUpdateSuccess && key in s.coordinator.running
    && var b := s.books;
    && key in b.records && b.records[key].ScanSuccess? && b.records[key].packages != []
    && (expected.Some? ==> b.records[key].attempt == expected.value)
    && (skip || key.vmid in s.coordinator.snapshotGranted)
    && !(skip && snapshotCreateRunning)
    && key !in b.reserved
    && (key in b.updates ==> !b.updates[key].status.Running?)
    && (key in b.cleanups ==> !b.cleanups[key].status.Running?)
    && (key in b.health ==> !b.health[key].HealthRunning?)
  }

  /** Confirm the scan's own token and start Update with no await in between; optionally leave a continuation. */
  function StartEasyUpdate(
    s: State, key: Key, expected: Option<nat>, skip: bool, snapshotCreateRunning: bool, follow: bool): State
  {
    if !EasyUpdatePrechecks(s, key, expected, skip, snapshotCreateRunning) then s
    else
      var confirmed := ConfirmReview(s, key, s.books.records[key].token);
      var permission := key.vmid in s.coordinator.snapshotGranted;
      if UpdateRefusal(confirmed, key, true, permission, skip).Some? then confirmed
      else
        var started := StartUpdate(confirmed, key, true, permission, skip);
        if !follow then started
        else
          started.(
            supply := started.supply + 1,
            followers := s.followers[started.supply := Follower(key, confirmed.supply, false, started.version)])
  }

  /** None: keep waiting. Some(false): stop. Some(true): start Autoremove. */
  function Decide(c: Coordinator, b: Books, f: Follower): Option<bool> {
    if !c.lastUpdateSuccess then Some(false)
    else if f.key !in b.updates || b.updates[f.key].attempt != f.attempt then Some(false)
    else if b.updates[f.key].status.Running? then None
    else if !b.updates[f.key].status.Succeeded? then Some(false)
    else if
      || f.key !in b.evidence || b.evidence[f.key].candidates == [] || b.evidence[f.key].observedAt < f.attempt
      || f.key in b.reserved
    then Some(false)
    else if
      || (f.key in b.health && b.health[f.key].HealthRunning?)
      || (f.key in b.records && b.records[f.key].ScanRunning?)
      || (f.key in b.cleanups && b.cleanups[f.key].status.Running?)
    then None
    else Some(f.key in c.running && f.key.vmid in c.snapshotGranted)
  }

  /** Clear the wake event, decide, and either park on it or leave for good. */
  function RunFollower(s: State, id: nat): State
    requires id in s.followers
  {
    var f := s.followers[id];
    var decision := Decide(s.coordinator, s.books, f);
    if decision.None? then s.(followers := s.followers[id := f.(parked := true, seen := s.version)])
    else
      var left := s.(followers := s.followers - {id});
      if !decision.value || AutoremoveRefusal(s, f.key, true, true).Some? then left
      else
        var started := AcceptAutoremove(left, f.key);
        started.(past := Append(started.past, AutoremoveFollowed(id, f.attempt, s.supply)))
  }

  // ----- listeners that re-enter while a terminal result is being published

  /** What listeners call at the three notifications of the finish path, in order. */
  datatype Listeners = Listeners(claimed: seq<Call>, published: seq<Call>, reported: seq<Call>)

  const QUIET := Listeners([], [], [])

  function Listen(s: State, calls: seq<Call>): State
    decreases |calls|
  {
    if calls == [] then s else Listen(Dispatch(s, calls[0]), calls[1..])
  }

  function SourceOf(kind: MutationKind): HealthSource {
    if kind.UpdateKind? then AfterUpdate else AfterAutoremove
  }

  /** Claim Health first, while the attempt still owns its target, so that a listener cannot get in between. */
  function Claimed(s: State, kind: MutationKind, key: Key, claim: bool, calls: seq<Call>): State {
    var forgotten := s.(tasks := ForgetTask(s.tasks, kind, key));
    if claim then Listen(ClaimHealth(forgotten, key, SourceOf(kind)), calls) else forgotten
  }

  /**
   Publish the terminal record of an attempt that still owns its target, letting listeners run at every
   notification, and start the claimed Health check only afterwards.
   */
  function FinishMutation(
    s: State, kind: MutationKind, key: Key, id: nat, record: UpdateRecord, claimHealth: bool, l: Listeners,
    created: bool): State
  {
    if !OwnsMutation(s.books, kind, key, id) then s
    else
      var claim := claimHealth && record.status.Succeeded? && !HealthClaimBlocked(s.books, key.vmid);
      var claimed := Claimed(s, kind, key, claim, l.claimed);
      var published := Listen(SetMutationRecord(claimed, kind, key, record), l.published);
      var reported := Listen(Report(published, id, record), l.reported);
      if claim then LaunchHealth(reported, key, s.supply, SourceOf(kind), created) else reported
  }

  // ----- wake-ups of the run bodies

  datatype ScanReply =
    | SlotGranted
    | Scanned(packages: seq<PendingPackage>)
    | ScanRaised(failure: ScanFailure)
    | CleanupPlanned(removable: seq<RemovablePackage>)
    | CleanupUnavailable
    | ScanCancelled

  function EndJob(s: State, id: nat): State {
    s.(jobs := s.jobs - {id}, scanSlots := s.scanSlots - {id}, updateSlot := s.updateSlot - {id})
  }

  function WakeScan(s: State, id: nat, reply: ScanReply, presented: bool): State
    requires id in s.jobs && s.jobs[id].ScanJob?
  {
    var job := s.jobs[id];
    var ended := EndJob(s, id);
    if reply.ScanCancelled? then ended
    else
      match job.position
      case ScanSlot =>
        if reply.SlotGranted? then
          s.(jobs := s.jobs[id := job.(position := ScanHelper)], scanSlots := s.scanSlots + {id})
        else FinishScan(ended, job.key, id, ScanFailed(id, ExecutionFailed))
      case ScanHelper =>
        if reply.Scanned? then
          s.(jobs := s.jobs[id := job.(position := ScanCleanup(reply.packages, |s.past.log|))])
        else
          var failure := if reply.ScanRaised? then reply.failure else ExecutionFailed;
          FinishScan(ended, job.key, id, ScanFailed(id, failure))
      case ScanCleanup(packages, begun) =>
        if !OwnsScan(s.books, job.key, id) then ended
        else
          var observed := if reply.CleanupPlanned? then Some(reply.removable) else None;
          var token := s.supply;
          var published := PublishCleanup(ended.(supply := token + 1), job.key, observed, begun, presented);
          FinishScan(published.(past := Append(published.past, ScanPublished(job.key, token, packages))), job.key, id,
                     ScanSuccess(id, packages, token, false))
  }

  function PassedEvents(a: Attempt, passed: Passed): Log {
    match passed
    case Nothing => []
    case PlanUnchanged => [PlanMatched(a.id, a.plan)]
    case PlanUnchangedThenMutates => [PlanMatched(a.id, a.plan), MutationRequested(a.id)]
    case ConfirmedThenMutates(name) => [SnapshotReady(a.id, name), MutationRequested(a.id)]
    case GuestAnswered => [GuestAlive(a.id)]
  }

  function Pass(past: Past, a: Attempt, passed: Passed): Past { past.(log := past.log + PassedEvents(a, passed)) }

  /** Autoremove ends every attempt it does not observe again with the cleanup state unknown. */
  function ForgetCandidates(s: State, job: Job): State
    requires job.MutationJob?
  {
    if job.attempt.kind.CleanupKind? then PublishCleanup(s, job.key, None, |s.past.log|, true) else s
  }

  /** What the manager does with one turn of an attempt. */
  function ApplyTurn(s: State, id: nat, turn: Turn, presented: bool, l: Listeners, created: bool): State
    requires id in s.jobs && s.jobs[id].MutationJob?
  {
    var job := s.jobs[id];
    var a := job.attempt;
    var owned := OwnsMutation(s.books, a.kind, job.key, id);
    match turn
    case Proceed(next, passed) =>
      s.(jobs := s.jobs[id := job.(attempt := next)],
         updateSlot := if a.at.AwaitSlot? then s.updateSlot + {id} else s.updateSlot,
         past := Pass(s.past, a, passed))
    case Settle(record, passed) =>
      var past := Pass(s.past, a, passed);
      if record.status.Succeeded? && owned then
        var observing := a.(at := AwaitObservation(record, |past.log|));
        s.(jobs := s.jobs[id := job.(attempt := observing)], updateSlot := s.updateSlot - {id}, past := past)
      else
        var left := ForgetCandidates(EndJob(s, id).(past := past), job);
        FinishMutation(left, a.kind, job.key, id, record, true, l, created)
    case Abort(record) =>
      if owned then
        FinishMutation(ForgetCandidates(EndJob(s, id), job), a.kind, job.key, id, record, true, l, created)
      else Report(EndJob(s, id), id, record)
    case Observed(record, candidates) =>
      var begun := if a.at.AwaitObservation? then a.at.begun else |s.past.log|;
      var published := PublishCleanup(EndJob(s, id), job.key, candidates, begun, presented);
      FinishMutation(published, a.kind, job.key, id, record, true, l, created)
    case Interrupted(record) =>
      if owned then
        var published := PublishCleanup(EndJob(s, id), job.key, None, |s.past.log|, presented);
        FinishMutation(published, a.kind, job.key, id, record, false, l, created)
      else Report(EndJob(s, id), id, record)
  }

  datatype HealthReply = Checked(outcome: HealthOutcome) | HealthCancelled

  function WakeHealth(s: State, id: nat, reply: HealthReply): State
    requires id in s.jobs && s.jobs[id].HealthJob?
  {
    var ended := EndJob(s, id);
    if reply.HealthCancelled? then ended else FinishHealth(ended, s.jobs[id].key, id, reply.outcome)
  }

  // ----- Restore (snapshot_restore.py)

  datatype RestoreReply =
    | StillEligible(createRunning: bool)
    | NotEligible
    | RollbackRefused                 // PVE answered the POST with a definite client error
    | TaskAccepted                    // a valid task identifier came back
    | TaskObserved(known: bool)       // a terminal task result, or the end of observation without one
    | RestoreRaised
    | RestoreCancelled

  function FinishRestore(s: State, id: nat, key: Key, uncertain: bool): State {
    var left := EndJob(s, id);
    var ended := left.(past := Append(left.past, RestoreFinished(id, key, uncertain)));
    if uncertain then ended else EndRestore(ended, key)
  }

  function WakeRestore(s: State, id: nat, reply: RestoreReply): State
    requires id in s.jobs && s.jobs[id].RestoreJob?
  {
    var job := s.jobs[id];
    var key := job.key;
    match job.stage
    case Validating =>
      if reply.StillEligible? && !reply.createRunning && key in s.books.reserved then
        var cut := InvalidateRestoreTarget(s, key);
        cut.(jobs := cut.jobs[id := job.(stage := Submitting(false))])
      else FinishRestore(s, id, key, false)
    case Submitting(_) =>
      if reply.TaskAccepted? then s.(jobs := s.jobs[id := job.(stage := Watching)])
      else FinishRestore(s, id, key, !reply.RollbackRefused?)
    case Watching =>
      FinishRestore(s, id, key, !(reply.TaskObserved? && reply.known))
  }

  // ----- actions

  datatype Action =
    | Press(call: Call)
    | Refresh(coordinator: Coordinator)
    | PruneMissing(current: set<Key>)
    | ObserveRunning(running: set<Key>)
    | CancelTask(id: nat)
    | WorldMoves(id: nat, snapshot: Snapshot)
    | EnterExecutor(id: nat)
    | ScanWakes(id: nat, scanReply: ScanReply, presented: bool)
    | AttemptWakes(id: nat, reply: Reply, generated: string, presented: bool, listeners: Listeners, created: bool)
    | HealthWakes(id: nat, healthReply: HealthReply)
    | RestoreWakes(id: nat, restoreReply: RestoreReply)
    | FollowerWakes(id: nat)
    | FollowerEnds(id: nat)

  /** An executor job that was queued and not cancelled in time is entered by a worker thread. */
  predicate CanEnter(s: State, id: nat) {
    && id in s.jobs && !s.jobs[id].cancelled
    && (s.jobs[id].RestoreJob? ==> s.jobs[id].stage == Submitting(false))
    && (s.jobs[id].MutationJob? ==>
      id in s.past.snapshots
      && (s.jobs[id].attempt.at == AwaitPost(false) || s.jobs[id].attempt.at == AwaitDelete(false))
      && s.jobs[id].attempt.name.Some?)
    && (s.jobs[id].MutationJob? || s.jobs[id].RestoreJob?)
  }

  function PostedPast(past: Past, id: nat, name: string): Past
    requires id in past.snapshots
  {
    var posted := Snapshot(name, true, true, past.snapshots[id].present);
    Append(past, PostSubmitted(id, name)).(snapshots := past.snapshots[id := posted])
  }

  function Enter(s: State, id: nat): State
    requires CanEnter(s, id)
  {
    var job := s.jobs[id];
    if job.RestoreJob? then
      s.(jobs := s.jobs[id := job.(stage := Submitting(true))],
         past := Append(s.past, RollbackSubmitted(id, job.key)))
    else
      var a := job.attempt;
      var name := a.name.value;
      if a.at.AwaitPost? then
        s.(jobs := s.jobs[id := job.(attempt := a.(at := AwaitPost(true), submitted := true))],
           past := PostedPast(s.past, id, name))
      else
        s.(jobs := s.jobs[id := job.(attempt := a.(at := AwaitDelete(true)))],
           past := Append(s.past, DeleteSubmitted(id, name)))
  }

  /** A cancelled task is resumed by CancelledError and by nothing else. */
  predicate Enabled(s: State, action: Action) {
    match action
    case Press(_) => true
    case Refresh(_) => true
    case PruneMissing(_) => true
    case ObserveRunning(_) => true
    case CancelTask(id) => id in s.jobs
    case WorldMoves(id, snapshot) => id in s.past.snapshots && WorldMove(s.past.snapshots[id], snapshot)
    case EnterExecutor(id) => CanEnter(s, id)
    case ScanWakes(id, reply, _) =>
      && id in s.jobs && s.jobs[id].ScanJob?
      && (s.jobs[id].cancelled ==> reply.ScanCancelled?)
      && (s.jobs[id].position.ScanSlot? && reply.SlotGranted? ==> |s.scanSlots| < MAX_GLOBAL_SCANS)
    case AttemptWakes(id, reply, generated, _, _, _) =>
      && id in s.jobs && s.jobs[id].MutationJob? && id in s.past.snapshots
      && (s.jobs[id].cancelled ==> reply.Cancelled?)
      && (s.jobs[id].attempt.at.AwaitSlot? && reply.Granted? ==> s.updateSlot == {})
      && OwnSnapshotName(generated)
      && Possible(s.jobs[id].attempt, s.past.snapshots[id], reply)
    case HealthWakes(id, reply) =>
      id in s.jobs && s.jobs[id].HealthJob? && (s.jobs[id].cancelled ==> reply.HealthCancelled?)
    case RestoreWakes(id, reply) =>
      && id in s.jobs && s.jobs[id].RestoreJob?
      && (s.jobs[id].cancelled ==> reply.RestoreCancelled?)
      && (reply.TaskAccepted? || reply.RollbackRefused? ==> s.jobs[id].stage != Submitting(false))
    case FollowerWakes(id) => id in s.followers && (s.followers[id].parked ==> s.followers[id].seen != s.version)
    case FollowerEnds(id) => id in s.followers
  }

  function Step(s: State, action: Action): State
    requires Enabled(s, action)
  {
    match action
    case Press(call) => Dispatch(s, call)
    case Refresh(coordinator) => s.(coordinator := coordinator, version := s.version + 1)
    case PruneMissing(current) => Prune(s, current)
    case ObserveRunning(running) => InvalidateNonRunning(s, running)
    case CancelTask(id) => s.(jobs := s.jobs[id := s.jobs[id].(cancelled := true)])
    case WorldMoves(id, snapshot) => s.(past := s.past.(snapshots := s.past.snapshots[id := snapshot]))
    case EnterExecutor(id) => Enter(s, id)
    case ScanWakes(id, reply, presented) => WakeScan(s, id, reply, presented)
    case AttemptWakes(id, reply, generated, presented, listeners, created) =>
      ApplyTurn(s, id, Advance(s.jobs[id].attempt, reply, generated), presented, listeners, created)
    case HealthWakes(id, reply) => WakeHealth(s, id, reply)
    case RestoreWakes(id, reply) => WakeRestore(s, id, reply)
    case FollowerWakes(id) => RunFollower(s, id)
    case FollowerEnds(id) => s.(followers := s.followers - {id})
  }

  /** An action the outside cannot take in this state leaves it alone. */
  function Do(s: State, action: Action): State {
    if Enabled(s, action) then Step(s, action) else s
  }

  function Run(s: State, actions: seq<Action>): State
    decreases |actions|
  {
    if actions == [] then s else Run(Do(s, actions[0]), actions[1..])
  }
}
