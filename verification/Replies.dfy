/**
 Which reply takes one attempt where, and which outcome it reports when it ends there, read off the reply itself:
 the rows of a plan, the fields of a status answer, the rows of a listing.
 */
module Replies {
  import opened Models
  import opened Wire
  import opened NativeSnapshots
  import opened Attempts

  // ----- which reply leads where

  /** The rows of a fresh plan are, one by one and in order, the accepted ones. */
  predicate SameRows(plan: Plan, reply: Reply) {
    match reply
    case UpgradePlanned(packages) =>
      && plan.Upgrade? && |packages| == |plan.rows|
      && forall i | 0 <= i < |packages| ::
        && packages[i].name == plan.rows[i].0 && packages[i].architecture == plan.rows[i].1
        && packages[i].installedVersion == plan.rows[i].2 && packages[i].candidateVersion == plan.rows[i].3
    case RemovalPlanned(removable) =>
      && plan.Removal? && |removable| == |plan.removed|
      && forall i | 0 <= i < |removable| ::
        && removable[i].name == plan.removed[i].0 && removable[i].architecture == plan.removed[i].1
        && removable[i].installedVersion == plan.removed[i].2
    case _ => false
  }

  predicate StatusSays(reply: Reply, status: string) { reply.Status? && Says(reply.payload, "status", Str(status)) }

  ghost predicate StatusEndsWell(reply: Reply) {
    StatusSays(reply, "stopped") && exists exit: string :: Says(reply.payload, "exitstatus", Str(exit)) && EndsWell(exit)
  }

  ghost predicate ShownWhole(rows: Json, name: string) {
    Readable(rows) && exists i | 0 <= i < |rows.items| :: ShownOnceAt(rows.items, name, i)
  }

  /** The replies after which the body goes on to another await of its section, read off the reply itself. */
  ghost predicate GoesOn(a: Attempt, reply: Reply) {
    match a.at
    case AwaitSlot => reply.Granted?
    case AwaitPlan => SameRows(a.plan, reply)
    case AwaitListing => reply.Listed? && Readable(reply.rows)
    case AwaitPost(_) => reply.Returned? && ValidUpid(reply.value)
    case AwaitStatus(Creating, poll) => StatusSays(reply, "stopped") || (StatusSays(reply, "running") && poll < 119)
    case AwaitStatus(Removing, poll) => StatusEndsWell(reply) || (StatusSays(reply, "running") && poll < 119)
    case AwaitPause(_, _) => reply.Rested?
    case AwaitRecheck => false
    case AwaitConfirm => reply.Listed? && a.name.Some? && ShownWhole(reply.rows, a.name.value)
    case AwaitMutation => reply.Mutated?
    case AwaitNative => StatusSays(reply, "running")
    case AwaitPing(again) => if reply.Pong? then !a.skip else reply.Refused? && !again
    case AwaitPingPause => reply.Rested?
    case AwaitDelete(_) => reply.Returned? && ValidUpid(reply.value)
    case AwaitAbsence => false
    case AwaitObservation(_, _) => false
  }

  /** The await that follows. */
  ghost predicate GoesTo(a: Attempt, reply: Reply, at: Position) {
    match a.at
    case AwaitSlot => at == AwaitPlan
    case AwaitPlan => at == if a.skip then AwaitMutation else AwaitListing
    case AwaitListing => at == AwaitPost(false)
    case AwaitPost(_) => at == AwaitStatus(Creating, 0)
    case AwaitStatus(phase, poll) =>
      at == if StatusSays(reply, "running") then AwaitPause(phase, poll)
            else if phase.Removing? then AwaitAbsence
            else if StatusEndsWell(reply) then AwaitConfirm else AwaitRecheck
    case AwaitPause(phase, poll) => at == AwaitStatus(phase, poll + 1)
    case AwaitConfirm => at == AwaitMutation
    case AwaitMutation => at == AwaitNative
    case AwaitNative => at == AwaitPing(false)
    case AwaitPing(_) => at == if reply.Pong? then AwaitDelete(false) else AwaitPingPause
    case AwaitPingPause => at == AwaitPing(true)
    case AwaitDelete(_) => at == AwaitStatus(Removing, 0)
    case _ => false
  }

  /** What the body has noted on the way to the next await. */
  predicate Notes(a: Attempt, reply: Reply, generated: string, next: Attempt) {
    && next.name == (if a.at.AwaitListing? then Some(generated) else a.name)
    && next.started == (a.started || (a.at.AwaitPlan? && !a.skip))
    && next.submitted == a.submitted
    && next.ready == (a.ready || a.at.AwaitConfirm?)
    && next.mutating == (a.mutating || a.at.AwaitConfirm? || (a.at.AwaitPlan? && a.skip))
    && next.changed == (if a.at.AwaitMutation? && reply.Mutated? then Some(ChangedCount(reply.before, reply.after)) else a.changed)
  }

  lemma PlanExactly(plan: Plan, reply: Reply)
    ensures PlanReply(reply) == Some(plan) <==> SameRows(plan, reply)
  {
    match reply
    case UpgradePlanned(packages) =>
      if SameRows(plan, reply) {
        assert PlanTuple(packages) == plan.rows;
      }
    case RemovalPlanned(removable) =>
      if SameRows(plan, reply) {
        assert CleanupTuple(removable) == plan.removed;
      }
    case _ =>
  }

  /** The body goes on exactly after these replies; after any other it ends or, when cancelled, aborts. */
  lemma GoesOnExactly(a: Attempt, reply: Reply, generated: string)
    ensures Advance(a, reply, generated).Proceed? <==> GoesOn(a, reply)
    ensures reply.Cancelled? ==> !Advance(a, reply, generated).Settle?
    ensures Advance(a, reply, generated).Abort? ==> reply.Cancelled?
  {
    hide PlanTuple, CleanupTuple, SameRows, SnapshotIsAbsent, SnapshotIsComplete, ValidUpid, WellFormedListing, Readable, ShownWhole;
    hide ParseTaskStatus, Says, StatusEndsWell, TaskStopped, ChangedCount;
    hide UpdateErrorRecord, SnapshotErrorRecord, BrokenRecord, SuccessRecord, CleanupFailedRecord;
    PlanExactly(a.plan, reply);
    if reply.Listed? {
      ReadableExactly(reply.rows);
      if a.name.Some? {
        ShownExactly(reply.rows, a.name.value);
      }
    }
    StatusFacts(reply);
    match a.at
    case AwaitSlot =>
    case AwaitPlan =>
    case AwaitListing =>
    case AwaitPost(_) =>
    case AwaitStatus(phase, _) =>
    case AwaitPause(_, _) =>
    case AwaitRecheck =>
    case AwaitConfirm =>
    case AwaitMutation =>
    case AwaitNative =>
    case AwaitPing(_) =>
    case AwaitPingPause =>
    case AwaitDelete(_) =>
    case AwaitAbsence =>
    case AwaitObservation(_, _) =>
  }

  lemma BeforeGoesTo(a: Attempt, reply: Reply, generated: string, next: Attempt, passed: Passed)
    requires Advance(a, reply, generated) == Proceed(next, passed) && BeforeSnapshot(a.at)
    ensures GoesTo(a, reply, next.at) && Notes(a, reply, generated, next)
  {
    hide PlanTuple, CleanupTuple, SnapshotIsAbsent, SnapshotIsComplete, ValidUpid, WellFormedListing;
    hide ParseTaskStatus, Says, StatusEndsWell, TaskStopped, ChangedCount;
    hide UpdateErrorRecord, SnapshotErrorRecord, BrokenRecord, SuccessRecord, CleanupFailedRecord;
    StatusFacts(reply);
    match a.at
    case AwaitSlot =>
    case AwaitPlan =>
    case AwaitListing =>
  }

  lemma CreatingGoesTo(a: Attempt, reply: Reply, generated: string, next: Attempt, passed: Passed)
    requires Advance(a, reply, generated) == Proceed(next, passed) && CreatingSnapshot(a.at)
    ensures GoesTo(a, reply, next.at) && Notes(a, reply, generated, next)
  {
    hide PlanTuple, CleanupTuple, SnapshotIsAbsent, SnapshotIsComplete, ValidUpid, WellFormedListing;
    hide ParseTaskStatus, Says, StatusEndsWell, TaskStopped, ChangedCount;
    hide UpdateErrorRecord, SnapshotErrorRecord, BrokenRecord, SuccessRecord, CleanupFailedRecord;
    StatusFacts(reply);
    match a.at
    case AwaitPost(_) =>
    case AwaitStatus(_, _) =>
    case AwaitPause(_, _) =>
    case AwaitRecheck =>
    case AwaitConfirm =>
  }

  lemma MutatingGoesTo(a: Attempt, reply: Reply, generated: string, next: Attempt, passed: Passed)
    requires Advance(a, reply, generated) == Proceed(next, passed)
    requires !BeforeSnapshot(a.at) && !CreatingSnapshot(a.at) && !RemovingSnapshot(a.at)
    ensures GoesTo(a, reply, next.at) && Notes(a, reply, generated, next)
  {
    hide PlanTuple, CleanupTuple, SnapshotIsAbsent, SnapshotIsComplete, ValidUpid, WellFormedListing;
    hide ParseTaskStatus, Says, StatusEndsWell, TaskStopped, ChangedCount;
    hide UpdateErrorRecord, SnapshotErrorRecord, BrokenRecord, SuccessRecord, CleanupFailedRecord;
    StatusFacts(reply);
    match a.at
    case AwaitMutation =>
    case AwaitNative =>
    case AwaitPing(_) =>
    case AwaitPingPause =>
    case AwaitObservation(_, _) =>
  }

  lemma RemovingGoesTo(a: Attempt, reply: Reply, generated: string, next: Attempt, passed: Passed)
    requires Advance(a, reply, generated) == Proceed(next, passed) && RemovingSnapshot(a.at)
    ensures GoesTo(a, reply, next.at) && Notes(a, reply, generated, next)
  {
    hide PlanTuple, CleanupTuple, SnapshotIsAbsent, SnapshotIsComplete, ValidUpid, WellFormedListing;
    hide ParseTaskStatus, Says, StatusEndsWell, TaskStopped, ChangedCount;
    hide UpdateErrorRecord, SnapshotErrorRecord, BrokenRecord, SuccessRecord, CleanupFailedRecord;
    StatusFacts(reply);
    match a.at
    case AwaitDelete(_) =>
    case AwaitStatus(_, _) =>
    case AwaitPause(_, _) =>
    case AwaitAbsence =>
  }

  /** And it goes on to the await that comes next in the source, having noted no more than it has seen. */
  lemma GoesToExactly(a: Attempt, reply: Reply, generated: string, next: Attempt, passed: Passed)
    requires Advance(a, reply, generated) == Proceed(next, passed)
    ensures GoesTo(a, reply, next.at) && Notes(a, reply, generated, next)
  {
    hide Advance, GoesTo, Notes;
    if BeforeSnapshot(a.at) {
      BeforeGoesTo(a, reply, generated, next, passed);
    } else if CreatingSnapshot(a.at) {
      CreatingGoesTo(a, reply, generated, next, passed);
    } else if RemovingSnapshot(a.at) {
      RemovingGoesTo(a, reply, generated, next, passed);
    } else {
      MutatingGoesTo(a, reply, generated, next, passed);
    }
  }

  lemma ShownExactly(rows: Json, name: string)
    ensures SnapshotIsComplete(rows, name) <==> ShownWhole(rows, name)
  {
    hide SnapshotIsComplete, ShownOnceAt;
    CompleteExactly(rows, name);
  }

  lemma StatusFacts(reply: Reply)
    ensures reply.Status? ==> (TaskStopped(reply.payload) <==> StatusSays(reply, "stopped"))
    ensures reply.Status? ==> (ParseTaskStatus(reply.payload).TaskRunning? <==> StatusSays(reply, "running"))
    ensures reply.Status? ==> (ParseTaskStatus(reply.payload).TaskSucceeded? <==> StatusEndsWell(reply))
    ensures reply.Status? ==> (Get(reply.payload, "status") == Str("running") <==> StatusSays(reply, "running"))
    ensures StatusSays(reply, "stopped") ==> !StatusSays(reply, "running")
    ensures StatusEndsWell(reply) ==> StatusSays(reply, "stopped")
  {
    hide ParseTaskStatus, EndsWell;
    if reply.Status? {
      StatusExactly(reply.payload);
    }
  }

  // ----- which outcome is reported for which reply

  /** Cancelled, or ended by an exception no handler of the body names. */
  predicate Broke(a: Attempt, reply: Reply) {
    || reply.Cancelled? || a.at.AwaitSlot? || a.at.AwaitPause? || a.at.AwaitPingPause?
    || (a.at.AwaitPlan? && !reply.UpgradePlanned? && !reply.RemovalPlanned? && !reply.Refused?)
    || (a.at.AwaitMutation? && !reply.Refused?)
    || (a.at.AwaitPing? && !reply.Pong? && !reply.Refused?)
  }

  /** The transport named this failure of the plan or of the mutation. */
  predicate RefusedWith(a: Attempt, reply: Reply, outcome: UpdateOutcome) {
    (a.at.AwaitPlan? || a.at.AwaitMutation?) && reply == Refused(outcome)
  }

  /** Why an ending attempt reports what it reports. */
  predicate Explains(a: Attempt, reply: Reply, outcome: UpdateOutcome) {
    match outcome
    case PlanChanged => a.at.AwaitPlan? && (reply.UpgradePlanned? || reply.RemovalPlanned?)
    case PlanFailed =>
      !a.mutating && !a.started && (RefusedWith(a, reply, PlanFailed) || (Broke(a, reply) && a.kind.UpdateKind?))
    case SnapshotFailed =>
      !a.mutating && (a.started || (Broke(a, reply) && a.kind.CleanupKind?))
    case MutationUncertain => a.mutating && (RefusedWith(a, reply, MutationUncertain) || Broke(a, reply))
    case GuestUnavailable => RefusedWith(a, reply, GuestUnavailable) || (a.at.AwaitNative? && !reply.Cancelled?)
    case LivenessFailed => a.at == AwaitPing(true) && reply.Refused?
    case MutationSucceeded =>
      (a.at.AwaitPing? && reply.Pong?) || (RemovingSnapshot(a.at) && !a.at.AwaitPause? && !reply.Cancelled?)
    case _ => RefusedWith(a, reply, outcome)
  }

  /** The rest of an ending record follows from its outcome and from what the attempt had seen. */
  predicate Details(a: Attempt, record: UpdateRecord) {
    && record.outcome.Some?
    && record.attempt == a.id && record.snapshotSkipped == a.skip && record.changedCount == a.changed
    && record.status == (if record.outcome == Some(MutationSucceeded) then Succeeded else Failed)
    && record.liveness == (
      if record.outcome == Some(MutationSucceeded) then Some(true)
      else if record.outcome == Some(GuestUnavailable) || record.outcome == Some(LivenessFailed) then Some(false)
      else None)
  }

  predicate ExplainedAtEnd(a: Attempt, reply: Reply, turn: Turn) {
    match turn
    case Settle(record, _) => Details(a, record) && Explains(a, reply, record.outcome.value)
    case Abort(record) => Details(a, record) && Explains(a, reply, record.outcome.value)
    case _ => true
  }

  lemma EarlyOutcomes(a: Attempt, w: Snapshot, reply: Reply, generated: string)
    requires Consistent(a, w) && Possible(a, w, reply) && (BeforeSnapshot(a.at) || CreatingSnapshot(a.at))
    ensures ExplainedAtEnd(a, reply, Advance(a, reply, generated))
  {
    hide PlanTuple, CleanupTuple, SnapshotIsAbsent, SnapshotIsComplete, ValidUpid, WellFormedListing, Readable, Shows;
    hide ParseTaskStatus, Says, TaskStopped, RecordFits, OwnSnapshotName;
    match a.at
    case AwaitSlot =>
    case AwaitPlan =>
    case AwaitListing =>
    case AwaitPost(_) =>
    case AwaitStatus(phase, _) =>
    case AwaitPause(_, _) =>
    case AwaitRecheck =>
    case AwaitConfirm =>
  }

  lemma LateOutcomes(a: Attempt, w: Snapshot, reply: Reply, generated: string)
    requires Consistent(a, w) && Possible(a, w, reply)
    requires !BeforeSnapshot(a.at) && !CreatingSnapshot(a.at) && !RemovingSnapshot(a.at)
    ensures ExplainedAtEnd(a, reply, Advance(a, reply, generated))
  {
    hide PlanTuple, CleanupTuple, SnapshotIsAbsent, SnapshotIsComplete, ValidUpid, WellFormedListing, Readable, Shows;
    hide ParseTaskStatus, Says, TaskStopped, RecordFits, OwnSnapshotName;
    match a.at
    case AwaitMutation =>
    case AwaitNative =>
    case AwaitPing(_) =>
    case AwaitPingPause =>
    case AwaitObservation(_, _) =>
  }

  lemma LastOutcomes(a: Attempt, w: Snapshot, reply: Reply, generated: string)
    requires Consistent(a, w) && RemovingSnapshot(a.at)
    ensures ExplainedAtEnd(a, reply, Advance(a, reply, generated))
  {
    hide PlanTuple, CleanupTuple, SnapshotIsAbsent, SnapshotIsComplete, ValidUpid, WellFormedListing, Readable, Shows;
    hide ParseTaskStatus, Says, TaskStopped, RecordFits, OwnSnapshotName;
    match a.at
    case AwaitDelete(_) =>
    case AwaitStatus(_, _) =>
    case AwaitPause(_, _) =>
    case AwaitAbsence =>
  }

  /** Every ending record carries the outcome its reply calls for, and what follows from it. */
  lemma OutcomesExactly(a: Attempt, w: Snapshot, reply: Reply, generated: string)
    requires Consistent(a, w) && Possible(a, w, reply)
    ensures ExplainedAtEnd(a, reply, Advance(a, reply, generated))
  {
    hide Consistent, Possible, ExplainedAtEnd, Advance;
    if BeforeSnapshot(a.at) || CreatingSnapshot(a.at) {
      EarlyOutcomes(a, w, reply, generated);
    } else if RemovingSnapshot(a.at) {
      LastOutcomes(a, w, reply, generated);
    } else {
      LateOutcomes(a, w, reply, generated);
    }
  }

  /** The explanations exclude each other, so an outcome is reported exactly when its explanation holds. */
  lemma ExplanationsExclude(a: Attempt, w: Snapshot, reply: Reply, one: UpdateOutcome, other: UpdateOutcome)
    requires Consistent(a, w) && Possible(a, w, reply) && !GoesOn(a, reply)
    requires Explains(a, reply, one) && Explains(a, reply, other)
    ensures one == other
  {
    hide PlanTuple, CleanupTuple, SameRows, ValidUpid, Readable, ShownWhole, StatusEndsWell, Says, OwnSnapshotName;
  }
}
