/**
 One Update or Autoremove attempt as a machine with one position per await of the run bodies
 (packages/manager.py) and of the snapshot glue they call (packages/snapshots.py), together with a ledger of
 what PVE may still do with the attempt's own safety snapshot.
 */
module Attempts {
  import opened Models
  import opened Wire
  import opened NativeSnapshots

  datatype Phase = Creating | Removing

  /** The await an attempt is suspended at. */
  datatype Position =
    | AwaitSlot
    | AwaitPlan
    | AwaitListing
    | AwaitPost(posting: bool)
    | AwaitStatus(phase: Phase, poll: nat)
    | AwaitPause(phase: Phase, poll: nat)
    | AwaitRecheck
    | AwaitConfirm
    | AwaitMutation
    | AwaitNative
    | AwaitPing(again: bool)
    | AwaitPingPause
    | AwaitDelete(deleting: bool)
    | AwaitAbsence
    | AwaitObservation(success: UpdateRecord, begun: nat)

  /** The locals of one run body. */
  datatype Attempt = Attempt(
    kind: MutationKind,
    id: nat,
    skip: bool,
    plan: Plan,
    at: Position,
    name: Option<string>,
    started: bool,
    submitted: bool,
    ready: bool,
    mutating: bool,
    changed: Option<nat>)

  function Begin(kind: MutationKind, id: nat, skip: bool, plan: Plan): Attempt {
    Attempt(kind, id, skip, plan, AwaitSlot, None, false, false, false, false, None)
  }

  /** What the awaited operation came back with. */
  datatype Reply =
    | Granted
    | UpgradePlanned(packages: seq<PendingPackage>)
    | RemovalPlanned(removable: seq<RemovablePackage>)
    | Listed(rows: Json)
    | Returned(value: Json)
    | Status(payload: Json)
    | Rested
    | Mutated(before: Inventory, after: Inventory)
    | Pong
    | Refused(outcome: UpdateOutcome)   // PackageUpdateError
    | Raised                            // any other Exception
    | Cancelled                         // CancelledError

  /** What one wake-up achieved on the way to its next await. */
  datatype Passed =
    | Nothing
    | PlanUnchanged
    | PlanUnchangedThenMutates
    | ConfirmedThenMutates(name: string)
    | GuestAnswered

  /** How one wake-up of the body ends: at a later await, or out of the guarded section. */
  datatype Turn =
    | Proceed(next: Attempt, passed: Passed)
    | Settle(record: UpdateRecord, passed: Passed)
    | Abort(record: UpdateRecord)
    | Observed(record: UpdateRecord, candidates: Option<seq<RemovablePackage>>)
    | Interrupted(record: UpdateRecord)

  // ----- plan equality and change counting

  function PlanTuple(packages: seq<PendingPackage>): seq<(string, string, string, string)> {
    seq(|packages|, i requires 0 <= i < |packages| =>
      (packages[i].name, packages[i].architecture, packages[i].installedVersion, packages[i].candidateVersion))
  }

  function CleanupTuple(packages: seq<RemovablePackage>): seq<(string, string, string)> {
    seq(|packages|, i requires 0 <= i < |packages| =>
      (packages[i].name, packages[i].architecture, packages[i].installedVersion))
  }

  predicate Changed(before: Inventory, after: Inventory, identity: (string, string)) {
    (identity in before) != (identity in after)
    || (identity in before && identity in after && before[identity] != after[identity])
  }

  function ChangedCount(before: Inventory, after: Inventory): nat {
    |set identity | identity in before.Keys + after.Keys && Changed(before, after, identity)|
  }

  /** Nothing is counted exactly when the two inventories are the same. */
  lemma NothingChanged(before: Inventory, after: Inventory)
    ensures ChangedCount(before, after) == 0 <==> before == after
    ensures ChangedCount(before, after) == ChangedCount(after, before)
  {
    var there := set identity | identity in before.Keys + after.Keys && Changed(before, after, identity);
    var back := set identity | identity in after.Keys + before.Keys && Changed(after, before, identity);
    assert there == back;
    if there == {} {
      forall identity | identity in before.Keys + after.Keys ensures !Changed(before, after, identity) {
        assert identity !in there;
      }
      assert before.Keys == after.Keys;
    }
  }

  /** The packages of one inventory that the other does not know. */
  function Extra(some: Inventory, other: Inventory): set<(string, string)> {
    set identity | identity in some && identity !in other
  }

  function Replaced(before: Inventory, after: Inventory): set<(string, string)> {
    set identity | identity in before && identity in after && before[identity] != after[identity]
  }

  lemma SizesAdd<T>(a: set<T>, b: set<T>, c: set<T>)
    requires a !! b && a + b !! c
    ensures |a + b + c| == |a| + |b| + |c|
  {
  }

  /** The count is of the packages that appeared, those that went away and those whose version is another one. */
  lemma ChangedExactly(before: Inventory, after: Inventory)
    ensures ChangedCount(before, after) == |Extra(after, before)| + |Extra(before, after)| + |Replaced(before, after)|
  {
    var added, removed, replaced := Extra(after, before), Extra(before, after), Replaced(before, after);
    SizesAdd(added, removed, replaced);
    var counted := set identity | identity in before.Keys + after.Keys && Changed(before, after, identity);
    forall identity ensures identity in counted <==> identity in added + removed + replaced {
    }
    assert counted == added + removed + replaced;
  }

  // ----- terminal records

  function Outcome(a: Attempt, status: UpdateStatus, outcome: UpdateOutcome, liveness: Option<bool>): UpdateRecord {
    UpdateRecord(status, a.id, Some(outcome), a.skip, false, false, false, None, liveness, a.changed)
  }

  function UpdateErrorRecord(a: Attempt, outcome: UpdateOutcome): UpdateRecord {
    var liveness := if outcome.GuestUnavailable? || outcome.LivenessFailed? then Some(false) else None;
    Outcome(a, Failed, outcome, liveness).(
      snapshotRetained := a.ready, snapshotName := if a.ready then a.name else None)
  }

  function SnapshotErrorRecord(a: Attempt, mayExist: bool): UpdateRecord {
    Outcome(a, Failed, SnapshotFailed, None).(
      changedCount := None, snapshotUncertain := mayExist, snapshotName := if mayExist then a.name else None)
  }

  /** Cancellation and unexpected exceptions report the same evidence. */
  function BrokenRecord(a: Attempt): UpdateRecord {
    var outcome :=
      if a.mutating then MutationUncertain
      else if a.kind.CleanupKind? || a.started then SnapshotFailed
      else PlanFailed;
    Outcome(a, Failed, outcome, None).(
      snapshotRetained := a.ready,
      snapshotUncertain := a.submitted && !a.ready,
      snapshotName := if a.ready || a.submitted then a.name else None)
  }

  function SuccessRecord(a: Attempt): UpdateRecord {
    Outcome(a, Succeeded, MutationSucceeded, Some(true))
  }

  function CleanupFailedRecord(a: Attempt): UpdateRecord {
    SuccessRecord(a).(snapshotRetained := true, snapshotCleanupFailed := true, snapshotName := a.name)
  }

  // ----- the body

  function PlanReply(reply: Reply): Option<Plan> {
    match reply
    case UpgradePlanned(packages) => Some(Upgrade(PlanTuple(packages)))
    case RemovalPlanned(removable) => Some(Removal(CleanupTuple(removable)))
    case _ => None
  }

  function Unexpected(a: Attempt, reply: Reply): Turn {
    if reply.Cancelled? then Abort(BrokenRecord(a)) else Settle(BrokenRecord(a), Nothing)
  }

  /** Both transport calls of the section turn a bounded failure into the attempt's outcome. */
  function TransportFault(a: Attempt, reply: Reply): Turn {
    if reply.Refused? then Settle(UpdateErrorRecord(a, reply.outcome), Nothing) else Unexpected(a, reply)
  }

  /** Outside cancellation, a SnapshotError while the snapshot is being created is the attempt's outcome. */
  function CreateFault(a: Attempt, reply: Reply, mayExist: bool): Turn {
    if reply.Cancelled? then Abort(BrokenRecord(a)) else Settle(SnapshotErrorRecord(a, mayExist), Nothing)
  }

  /** A SnapshotError while it is being removed leaves the mutation a success with a retained snapshot. */
  function RemoveFault(a: Attempt, reply: Reply): Turn {
    if reply.Cancelled? then Abort(BrokenRecord(a)) else Settle(CleanupFailedRecord(a), Nothing)
  }

  function OnSlot(a: Attempt, reply: Reply): Turn {
    if reply.Granted? then Proceed(a.(at := AwaitPlan), Nothing) else Unexpected(a, reply)
  }

  function OnPlan(a: Attempt, reply: Reply): Turn {
    var plan := PlanReply(reply);
    if plan.None? then TransportFault(a, reply)
    else if plan.value != a.plan then Settle(UpdateErrorRecord(a, PlanChanged), Nothing)
    else if a.skip then Proceed(a.(at := AwaitMutation, mutating := true), PlanUnchangedThenMutates)
    else Proceed(a.(at := AwaitListing, started := true), PlanUnchanged)
  }

  function OnListing(a: Attempt, reply: Reply, generated: string): Turn {
    if reply.Listed? && WellFormedListing(reply.rows) then
      Proceed(a.(at := AwaitPost(false), name := Some(generated)), Nothing)
    else CreateFault(a, reply, false)
  }

  function OnPost(a: Attempt, reply: Reply): Turn {
    if reply.Returned? && ValidUpid(reply.value) then Proceed(a.(at := AwaitStatus(Creating, 0)), Nothing)
    else CreateFault(a, reply, true)
  }

  function OnCreateStatus(a: Attempt, poll: nat, reply: Reply): Turn {
    if !reply.Status? then CreateFault(a, reply, true)
    else
      match ParseTaskStatus(reply.payload)
      case TaskSucceeded => Proceed(a.(at := AwaitConfirm), Nothing)
      case TaskFailed =>
        if TaskStopped(reply.payload) then Proceed(a.(at := AwaitRecheck), Nothing)
        else CreateFault(a, reply, true)
      case TaskRunning =>
        if poll + 1 < TASK_MAX_POLLS then Proceed(a.(at := AwaitPause(Creating, poll)), Nothing)
        else CreateFault(a, reply, true)
  }

  function OnRemoveStatus(a: Attempt, poll: nat, reply: Reply): Turn {
    if !reply.Status? then RemoveFault(a, reply)
    else
      match ParseTaskStatus(reply.payload)
      case TaskSucceeded => Proceed(a.(at := AwaitAbsence), Nothing)
      case TaskFailed => RemoveFault(a, reply)
      case TaskRunning =>
        if poll + 1 < TASK_MAX_POLLS then Proceed(a.(at := AwaitPause(Removing, poll)), Nothing)
        else RemoveFault(a, reply)
  }

  function OnPause(a: Attempt, phase: Phase, poll: nat, reply: Reply): Turn {
    if reply.Rested? then Proceed(a.(at := AwaitStatus(phase, poll + 1)), Nothing) else Unexpected(a, reply)
  }

  /** After a stopped creation task a listing without the name is the only proof that nothing was left behind. */
  function OnRecheck(a: Attempt, reply: Reply): Turn {
    var absent := reply.Listed? && a.name.Some? && SnapshotIsAbsent(reply.rows, a.name.value);
    CreateFault(a, reply, !absent)
  }

  function OnConfirm(a: Attempt, reply: Reply): Turn {
    if reply.Listed? && a.name.Some? && SnapshotIsComplete(reply.rows, a.name.value) then
      Proceed(a.(at := AwaitMutation, ready := true, mutating := true), ConfirmedThenMutates(a.name.value))
    else CreateFault(a, reply, true)
  }

  function OnMutation(a: Attempt, reply: Reply): Turn {
    if reply.Mutated? then
      Proceed(a.(at := AwaitNative, changed := Some(ChangedCount(reply.before, reply.after))), Nothing)
    else TransportFault(a, reply)
  }

  function OnNative(a: Attempt, reply: Reply): Turn {
    if reply.Cancelled? then Abort(BrokenRecord(a))
    else if reply.Status? && Get(reply.payload, "status") == Str("running") then
      Proceed(a.(at := AwaitPing(false)), Nothing)
    else Settle(UpdateErrorRecord(a, GuestUnavailable), Nothing)
  }

  function OnPing(a: Attempt, again: bool, reply: Reply): Turn {
    if reply.Pong? then
      if a.skip then Settle(SuccessRecord(a), GuestAnswered)
      else Proceed(a.(at := AwaitDelete(false)), GuestAnswered)
    else if !reply.Refused? then Unexpected(a, reply)
    else if again then Settle(UpdateErrorRecord(a, LivenessFailed), Nothing)
    else Proceed(a.(at := AwaitPingPause), Nothing)
  }

  function OnPingPause(a: Attempt, reply: Reply): Turn {
    if reply.Rested? then Proceed(a.(at := AwaitPing(true)), Nothing) else Unexpected(a, reply)
  }

  function OnDelete(a: Attempt, reply: Reply): Turn {
    if reply.Returned? && ValidUpid(reply.value) then Proceed(a.(at := AwaitStatus(Removing, 0)), Nothing)
    else RemoveFault(a, reply)
  }

  function OnAbsence(a: Attempt, reply: Reply): Turn {
    if reply.Listed? && a.name.Some? && SnapshotIsAbsent(reply.rows, a.name.value) then
      Settle(SuccessRecord(a), Nothing)
    else RemoveFault(a, reply)
  }

  function OnObservation(success: UpdateRecord, reply: Reply): Turn {
    match reply
    case RemovalPlanned(removable) => Observed(success, Some(removable))
    case Cancelled => Interrupted(success)
    case _ => Observed(success, None)
  }

  /**
   Resume the body with the reply of the operation it awaits. `generated` is the name generate_snapshot_name
   would return if the body asked for one now.
   */
  function Advance(a: Attempt, reply: Reply, generated: string): Turn {
    match a.at
    case AwaitSlot => OnSlot(a, reply)
    case AwaitPlan => OnPlan(a, reply)
    case AwaitListing => OnListing(a, reply, generated)
    case AwaitPost(_) => OnPost(a, reply)
    case AwaitStatus(phase, poll) =>
      if phase.Creating? then OnCreateStatus(a, poll, reply) else OnRemoveStatus(a, poll, reply)
    case AwaitPause(phase, poll) => OnPause(a, phase, poll, reply)
    case AwaitRecheck => OnRecheck(a, reply)
    case AwaitConfirm => OnConfirm(a, reply)
    case AwaitMutation => OnMutation(a, reply)
    case AwaitNative => OnNative(a, reply)
    case AwaitPing(again) => OnPing(a, again, reply)
    case AwaitPingPause => OnPingPause(a, reply)
    case AwaitDelete(_) => OnDelete(a, reply)
    case AwaitAbsence => OnAbsence(a, reply)
    case AwaitObservation(success, _) => OnObservation(success, reply)
  }

  // ----- what PVE may still do with the attempt's own snapshot

  /** `creating`: PVE may still bring the snapshot into being. `present`: the name exists on the guest now. */
  datatype Snapshot = Snapshot(name: string, posted: bool, creating: bool, present: bool)

  const NO_SNAPSHOT := Snapshot("", false, false, false)

  predicate MayExist(w: Snapshot) { w.present || w.creating }

  /** PVE works on its own: a creation under way may finish or give up, and anyone may remove the snapshot. */
  predicate WorldMove(w: Snapshot, w': Snapshot) {
    && w'.name == w.name && w'.posted == w.posted
    && (w'.present ==> MayExist(w))
    && (w'.creating ==> w.creating)
  }

  /**
   The answers PVE and the transport can give: a value is returned only by a call that was entered, a creation task
   whose status field says "stopped" no longer creates anything, and a listing that can be read has a row carrying
   the name of every snapshot that is present. Bounded failures are those the transport can classify the request as.
   */
  predicate Possible(a: Attempt, w: Snapshot, reply: Reply) {
    match a.at
    case AwaitPlan => reply.Refused? ==> PlanStage(reply.outcome)
    case AwaitMutation => reply.Refused? ==> MutationStage(reply.outcome)
    case AwaitPost(entered) => reply.Returned? ==> entered
    case AwaitDelete(entered) => reply.Returned? ==> entered
    case AwaitStatus(Creating, _) => reply.Status? && Says(reply.payload, "status", Str("stopped")) ==> !w.creating
    case AwaitRecheck => reply.Listed? && Readable(reply.rows) && w.present ==> Shows(reply.rows, w.name)
    case AwaitAbsence => reply.Listed? && Readable(reply.rows) && w.present ==> Shows(reply.rows, w.name)
    case _ => true
  }

  // ----- the invariant of one attempt

  predicate BeforeSnapshot(at: Position) { at.AwaitSlot? || at.AwaitPlan? || at.AwaitListing? }

  predicate CreatingSnapshot(at: Position) {
    || at.AwaitPost? || at.AwaitRecheck? || at.AwaitConfirm?
    || ((at.AwaitStatus? || at.AwaitPause?) && at.phase.Creating?)
  }

  predicate RemovingSnapshot(at: Position) {
    || at.AwaitDelete? || at.AwaitAbsence?
    || ((at.AwaitStatus? || at.AwaitPause?) && at.phase.Removing?)
  }

  /** A record tells the truth about a snapshot that exists or may still come into being. */
  predicate Accounts(record: UpdateRecord, w: Snapshot) {
    MayExist(w) ==>
      record.snapshotName == Some(w.name) && record.snapshotRetained != record.snapshotUncertain
  }

  predicate Untouched(a: Attempt) { !a.submitted && !a.ready && !a.mutating && a.changed.None? }

  predicate Underway(a: Attempt) { a.started && a.name.Some? && !a.ready && !a.mutating && a.changed.None? }

  predicate Guarded(a: Attempt) { a.mutating && (a.skip || a.ready) }

  /** What the locals are at each await. */
  predicate Stage(a: Attempt, w: Snapshot) {
    match a.at
    case AwaitSlot => !a.started && Untouched(a)
    case AwaitPlan => !a.started && Untouched(a)
    case AwaitListing => a.started && Untouched(a)
    case AwaitPost(posting) => Underway(a) && a.submitted == posting
    case AwaitStatus(phase, _) => if phase.Creating? then Underway(a) && a.submitted else Guarded(a) && !a.skip
    case AwaitPause(phase, _) => if phase.Creating? then Underway(a) && a.submitted else Guarded(a) && !a.skip
    case AwaitRecheck => Underway(a) && a.submitted && !w.creating
    case AwaitConfirm => Underway(a) && a.submitted && !w.creating
    case AwaitMutation => Guarded(a)
    case AwaitNative => Guarded(a)
    case AwaitPing(_) => Guarded(a)
    case AwaitPingPause => Guarded(a)
    case AwaitDelete(_) => Guarded(a) && !a.skip
    case AwaitAbsence => Guarded(a) && !a.skip
    case AwaitObservation(success, _) => Guarded(a) && success.status.Succeeded? && RecordFits(a, w, success)
  }

  predicate Consistent(a: Attempt, w: Snapshot) {
    && w.posted == a.submitted
    && (MayExist(w) ==> w.posted)
    && (a.submitted ==> a.name == Some(w.name))
    && (a.name.Some? ==> OwnSnapshotName(a.name.value))
    && (a.ready ==> a.submitted && !w.creating)
    && (a.skip ==> a.kind.UpdateKind? && !a.started && !a.submitted && !a.ready)
    && Stage(a, w)
  }

  /** The outcome never hides that the mutation was called, nor claims it when it was not. */
  predicate Sound(record: UpdateRecord, mutated: bool) {
    && record.outcome.Some?
    && (PromisesUntouched(record.outcome.value) ==> !mutated)
    && (AdmitsMutation(record.outcome.value) ==> mutated)
    && (record.status.Succeeded? <==> record.outcome.value.MutationSucceeded?)
    && (record.status.Succeeded? || record.status.Failed?)
  }

  /** The position a milestone may be passed at, and what it does to the mutation flag. */
  predicate PassedFits(a: Attempt, passed: Passed, mutating: bool) {
    match passed
    case Nothing => mutating == a.mutating
    case PlanUnchanged => a.at.AwaitPlan? && mutating == a.mutating
    case PlanUnchangedThenMutates => a.at.AwaitPlan? && a.skip && !a.mutating && mutating
    case ConfirmedThenMutates(name) => a.at.AwaitConfirm? && a.name == Some(name) && !a.mutating && mutating
    case GuestAnswered => a.at.AwaitPing? && mutating == a.mutating
  }

  predicate PlanPassed(at: Position) { !at.AwaitSlot? && !at.AwaitPlan? }

  /** An awaited executor job has not been entered yet. */
  predicate NotEntered(at: Position) { (at.AwaitPost? ==> !at.posting) && (at.AwaitDelete? ==> !at.deleting) }

  predicate ProceedFits(a: Attempt, w: Snapshot, next: Attempt, passed: Passed) {
    && Consistent(next, w)
    && next.kind == a.kind && next.id == a.id && next.skip == a.skip && next.plan == a.plan
    && next.submitted == a.submitted
    && !a.at.AwaitObservation? && !next.at.AwaitObservation? && !next.at.AwaitSlot? && NotEntered(next.at)
    && PassedFits(a, passed, next.mutating)
    && (PlanPassed(next.at) ==> PlanPassed(a.at) || passed.PlanUnchanged? || passed.PlanUnchangedThenMutates?)
    && (next.ready ==> a.ready || passed.ConfirmedThenMutates?)
    && (a.ready || passed.ConfirmedThenMutates? ==> next.ready && next.name == a.name)
    && (RemovingSnapshot(next.at) ==> RemovingSnapshot(a.at) || passed.GuestAnswered?)
    && Rank(next.at) < Rank(a.at)
  }

  predicate RecordFits(a: Attempt, w: Snapshot, record: UpdateRecord) {
    && Accounts(record, w)
    && Sound(record, a.mutating)
    && record.attempt == a.id
    && (record.snapshotRetained ==> a.ready && record.snapshotName == a.name)
  }

  predicate TurnFits(a: Attempt, w: Snapshot, turn: Turn) {
    match turn
    case Proceed(next, passed) => ProceedFits(a, w, next, passed)
    case Settle(record, passed) =>
      RecordFits(a, w, record) && !a.at.AwaitObservation? && PassedFits(a, passed, a.mutating)
    case Abort(record) => RecordFits(a, w, record) && !a.at.AwaitObservation? && record.status.Failed?
    case Observed(record, _) => a.at.AwaitObservation? && record == a.at.success
    case Interrupted(record) => a.at.AwaitObservation? && record == a.at.success
  }

  /** How many more wake-ups an attempt at this position can at most have before it leaves the section. */
  function Rank(at: Position): nat {
    match at
    case AwaitSlot => 1000
    case AwaitPlan => 999
    case AwaitListing => 998
    case AwaitPost(_) => 997
    case AwaitStatus(Creating, poll) => if poll < TASK_MAX_POLLS then 996 - 2 * poll else 400
    case AwaitPause(Creating, poll) => if poll < TASK_MAX_POLLS then 995 - 2 * poll else 401
    case AwaitRecheck => 399
    case AwaitConfirm => 399
    case AwaitMutation => 398
    case AwaitNative => 397
    case AwaitPing(false) => 396
    case AwaitPingPause => 395
    case AwaitPing(true) => 394
    case AwaitDelete(_) => 393
    case AwaitStatus(Removing, poll) => if poll < TASK_MAX_POLLS then 392 - 2 * poll else 2
    case AwaitPause(Removing, poll) => if poll < TASK_MAX_POLLS then 391 - 2 * poll else 3
    case AwaitAbsence => 1
    case AwaitObservation(_, _) => 0
  }

  // ----- every reply keeps an attempt consistent or ends it in a truthful record

  lemma BrokenFits(a: Attempt, w: Snapshot)
    requires Consistent(a, w)
    ensures RecordFits(a, w, BrokenRecord(a)) && BrokenRecord(a).status.Failed?
  {
  }

  lemma UpdateErrorFits(a: Attempt, w: Snapshot, outcome: UpdateOutcome)
    requires Consistent(a, w) && !CreatingSnapshot(a.at)
    requires if a.mutating then MutationStage(outcome) || outcome.LivenessFailed?
             else PlanStage(outcome) || outcome.PlanChanged?
    ensures RecordFits(a, w, UpdateErrorRecord(a, outcome))
  {
  }

  lemma SnapshotErrorFits(a: Attempt, w: Snapshot, mayExist: bool)
    requires Consistent(a, w) && !a.mutating && (MayExist(w) ==> mayExist)
    ensures RecordFits(a, w, SnapshotErrorRecord(a, mayExist))
  {
  }

  lemma SuccessFits(a: Attempt, w: Snapshot)
    requires Consistent(a, w) && a.mutating
    ensures !MayExist(w) ==> RecordFits(a, w, SuccessRecord(a))
    ensures a.ready ==> RecordFits(a, w, CleanupFailedRecord(a))
  {
  }

  lemma SlotFits(a: Attempt, w: Snapshot, reply: Reply)
    requires a.at.AwaitSlot? && Consistent(a, w) && Possible(a, w, reply)
    ensures TurnFits(a, w, OnSlot(a, reply))
  {
    BrokenFits(a, w);
  }

  lemma PlanFits(a: Attempt, w: Snapshot, reply: Reply)
    requires a.at.AwaitPlan? && Consistent(a, w) && Possible(a, w, reply)
    ensures TurnFits(a, w, OnPlan(a, reply))
  {
    BrokenFits(a, w);
    UpdateErrorFits(a, w, PlanChanged);
    if reply.Refused? {
      UpdateErrorFits(a, w, reply.outcome);
    }
  }

  lemma ListingFits(a: Attempt, w: Snapshot, reply: Reply, generated: string)
    requires a.at.AwaitListing? && Consistent(a, w) && Possible(a, w, reply) && OwnSnapshotName(generated)
    ensures TurnFits(a, w, OnListing(a, reply, generated))
  {
    BrokenFits(a, w);
    SnapshotErrorFits(a, w, false);
  }

  lemma PostFits(a: Attempt, w: Snapshot, reply: Reply)
    requires a.at.AwaitPost? && Consistent(a, w) && Possible(a, w, reply)
    ensures TurnFits(a, w, OnPost(a, reply))
  {
    BrokenFits(a, w);
    SnapshotErrorFits(a, w, true);
  }

  lemma CreateStatusFits(a: Attempt, w: Snapshot, reply: Reply)
    requires a.at.AwaitStatus? && a.at.phase.Creating? && Consistent(a, w) && Possible(a, w, reply)
    ensures TurnFits(a, w, OnCreateStatus(a, a.at.poll, reply))
  {
    BrokenFits(a, w);
    SnapshotErrorFits(a, w, true);
    if reply.Status? {
      StatusExactly(reply.payload);
    }
  }

  lemma RecheckFits(a: Attempt, w: Snapshot, reply: Reply)
    requires a.at.AwaitRecheck? && Consistent(a, w) && Possible(a, w, reply)
    ensures TurnFits(a, w, OnRecheck(a, reply))
  {
    hide SnapshotIsAbsent, Readable, Shows;
    BrokenFits(a, w);
    SnapshotErrorFits(a, w, true);
    if reply.Listed? {
      AbsentExactly(reply.rows, w.name);
      if SnapshotIsAbsent(reply.rows, w.name) {
        SnapshotErrorFits(a, w, false);
      }
    }
  }

  lemma ConfirmFits(a: Attempt, w: Snapshot, reply: Reply)
    requires a.at.AwaitConfirm? && Consistent(a, w) && Possible(a, w, reply)
    ensures TurnFits(a, w, OnConfirm(a, reply))
  {
    BrokenFits(a, w);
    SnapshotErrorFits(a, w, true);
  }

  lemma PauseFits(a: Attempt, w: Snapshot, reply: Reply)
    requires a.at.AwaitPause? && Consistent(a, w) && Possible(a, w, reply)
    ensures TurnFits(a, w, OnPause(a, a.at.phase, a.at.poll, reply))
  {
    BrokenFits(a, w);
  }

  lemma MutationFits(a: Attempt, w: Snapshot, reply: Reply)
    requires a.at.AwaitMutation? && Consistent(a, w) && Possible(a, w, reply)
    ensures TurnFits(a, w, OnMutation(a, reply))
  {
    BrokenFits(a, w);
    if reply.Refused? {
      UpdateErrorFits(a, w, reply.outcome);
    }
  }

  lemma NativeFits(a: Attempt, w: Snapshot, reply: Reply)
    requires a.at.AwaitNative? && Consistent(a, w) && Possible(a, w, reply)
    ensures TurnFits(a, w, OnNative(a, reply))
  {
    BrokenFits(a, w);
    UpdateErrorFits(a, w, GuestUnavailable);
  }

  lemma PingFits(a: Attempt, w: Snapshot, reply: Reply)
    requires a.at.AwaitPing? && Consistent(a, w) && Possible(a, w, reply)
    ensures TurnFits(a, w, OnPing(a, a.at.again, reply))
  {
    BrokenFits(a, w);
    SuccessFits(a, w);
    UpdateErrorFits(a, w, LivenessFailed);
  }

  lemma PingPauseFits(a: Attempt, w: Snapshot, reply: Reply)
    requires a.at.AwaitPingPause? && Consistent(a, w) && Possible(a, w, reply)
    ensures TurnFits(a, w, OnPingPause(a, reply))
  {
    BrokenFits(a, w);
  }

  lemma DeleteFits(a: Attempt, w: Snapshot, reply: Reply)
    requires a.at.AwaitDelete? && Consistent(a, w) && Possible(a, w, reply)
    ensures TurnFits(a, w, OnDelete(a, reply))
  {
    BrokenFits(a, w);
    SuccessFits(a, w);
  }

  lemma RemoveStatusFits(a: Attempt, w: Snapshot, reply: Reply)
    requires a.at.AwaitStatus? && a.at.phase.Removing? && Consistent(a, w) && Possible(a, w, reply)
    ensures TurnFits(a, w, OnRemoveStatus(a, a.at.poll, reply))
  {
    BrokenFits(a, w);
    SuccessFits(a, w);
  }

  lemma AbsenceFits(a: Attempt, w: Snapshot, reply: Reply)
    requires a.at.AwaitAbsence? && Consistent(a, w) && Possible(a, w, reply)
    ensures TurnFits(a, w, OnAbsence(a, reply))
  {
    hide SnapshotIsAbsent, Readable, Shows;
    BrokenFits(a, w);
    SuccessFits(a, w);
    if reply.Listed? {
      AbsentExactly(reply.rows, w.name);
    }
  }

  lemma EarlyFits(a: Attempt, w: Snapshot, reply: Reply, generated: string)
    requires BeforeSnapshot(a.at) || CreatingSnapshot(a.at)
    requires Consistent(a, w) && Possible(a, w, reply) && OwnSnapshotName(generated)
    ensures TurnFits(a, w, Advance(a, reply, generated))
  {
    match a.at
    case AwaitSlot => SlotFits(a, w, reply);
    case AwaitPlan => PlanFits(a, w, reply);
    case AwaitListing => ListingFits(a, w, reply, generated);
    case AwaitPost(_) => PostFits(a, w, reply);
    case AwaitStatus(_, _) => CreateStatusFits(a, w, reply);
    case AwaitPause(_, _) => PauseFits(a, w, reply);
    case AwaitRecheck => RecheckFits(a, w, reply);
    case AwaitConfirm => ConfirmFits(a, w, reply);
  }

  lemma LateFits(a: Attempt, w: Snapshot, reply: Reply, generated: string)
    requires !BeforeSnapshot(a.at) && !CreatingSnapshot(a.at)
    requires Consistent(a, w) && Possible(a, w, reply)
    ensures TurnFits(a, w, Advance(a, reply, generated))
  {
    match a.at
    case AwaitMutation => MutationFits(a, w, reply);
    case AwaitNative => NativeFits(a, w, reply);
    case AwaitPing(_) => PingFits(a, w, reply);
    case AwaitPingPause => PingPauseFits(a, w, reply);
    case AwaitDelete(_) => DeleteFits(a, w, reply);
    case AwaitStatus(_, _) => RemoveStatusFits(a, w, reply);
    case AwaitPause(_, _) => PauseFits(a, w, reply);
    case AwaitAbsence => AbsenceFits(a, w, reply);
    case AwaitObservation(_, _) =>
  }

  /** Whatever the awaited operation comes back with, the attempt stays consistent or ends in a truthful record. */
  lemma AdvanceFits(a: Attempt, w: Snapshot, reply: Reply, generated: string)
    requires Consistent(a, w) && Possible(a, w, reply) && OwnSnapshotName(generated)
    ensures TurnFits(a, w, Advance(a, reply, generated))
  {
    if BeforeSnapshot(a.at) || CreatingSnapshot(a.at) {
      EarlyFits(a, w, reply, generated);
    } else {
      LateFits(a, w, reply, generated);
    }
  }

  /** The ledger moving on its own never breaks a consistent attempt or the truth of a finished record. */
  lemma WorldMoveFits(a: Attempt, w: Snapshot, w': Snapshot)
    requires Consistent(a, w) && WorldMove(w, w')
    ensures Consistent(a, w')
  {
  }

  // ----- the same promise read off the listings alone

  /** The record names the attempt's snapshot as either retained or uncertain. */
  predicate Named(a: Attempt, record: UpdateRecord) {
    a.name.Some? && record.snapshotName == a.name && record.snapshotRetained != record.snapshotUncertain
  }

  /** This reply is a readable listing, taken after the attempt's last PVE task, without a row of its name. */
  predicate SeenAbsent(a: Attempt, reply: Reply) {
    (a.at.AwaitRecheck? || a.at.AwaitAbsence?) && a.name.Some? && reply.Listed?
    && Readable(reply.rows) && !Shows(reply.rows, a.name.value)
  }

  /** What a finished record says about the snapshot when it is, or is not, to be named. */
  predicate Claims(a: Attempt, record: UpdateRecord, named: bool) {
    && record.snapshotName == (if named then a.name else None)
    && (record.snapshotRetained <==> named && a.ready)
    && (record.snapshotUncertain <==> named && !a.ready)
    && (record.snapshotCleanupFailed <==> named && record.status.Succeeded?)
  }

  predicate ClaimsAtEnd(a: Attempt, reply: Reply, turn: Turn) {
    match turn
    case Settle(record, _) =>
      Claims(a, record, a.at == AwaitPost(false) || (a.submitted && !SeenAbsent(a, reply)))
    case Abort(record) => Claims(a, record, a.submitted)
    case _ => true
  }

  lemma EarlyClaims(a: Attempt, w: Snapshot, reply: Reply, generated: string)
    requires Consistent(a, w) && (BeforeSnapshot(a.at) || CreatingSnapshot(a.at))
    ensures ClaimsAtEnd(a, reply, Advance(a, reply, generated))
  {
    hide SnapshotIsAbsent, SnapshotIsComplete, ParseTaskStatus, ValidUpid, WellFormedListing, Readable, Shows;
    hide OwnSnapshotName, RecordFits;
    if reply.Listed? && a.name.Some? {
      AbsentExactly(reply.rows, a.name.value);
    }
    match a.at
    case AwaitSlot =>
    case AwaitPlan =>
    case AwaitListing =>
    case AwaitPost(_) =>
    case AwaitStatus(phase, _) =>
    case AwaitPause(_, _) =>
    case AwaitRecheck =>
    case AwaitConfirm =>
  }

  lemma LateClaims(a: Attempt, w: Snapshot, reply: Reply, generated: string)
    requires Consistent(a, w) && !BeforeSnapshot(a.at) && !CreatingSnapshot(a.at)
    ensures ClaimsAtEnd(a, reply, Advance(a, reply, generated))
  {
    hide SnapshotIsAbsent, SnapshotIsComplete, ParseTaskStatus, ValidUpid, WellFormedListing, Readable, Shows;
    hide OwnSnapshotName, RecordFits;
    if reply.Listed? && a.name.Some? {
      AbsentExactly(reply.rows, a.name.value);
    }
    match a.at
    case AwaitMutation =>
    case AwaitNative =>
    case AwaitPing(_) =>
    case AwaitPingPause =>
    case AwaitDelete(_) =>
    case AwaitStatus(_, _) =>
    case AwaitPause(_, _) =>
    case AwaitAbsence =>
    case AwaitObservation(_, _) =>
  }

  /**
   An ending record names the attempt's snapshot exactly when its creation may have reached PVE and no readable
   listing taken afterwards was without it: retained if it had been confirmed, uncertain otherwise.
   */
  lemma ClaimsExactly(a: Attempt, w: Snapshot, reply: Reply, generated: string)
    requires Consistent(a, w)
    ensures ClaimsAtEnd(a, reply, Advance(a, reply, generated))
  {
    hide Consistent, ClaimsAtEnd, Advance;
    if BeforeSnapshot(a.at) || CreatingSnapshot(a.at) {
      EarlyClaims(a, w, reply, generated);
    } else {
      LateClaims(a, w, reply, generated);
    }
  }

  predicate NamedAtEnd(a: Attempt, reply: Reply, turn: Turn) {
    match turn
    case Settle(record, _) => Named(a, record) <==> !SeenAbsent(a, reply)
    case Abort(record) => Named(a, record)
    case _ => true
  }

  /**
   Once the creation was submitted, an attempt can end without naming its snapshot in one way only: with a
   listing that shows it gone. This asks nothing of what PVE answers.
   */
  lemma NamedUnlessSeenAbsent(a: Attempt, w: Snapshot, reply: Reply, generated: string)
    requires Consistent(a, w) && a.submitted && !a.at.AwaitObservation?
    ensures NamedAtEnd(a, reply, Advance(a, reply, generated))
  {
    hide Advance, SeenAbsent, Stage;
    ClaimsExactly(a, w, reply, generated);
    assert a.at != AwaitPost(false) by {
      SubmittedPost(a, w);
    }
  }

  lemma SubmittedPost(a: Attempt, w: Snapshot)
    requires Consistent(a, w) && a.submitted
    ensures a.at != AwaitPost(false)
  {
  }
}
