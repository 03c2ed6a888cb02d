/**
 The package manager's dictionaries as one value, and what each of its synchronous callbacks makes of them
 (packages/manager.py). A callback runs between two awaits, so each function here is one atomic step.
 */
module ManagerState {
  import opened Models
  import opened NativeSnapshots
  import opened Attempts
  import opened History

  datatype ScanPosition =
    | ScanSlot
    | ScanHelper
    | ScanCleanup(packages: seq<PendingPackage>, begun: nat)

  datatype RestoreStage =
    | Validating
    | Submitting(entered: bool)
    | Watching

  /** One background task that has not finished yet. */
  datatype Job =
    | ScanJob(key: Key, cancelled: bool, position: ScanPosition)
    | MutationJob(key: Key, cancelled: bool, attempt: Attempt)
    | HealthJob(key: Key, cancelled: bool, source: HealthSource)
    | RestoreJob(key: Key, cancelled: bool, stage: RestoreStage)

  type Jobs = map<nat, Job>

  /** The dictionaries that hold what is known about each target. */
  datatype Books = Books(
    records: map<Key, ScanRecord>,
    updates: map<Key, UpdateRecord>,
    cleanups: map<Key, UpdateRecord>,
    evidence: map<Key, CleanupEvidence>,
    fenced: set<Key>,
    viewed: map<Key, nat>,
    health: map<Key, HealthRecord>,
    reserved: set<Key>)

  /** The dictionaries that hold the running task of each target. */
  datatype Tasks = Tasks(
    scans: map<Key, nat>, updates: map<Key, nat>, cleanups: map<Key, nat>, health: map<Key, nat>)

  /** One Easy Update continuation; its wake event is set exactly when `version` has moved past `seen`. */
  datatype Follower = Follower(key: Key, attempt: nat, parked: bool, seen: nat)

  /** The coordinator facts the continuation and the buttons read. */
  datatype Coordinator = Coordinator(lastUpdateSuccess: bool, running: set<Key>, snapshotGranted: set<int>)

  /** What has happened, which no callback ever reads. */
  datatype Past = Past(
    log: Log,
    snapshots: map<nat, Snapshot>,
    reports: map<nat, UpdateRecord>,
    grants: map<nat, Event>,
    owners: map<Key, nat>)

  /** `version` counts the state-change notifications sent so far. */
  datatype State = State(
    configured: bool,
    coordinator: Coordinator,
    supply: nat,
    version: nat,
    books: Books,
    tasks: Tasks,
    jobs: Jobs,
    scanSlots: set<nat>,
    updateSlot: set<nat>,
    followers: map<nat, Follower>,
    past: Past)

  const MAX_GLOBAL_SCANS := 2

  const EMPTY_BOOKS := Books(map[], map[], map[], map[], {}, map[], map[], {})

  function Fresh(configured: bool, coordinator: Coordinator): State {
    State(configured, coordinator, 0, 0, EMPTY_BOOKS, Tasks(map[], map[], map[], map[]), map[], {}, {}, map[],
          Past([], map[], map[], map[], map[]))
  }

  // ----- who is busy on a VMID, under any node key

  predicate ReservedAt(reserved: set<Key>, vmid: int) { exists k | k in reserved :: k.vmid == vmid }

  predicate ScanRunningAt(records: map<Key, ScanRecord>, vmid: int) {
    exists k | k in records :: k.vmid == vmid && records[k].ScanRunning?
  }

  predicate MutationRunningAt(records: map<Key, UpdateRecord>, vmid: int) {
    exists k | k in records :: k.vmid == vmid && records[k].status.Running?
  }

  predicate HealthRunningAt(records: map<Key, HealthRecord>, vmid: int) {
    exists k | k in records :: k.vmid == vmid && records[k].HealthRunning?
  }

  predicate PackageWorkAt(b: Books, vmid: int) {
    ScanRunningAt(b.records, vmid) || MutationRunningAt(b.updates, vmid) || MutationRunningAt(b.cleanups, vmid)
  }

  /** Scan, Update, Autoremove and Health all start on this test. */
  predicate BusyAt(b: Books, vmid: int) {
    ReservedAt(b.reserved, vmid) || PackageWorkAt(b, vmid) || HealthRunningAt(b.health, vmid)
  }

  predicate RestoreBlocked(b: Books, vmid: int) { ReservedAt(b.reserved, vmid) || PackageWorkAt(b, vmid) }

  /** The record of the finishing attempt itself still reads RUNNING here and is no conflict. */
  predicate HealthClaimBlocked(b: Books, vmid: int) {
    ReservedAt(b.reserved, vmid) || ScanRunningAt(b.records, vmid) || HealthRunningAt(b.health, vmid)
  }

  // ----- small shared steps

  function Append(past: Past, e: Event): Past { past.(log := past.log + [e]) }

  function One(changed: bool): nat { if changed then 1 else 0 }

  function CancelJobs(jobs: Jobs, ids: set<nat>): (r: Jobs)
    ensures r.Keys == jobs.Keys
    ensures forall id | id in jobs :: r[id] == if id in ids then jobs[id].(cancelled := true) else jobs[id]
  {
    map id | id in jobs :: if id in ids then jobs[id].(cancelled := true) else jobs[id]
  }

  function TaskOf(tasks: map<Key, nat>, key: Key): set<nat> { if key in tasks then {tasks[key]} else {} }

  function TasksOf(tasks: map<Key, nat>, keys: set<Key>): set<nat> {
    set k | k in keys && k in tasks :: tasks[k]
  }

  // ----- Scan

  function ScanRefusal(s: State, key: Key, targetIsRunning: bool): Option<ScanFailure> {
    if !s.configured then Some(ExecutionFailed)
    else if !targetIsRunning then Some(ScanGuestUnavailable)
    else if BusyAt(s.books, key.vmid) then Some(ScanManagerBusy)
    else None
  }

  function ScanBooks(b: Books, key: Key, id: nat): Books {
    b.(fenced := b.fenced - {key},
       viewed := b.viewed - {key},
       evidence := b.evidence - {key},
       records := b.records[key := ScanRunning(id)])
  }

  function AcceptScan(s: State, key: Key): State {
    s.(supply := s.supply + 1,
       version := s.version + One(key in s.books.evidence) + 1,
       books := ScanBooks(s.books, key, s.supply),
       tasks := s.tasks.(scans := s.tasks.scans[key := s.supply]),
       jobs := s.jobs[s.supply := ScanJob(key, false, ScanSlot)],
       past := Append(s.past, ScanAccepted(s.supply, key)))
  }

  function StartScan(s: State, key: Key, targetIsRunning: bool): State {
    if ScanRefusal(s, key, targetIsRunning).None? then AcceptScan(s, key) else s
  }

  predicate OwnsScan(b: Books, key: Key, id: nat) { key in b.records && b.records[key] == ScanRunning(id) }

  function FinishScan(s: State, key: Key, id: nat, outcome: ScanRecord): State {
    if !OwnsScan(s.books, key, id) then s
    else
      s.(version := s.version + 1,
         books := s.books.(records := s.books.records[key := outcome]),
         tasks := s.tasks.(scans := s.tasks.scans - {key}))
  }

  /** Behind a fence, without a plan, or with a plan that was not presented there is nothing to act on. */
  predicate Forgets(b: Books, key: Key, observed: Option<seq<RemovablePackage>>, presented: bool) {
    key in b.fenced || observed.None? || (observed.value != [] && !presented)
  }

  /**
   Present first, then make a non-empty plan actionable. `presented` is whether the presentation callback
   returned normally, `begun` where in the history the observation was requested.
   */
  function PublishCleanup(s: State, key: Key, observed: Option<seq<RemovablePackage>>, begun: nat, presented: bool): State {
    if Forgets(s.books, key, observed, presented) then
      s.(books := s.books.(evidence := s.books.evidence - {key}))
    else
      s.(supply := s.supply + 1,
         version := s.version + 1,
         books := s.books.(evidence := s.books.evidence[key := CleanupEvidence(observed.value, s.supply, begun)]))
  }

  // ----- Review

  predicate Reviewable(b: Books, key: Key, token: nat) {
    && key in b.records && b.records[key].ScanSuccess?
    && b.records[key].token == token && b.records[key].packages != []
  }

  function ReviewBooks(b: Books, key: Key): Books
    requires key in b.records && b.records[key].ScanSuccess?
  {
    b.(records := b.records[key := b.records[key].(reviewed := true)], viewed := b.viewed - {key})
  }

  function ConfirmReview(s: State, key: Key, token: nat): State {
    if !Reviewable(s.books, key, token) then s
    else
      s.(version := s.version + 1,
         books := ReviewBooks(s.books, key),
         past := Append(s.past, ReviewConfirmed(key, token)))
  }

  function MarkViewed(s: State, key: Key, token: nat): State {
    if !Reviewable(s.books, key, token) then s
    else s.(version := s.version + 1, books := s.books.(viewed := s.books.viewed[key := token]))
  }

  function ConfirmViewed(s: State, key: Key): State {
    if key in s.books.viewed then ConfirmReview(s, key, s.books.viewed[key]) else s
  }

  // ----- Update and Autoremove

  function MutationRefusal(s: State, vmid: int, targetIsRunning: bool, permitted: bool): Option<UpdateOutcome> {
    if !s.configured then Some(HelperOutdated)
    else if !targetIsRunning then Some(GuestUnavailable)
    else if !permitted then Some(SnapshotFailed)
    else if BusyAt(s.books, vmid) then Some(PackageManagerBusy)
    else None
  }

  predicate ReviewedPlan(b: Books, key: Key) {
    key in b.records && b.records[key].ScanSuccess? && b.records[key].packages != [] && b.records[key].reviewed
  }

  function UpdateRefusal(s: State, key: Key, targetIsRunning: bool, permission: bool, skip: bool): Option<UpdateOutcome> {
    var refusal := MutationRefusal(s, key.vmid, targetIsRunning, skip || permission);
    if refusal.Some? then refusal else if ReviewedPlan(s.books, key) then None else Some(PlanFailed)
  }

  function UpdateBooks(b: Books, key: Key, id: nat, skip: bool): Books {
    b.(viewed := b.viewed - {key},
       evidence := b.evidence - {key},
       health := b.health - {key},
       records := b.records[key := ScanNever],
       updates := b.updates[key := RunningRecord(id, skip)])
  }

  function Admit(past: Past, id: nat, grant: Event): Past {
    past.(log := past.log + [grant], grants := past.grants[id := grant], snapshots := past.snapshots[id := NO_SNAPSHOT])
  }

  function AcceptUpdate(s: State, key: Key, skip: bool): State
    requires ReviewedPlan(s.books, key)
  {
    var reviewed := s.books.records[key];
    var attempt := Begin(UpdateKind, s.supply, skip, Upgrade(PlanTuple(reviewed.packages)));
    s.(supply := s.supply + 1,
       version := s.version + One(key in s.books.evidence) + 2,
       books := UpdateBooks(s.books, key, s.supply, skip),
       tasks := s.tasks.(health := s.tasks.health - {key}, updates := s.tasks.updates[key := s.supply]),
       jobs := CancelJobs(s.jobs, TaskOf(s.tasks.health, key))[s.supply := MutationJob(key, false, attempt)],
       past := Admit(s.past, s.supply, UpdateAccepted(s.supply, key, reviewed.token, reviewed.packages, skip)))
  }

  function StartUpdate(s: State, key: Key, targetIsRunning: bool, permission: bool, skip: bool): State {
    if UpdateRefusal(s, key, targetIsRunning, permission, skip).None? then AcceptUpdate(s, key, skip) else s
  }

  predicate ShownPlan(b: Books, key: Key) { key in b.evidence && b.evidence[key].candidates != [] }

  function AutoremoveRefusal(s: State, key: Key, targetIsRunning: bool, permission: bool): Option<UpdateOutcome> {
    var refusal := MutationRefusal(s, key.vmid, targetIsRunning, permission);
    if refusal.Some? then refusal else if ShownPlan(s.books, key) then None else Some(PlanFailed)
  }

  function CleanupBooks(b: Books, key: Key, id: nat): Books {
    b.(evidence := b.evidence - {key},
       health := b.health - {key},
       cleanups := b.cleanups[key := RunningRecord(id, false)])
  }

  function AcceptAutoremove(s: State, key: Key): State
    requires ShownPlan(s.books, key)
  {
    var shown := s.books.evidence[key];
    var attempt := Begin(CleanupKind, s.supply, false, Removal(CleanupTuple(shown.candidates)));
    s.(supply := s.supply + 1,
       version := s.version + 2,
       books := CleanupBooks(s.books, key, s.supply),
       tasks := s.tasks.(health := s.tasks.health - {key}, cleanups := s.tasks.cleanups[key := s.supply]),
       jobs := CancelJobs(s.jobs, TaskOf(s.tasks.health, key))[s.supply := MutationJob(key, false, attempt)],
       past := Admit(s.past, s.supply, CleanupAccepted(s.supply, key, shown)))
  }

  function StartAutoremove(s: State, key: Key, targetIsRunning: bool, permission: bool): State {
    if AutoremoveRefusal(s, key, targetIsRunning, permission).None? then AcceptAutoremove(s, key) else s
  }

  function MutationRecords(b: Books, kind: MutationKind): map<Key, UpdateRecord> {
    if kind.UpdateKind? then b.updates else b.cleanups
  }

  function MutationTasks(t: Tasks, kind: MutationKind): map<Key, nat> {
    if kind.UpdateKind? then t.updates else t.cleanups
  }

  /** The stored record is still the very one this attempt started with. */
  predicate OwnsMutation(b: Books, kind: MutationKind, key: Key, id: nat) {
    var records := MutationRecords(b, kind);
    key in records && records[key].status.Running? && records[key].attempt == id
  }

  function ForgetTask(t: Tasks, kind: MutationKind, key: Key): Tasks {
    if kind.UpdateKind? then t.(updates := t.updates - {key}) else t.(cleanups := t.cleanups - {key})
  }

  function PutMutation(b: Books, kind: MutationKind, key: Key, record: UpdateRecord): Books {
    if kind.UpdateKind? then b.(updates := b.updates[key := record]) else b.(cleanups := b.cleanups[key := record])
  }

  function SetMutationRecord(s: State, kind: MutationKind, key: Key, record: UpdateRecord): State {
    s.(version := s.version + 1, books := PutMutation(s.books, kind, key, record))
  }

  function ReportedPast(past: Past, id: nat, record: UpdateRecord): Past {
    past.(log := past.log + [AttemptReported(id)], reports := past.reports[id := record])
  }

  /** The completion callback runs exactly here. */
  function Report(s: State, id: nat, record: UpdateRecord): State { s.(past := ReportedPast(s.past, id, record)) }

  // ----- Health

  function ClaimHealth(s: State, key: Key, source: HealthSource): State {
    s.(supply := s.supply + 1,
       version := s.version + 1,
       books := s.books.(health := s.books.health[key := HealthRunning(s.supply, source)]),
       past := Append(s.past, HealthAccepted(s.supply, key)))
  }

  predicate OwnsHealth(b: Books, key: Key, id: nat) {
    key in b.health && b.health[key].HealthRunning? && b.health[key].attempt == id
  }

  /** `created` is whether the background task could be created; if not, only the claim is taken back. */
  function LaunchHealth(s: State, key: Key, id: nat, source: HealthSource, created: bool): State {
    if !OwnsHealth(s.books, key, id) then s
    else if created then
      s.(jobs := s.jobs[id := HealthJob(key, false, source)],
         tasks := s.tasks.(health := s.tasks.health[key := id]))
    else
      s.(version := s.version + 1, books := s.books.(health := s.books.health - {key}))
  }

  function StartHealth(s: State, key: Key, targetIsRunning: bool, created: bool): State {
    if ScanRefusal(s, key, targetIsRunning).Some? then s
    else LaunchHealth(ClaimHealth(s, key, FromButton), key, s.supply, FromButton, created)
  }

  function FinishHealth(s: State, key: Key, id: nat, outcome: HealthOutcome): State {
    if !OwnsHealth(s.books, key, id) then s
    else
      var completed := HealthCompleted(s.supply, s.books.health[key].source, outcome);
      s.(supply := s.supply + 1,
         version := s.version + 1,
         books := s.books.(health := s.books.health[key := completed]),
         tasks := s.tasks.(health := s.tasks.health - {key}))
  }

  // ----- Restore

  function BeginRestore(s: State, key: Key): State {
    if RestoreBlocked(s.books, key.vmid) then s
    else s.(version := s.version + 1, books := s.books.(reserved := s.books.reserved + {key}))
  }

  function EndRestore(s: State, key: Key): State {
    if key !in s.books.reserved then s
    else s.(version := s.version + 1, books := s.books.(reserved := s.books.reserved - {key}))
  }

  /** Accept one LXC Restore; a task that cannot be created gives the reservation back at once. */
  function PressRestore(s: State, key: Key, created: bool): State {
    if RestoreBlocked(s.books, key.vmid) then s
    else if !created then EndRestore(BeginRestore(s, key), key)
    else
      s.(supply := s.supply + 1,
         version := s.version + 1,
         books := s.books.(reserved := s.books.reserved + {key}),
         jobs := s.jobs[s.supply := RestoreJob(key, false, Validating)],
         past := s.past.(log := s.past.log + [RestoreAccepted(s.supply, key)], owners := s.past.owners[key := s.supply]))
  }

  function DiscardBooks(b: Books, key: Key): Books {
    b.(fenced := b.fenced + {key},
       records := b.records - {key},
       viewed := b.viewed - {key},
       evidence := b.evidence - {key},
       health := b.health - {key})
  }

  function InvalidateRestoreTarget(s: State, key: Key): State {
    s.(version := s.version + 1,
       books := DiscardBooks(s.books, key),
       tasks := s.tasks.(health := s.tasks.health - {key}),
       jobs := CancelJobs(s.jobs, TaskOf(s.tasks.health, key)),
       past := Append(s.past, TruthDiscarded(key)))
  }

  // ----- targets that vanished or stopped

  function PruneTargets(b: Books, current: set<Key>): set<Key> {
    (b.records.Keys + b.updates.Keys + b.evidence.Keys + b.fenced + b.cleanups.Keys + b.health.Keys) - current
  }

  function PruneBooks(b: Books, stale: set<Key>): Books {
    Books(b.records - stale, b.updates - stale, b.cleanups - stale, b.evidence - stale, b.fenced - stale,
          b.viewed - stale, b.health - stale, b.reserved)
  }

  function PruneTasks(t: Tasks, stale: set<Key>): Tasks {
    Tasks(t.scans - stale, t.updates - stale, t.cleanups - stale, t.health - stale)
  }

  function PrunedIds(t: Tasks, stale: set<Key>): set<nat> {
    TasksOf(t.scans, stale) + TasksOf(t.updates, stale) + TasksOf(t.cleanups, stale) + TasksOf(t.health, stale)
  }

  function Prune(s: State, current: set<Key>): State {
    var stale := PruneTargets(s.books, current);
    s.(version := s.version + One(stale != {}),
       books := PruneBooks(s.books, stale),
       tasks := PruneTasks(s.tasks, stale),
       jobs := CancelJobs(s.jobs, PrunedIds(s.tasks, stale)),
       past := Append(s.past, TargetsPruned(current)))
  }

  function StoppedTargets(b: Books, t: Tasks, running: set<Key>): set<Key> {
    (b.records.Keys + t.scans.Keys + t.updates.Keys + b.evidence.Keys + t.cleanups.Keys + b.viewed.Keys + b.health.Keys)
    - running
  }

  /** Whether a stopped target held anything whose loss the entities must show. */
  predicate HadEvidence(b: Books, t: Tasks, key: Key) {
    key in b.records || key in b.viewed || key in b.evidence || key in b.health || key in t.health || key in t.scans
  }

  function StopBooks(b: Books, stale: set<Key>): Books {
    b.(fenced := b.fenced + stale,
       records := b.records - stale,
       viewed := b.viewed - stale,
       evidence := b.evidence - stale,
       health := b.health - stale)
  }

  function InvalidateNonRunning(s: State, running: set<Key>): State {
    var stale := StoppedTargets(s.books, s.tasks, running);
    s.(version := s.version + One(exists k | k in stale :: HadEvidence(s.books, s.tasks, k)),
       books := StopBooks(s.books, stale),
       tasks := s.tasks.(scans := s.tasks.scans - stale, health := s.tasks.health - stale),
       jobs := CancelJobs(s.jobs, TasksOf(s.tasks.scans, stale) + TasksOf(s.tasks.health, stale)),
       past := Append(s.past, TargetsObserved(running)))
  }
}
