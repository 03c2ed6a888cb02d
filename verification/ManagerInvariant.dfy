/**
 What holds of a package manager at every point of every run. A hole names the one attempt that is being
 finished at that very moment, whose record and report are about to be written.
 */
module ManagerInvariant {
  import opened Models
  import opened Attempts
  import opened History
  import opened ManagerState
  import opened ManagerMachine

  datatype Hole =
    | NoHole
    | ScanEnding(key: Key)
    | Ending(kind: MutationKind, key: Key, id: nat)
    | Unreported(id: nat)

  predicate ExemptKey(h: Hole, key: Key) { (h.ScanEnding? || h.Ending?) && h.key == key }

  predicate ExemptId(h: Hole, id: nat) { (h.Ending? || h.Unreported?) && h.id == id }

  // ----- exclusion

  datatype Owner = ScanOwner | UpdateOwner | CleanupOwner | RestoreOwner | HealthOwner

  function OwnerOf(kind: MutationKind): Owner { if kind.UpdateKind? then UpdateOwner else CleanupOwner }

  predicate Busy(b: Books, o: Owner, k: Key) {
    match o
    case ScanOwner => k in b.records && b.records[k].ScanRunning?
    case UpdateOwner => k in b.updates && b.updates[k].status.Running?
    case CleanupOwner => k in b.cleanups && b.cleanups[k].status.Running?
    case RestoreOwner => k in b.reserved
    case HealthOwner => k in b.health && b.health[k].HealthRunning?
  }

  /** Scan, Update, Autoremove and Restore exclude each other on a VMID, whatever node its keys carry. */
  ghost predicate WorkExclusive(b: Books) {
    forall o1, k1: Key, o2, k2: Key | Busy(b, o1, k1) && Busy(b, o2, k2) && k1.vmid == k2.vmid
      && o1 != HealthOwner && o2 != HealthOwner ::
      o1 == o2 && k1 == k2
  }

  /** A finishing attempt claims Health on its own key before its record stops reading RUNNING. */
  predicate ClaimedBy(h: Hole, o: Owner, k: Key) { h.Ending? && o == OwnerOf(h.kind) && k == h.key }

  /** Health excludes everything but Restore, which deliberately does not look at it. */
  ghost predicate HealthExclusive(b: Books, h: Hole) {
    forall k1: Key, o2, k2: Key | Busy(b, HealthOwner, k1) && Busy(b, o2, k2) && k1.vmid == k2.vmid
      && o2 != RestoreOwner ::
      (o2 == HealthOwner && k1 == k2) || (ClaimedBy(h, o2, k2) && k1 == k2)
  }

  ghost predicate Exclusive(b: Books, h: Hole) { WorkExclusive(b) && HealthExclusive(b, h) }

  // ----- every live task either owns its record or has been told to stop

  predicate Tied(job: Job, id: nat, t: Tasks, b: Books, owners: map<Key, nat>) {
    match job
    case ScanJob(key, cancelled, _) =>
      cancelled || (OwnsScan(b, key, id) && key in t.scans && t.scans[key] == id)
    case MutationJob(key, cancelled, a) =>
      && a.id == id
      && (cancelled ||
        (OwnsMutation(b, a.kind, key, id) && key in MutationTasks(t, a.kind) && MutationTasks(t, a.kind)[key] == id))
    case HealthJob(key, cancelled, _) =>
      cancelled || (OwnsHealth(b, key, id) && key in t.health && t.health[key] == id)
    case RestoreJob(key, _, _) =>
      key in b.reserved && key in owners && owners[key] == id
  }

  ghost predicate Tethered(jobs: Jobs, t: Tasks, b: Books, owners: map<Key, nat>) {
    forall id | id in jobs :: Tied(jobs[id], id, t, b, owners)
  }

  ghost predicate EndingOwned(jobs: Jobs, b: Books, h: Hole) {
    && (h.Ending? ==> OwnsMutation(b, h.kind, h.key, h.id) && h.id !in jobs)
    && (h.ScanEnding? ==> Busy(b, ScanOwner, h.key))
  }

  // ----- evidence and reviews

  ghost predicate FenceHolds(b: Books) { forall k | k in b.fenced :: k !in b.evidence }

  predicate RunsPackageWork(b: Books, k: Key) {
    Busy(b, ScanOwner, k) || Busy(b, UpdateOwner, k) || Busy(b, CleanupOwner, k)
  }

  ghost predicate NoEvidenceWhileRunning(b: Books, h: Hole) {
    forall k | k in b.evidence :: RunsPackageWork(b, k) ==> ExemptKey(h, k)
  }

  ghost predicate ViewedIsCurrent(b: Books) {
    forall k | k in b.viewed :: Reviewable(b, k, b.viewed[k])
  }

  ghost predicate BooksOk(b: Books, h: Hole) {
    Exclusive(b, h) && FenceHolds(b) && NoEvidenceWhileRunning(b, h) && ViewedIsCurrent(b)
  }

  // ----- sections

  predicate InScanSection(job: Job) { job.ScanJob? && !job.position.ScanSlot? }

  predicate InMutationSection(job: Job) {
    job.MutationJob? && !job.attempt.at.AwaitSlot? && !job.attempt.at.AwaitObservation?
  }

  ghost predicate SectionsBounded(jobs: Jobs, scanSlots: set<nat>, updateSlot: set<nat>) {
    && (forall id :: id in scanSlots <==> id in jobs && InScanSection(jobs[id]))
    && (forall id :: id in updateSlot <==> id in jobs && InMutationSection(jobs[id]))
    && |scanSlots| <= MAX_GLOBAL_SCANS && |updateSlot| <= 1
  }

  // ----- identities, ledger and reports

  predicate Dated(e: Event, supply: nat) {
    match e
    case ScanAccepted(id, _) => id < supply
    case ScanPublished(_, token, _) => token < supply
    case ReviewConfirmed(_, token) => token < supply
    case UpdateAccepted(id, _, token, _, _) => id < supply && token < supply
    case CleanupAccepted(id, _, evidence) => id < supply && evidence.observedAt < supply
    case HealthAccepted(id, _) => id < supply
    case RestoreAccepted(id, _) => id < supply
    case PlanMatched(id, _) => id < supply
    case PostSubmitted(id, _) => id < supply
    case SnapshotReady(id, _) => id < supply
    case MutationRequested(id) => id < supply
    case GuestAlive(id) => id < supply
    case DeleteSubmitted(id, _) => id < supply
    case AttemptReported(id) => id < supply
    case RollbackSubmitted(id, _) => id < supply
    case RestoreFinished(id, _, _) => id < supply
    case AutoremoveFollowed(follower, update, cleanup) => follower < supply && update < supply && cleanup < supply
    case TargetsPruned(_) => true
    case TargetsObserved(_) => true
    case TruthDiscarded(_) => true
  }

  ghost predicate LogDated(log: Log, supply: nat) { forall e | e in log :: Dated(e, supply) }

  ghost predicate Supplied(supply: nat, jobs: Jobs, followers: map<nat, Follower>, b: Books, past: Past) {
    && LogDated(past.log, supply)
    && (forall id | id in jobs :: id < supply)
    && (forall id | id in past.grants :: id < supply && id in past.snapshots)
    && (forall id | id in followers :: id < supply)
    && (forall k | k in b.evidence :: b.evidence[k].observedAt < supply)
    && (forall k | k in b.records :: b.records[k].ScanSuccess? ==> b.records[k].token < supply)
    && (forall k | k in b.updates :: b.updates[k].attempt < supply)
    && (forall k | k in b.cleanups :: b.cleanups[k].attempt < supply)
  }

  /** The accepting event of one attempt, as the manager granted it. */
  predicate Grants(grant: Event, id: nat, key: Key, a: Attempt) {
    match grant
    case UpdateAccepted(granted, target, _, packages, skip) =>
      granted == id && target == key && a.kind.UpdateKind? && a.plan == Upgrade(PlanTuple(packages)) && a.skip == skip
    case CleanupAccepted(granted, target, evidence) =>
      granted == id && target == key && a.kind.CleanupKind? && a.plan == Removal(CleanupTuple(evidence.candidates))
      && !a.skip
    case _ => false
  }

  /** What the history must already contain for an attempt to be where it is. */
  predicate Evidenced(log: Log, a: Attempt) {
    && (PlanPassed(a.at) ==> PlanMatched(a.id, a.plan) in log)
    && (a.submitted ==> a.name.Some? && PostSubmitted(a.id, a.name.value) in log)
    && (a.ready ==> a.name.Some? && SnapshotReady(a.id, a.name.value) in log)
    && (RemovingSnapshot(a.at) ==> GuestAlive(a.id) in log)
    && Count(log, MutationRequested(a.id)) == (if a.mutating then 1 else 0)
  }

  predicate Accounted(past: Past, id: nat, key: Key, a: Attempt) {
    && id in past.grants && past.grants[id] in past.log && Grants(past.grants[id], id, key, a)
    && id in past.snapshots && Consistent(a, past.snapshots[id])
    && Evidenced(past.log, a)
    && a.id == id
    && id !in past.reports
  }

  ghost predicate AttemptsAccounted(jobs: Jobs, past: Past) {
    forall id | id in jobs && jobs[id].MutationJob? :: Accounted(past, id, jobs[id].key, jobs[id].attempt)
  }

  /** The report of a finished attempt is still the truth about its snapshot and its mutation. */
  predicate Truthful(past: Past, id: nat, record: UpdateRecord) {
    && id in past.grants && id in past.snapshots
    && record.attempt == id
    && Accounts(record, past.snapshots[id])
    && Sound(record, Count(past.log, MutationRequested(id)) == 1)
    && (record.snapshotRetained ==>
      record.snapshotName.Some? && SnapshotReady(id, record.snapshotName.value) in past.log)
    && Count(past.log, MutationRequested(id)) <= 1
  }

  ghost predicate ReportsTruthful(past: Past) {
    forall id | id in past.reports :: Truthful(past, id, past.reports[id])
  }

  ghost predicate ReportedOnce(past: Past) {
    forall id: nat :: Count(past.log, AttemptReported(id)) == One(id in past.reports)
  }

  /** Every accepted attempt is either still running or has been reported. */
  ghost predicate NoneLost(jobs: Jobs, past: Past, h: Hole) {
    forall id | id in past.grants :: (id in jobs && jobs[id].MutationJob?) || id in past.reports || ExemptId(h, id)
  }

  ghost predicate LedgerOk(jobs: Jobs, past: Past, h: Hole) {
    AttemptsAccounted(jobs, past) && ReportsTruthful(past) && ReportedOnce(past) && NoneLost(jobs, past, h)
  }

  // ----- what each event of the history presupposes

  ghost predicate Authorized(log: Log, id: nat) {
    exists grant | grant in log ::
      || (grant.UpdateAccepted? && grant.id == id
          && PlanMatched(id, Upgrade(PlanTuple(grant.packages))) in log
          && (grant.skip || exists e | e in log :: e.SnapshotReady? && e.id == id))
      || (grant.CleanupAccepted? && grant.id == id
          && PlanMatched(id, Removal(CleanupTuple(grant.evidence.candidates))) in log
          && (exists e | e in log :: e.SnapshotReady? && e.id == id))
  }

  ghost predicate TokenUnused(log: Log, token: nat) {
    forall e | e in log :: e.UpdateAccepted? ==> e.token != token
  }

  ghost predicate EvidenceUnused(log: Log, observedAt: nat) {
    forall e | e in log :: e.CleanupAccepted? ==> e.evidence.observedAt != observedAt
  }

  predicate Accepts(e: Event, id: nat) { (e.UpdateAccepted? || e.CleanupAccepted?) && e.id == id }

  ghost predicate IdUnused(log: Log, id: nat) { forall e | e in log :: !Accepts(e, id) }

  ghost predicate EventOk(log: Log, e: Event) {
    match e
    case ScanAccepted(_, key) => !Stranded(log, key.vmid)
    case HealthAccepted(_, key) => !Stranded(log, key.vmid)
    case RestoreAccepted(_, key) => !Stranded(log, key.vmid)
    case ScanPublished(_, _, _) => true
    case ReviewConfirmed(key, token) =>
      exists p | p in log :: p.ScanPublished? && p.key == key && p.token == token
    case UpdateAccepted(id, key, token, packages, _) =>
      && packages != []
      && ScanPublished(key, token, packages) in log && ReviewConfirmed(key, token) in log
      && TokenUnused(log, token) && IdUnused(log, id) && !Stranded(log, key.vmid)
    case CleanupAccepted(id, key, evidence) =>
      && evidence.candidates != []
      && evidence.begun <= |log| && Undisturbed(log, evidence.begun, key)
      && EvidenceUnused(log, evidence.observedAt) && IdUnused(log, id) && !Stranded(log, key.vmid)
    case PlanMatched(_, _) => true
    case PostSubmitted(id, _) => exists plan :: PlanMatched(id, plan) in log
    case SnapshotReady(id, name) => PostSubmitted(id, name) in log
    case MutationRequested(id) => Authorized(log, id) && MutationRequested(id) !in log
    case GuestAlive(id) => MutationRequested(id) in log
    case DeleteSubmitted(id, name) =>
      SnapshotReady(id, name) in log && MutationRequested(id) in log && GuestAlive(id) in log
    case AttemptReported(id) => AttemptReported(id) !in log
    case TargetsPruned(_) => true
    case TargetsObserved(_) => true
    case TruthDiscarded(_) => true
    case RollbackSubmitted(id, key) => RestoreAccepted(id, key) in log && TruthDiscarded(key) in log
    case RestoreFinished(id, key, _) => RestoreAccepted(id, key) in log
    case AutoremoveFollowed(follower, update, cleanup) =>
      && AttemptReported(update) in log
      && (exists e | e in log :: e.CleanupAccepted? && e.id == cleanup && update <= e.evidence.observedAt)
      && (forall e | e in log :: e.AutoremoveFollowed? ==> e.follower != follower)
  }

  ghost predicate LogOk(log: Log) {
    forall i | 0 <= i < |log| :: EventOk(log[..i], log[i])
  }

  // ----- where current evidence comes from

  predicate ScanProven(log: Log, k: Key, record: ScanRecord)
    requires record.ScanSuccess?
  {
    ScanPublished(k, record.token, record.packages) in log
    && (record.reviewed ==> ReviewConfirmed(k, record.token) in log)
  }

  ghost predicate ScansProven(b: Books, log: Log) {
    && (forall k | k in b.records && b.records[k].ScanSuccess? ::
      ScanProven(log, k, b.records[k]) && TokenUnused(log, b.records[k].token))
    && (forall k1, k2 | k1 in b.records && k2 in b.records && b.records[k1].ScanSuccess? && b.records[k2].ScanSuccess?
      && b.records[k1].token == b.records[k2].token :: k1 == k2)
  }

  ghost predicate EvidenceProven(b: Books, log: Log) {
    && (forall k | k in b.evidence ::
      && b.evidence[k].begun <= |log| && Undisturbed(log, b.evidence[k].begun, k)
      && EvidenceUnused(log, b.evidence[k].observedAt))
    && (forall k1, k2 | k1 in b.evidence && k2 in b.evidence
      && b.evidence[k1].observedAt == b.evidence[k2].observedAt :: k1 == k2)
  }

  /** An observation under way is either still undisturbed or can no longer become evidence. */
  predicate ObservationSafe(job: Job, fenced: set<Key>, log: Log) {
    && (job.ScanJob? && job.position.ScanCleanup? ==>
      && job.position.begun <= |log|
      && (job.cancelled || Undisturbed(log, job.position.begun, job.key)))
    && (job.MutationJob? && job.attempt.at.AwaitObservation? ==>
      && job.attempt.at.begun <= |log|
      && (job.cancelled || job.key in fenced || Undisturbed(log, job.attempt.at.begun, job.key)))
  }

  ghost predicate ObservationsSafe(jobs: Jobs, fenced: set<Key>, log: Log) {
    forall id | id in jobs :: ObservationSafe(jobs[id], fenced, log)
  }

  ghost predicate ProvenanceOk(jobs: Jobs, b: Books, log: Log) {
    LogOk(log) && ScansProven(b, log) && EvidenceProven(b, log) && ObservationsSafe(jobs, b.fenced, log)
  }

  // ----- Restore

  predicate Discarded(b: Books, k: Key) {
    k !in b.records && k !in b.viewed && k !in b.evidence && k !in b.health
  }

  predicate RestoreSafe(id: nat, key: Key, stage: RestoreStage, b: Books, log: Log) {
    && RestoreAccepted(id, key) in log
    && (!stage.Validating? ==> Discarded(b, key) && TruthDiscarded(key) in log)
  }

  /** A Restore that ended without a known outcome keeps its reservation for good. */
  predicate StrandedSafe(id: nat, key: Key, jobs: Jobs, b: Books, owners: map<Key, nat>) {
    key in b.reserved && Discarded(b, key) && key in owners && owners[key] == id && (id in jobs ==> !jobs[id].RestoreJob?)
  }

  ghost predicate RestoresSafe(jobs: Jobs, b: Books, past: Past) {
    && (forall id | id in jobs && jobs[id].RestoreJob? :: RestoreSafe(id, jobs[id].key, jobs[id].stage, b, past.log))
    && (forall e | e in past.log :: e.RestoreFinished? && e.uncertain ==>
      StrandedSafe(e.id, e.key, jobs, b, past.owners))
  }

  // ----- Easy Update continuations

  /** While a continuation is parked with its wake event unset, there is still nothing to decide. */
  predicate Watches(f: Follower, version: nat, c: Coordinator, b: Books) {
    f.seen <= version && (f.parked && f.seen == version ==> Decide(c, b, f).None?)
  }

  ghost predicate FollowersWatch(s: State) {
    && (forall id | id in s.followers :: Watches(s.followers[id], s.version, s.coordinator, s.books))
    && (forall e | e in s.past.log :: e.AutoremoveFollowed? ==> e.follower !in s.followers)
  }

  /** A stored terminal record of an Update is one that was reported. */
  ghost predicate StoredReported(b: Books, past: Past, h: Hole) {
    forall k | k in b.updates && !b.updates[k].status.Running? ::
      b.updates[k].attempt in past.reports || ExemptId(h, b.updates[k].attempt)
  }

  // ----- the whole

  /** The dictionaries, tasks and sections fit together. */
  ghost predicate StateOk(s: State, h: Hole) {
    && BooksOk(s.books, h)
    && Tethered(s.jobs, s.tasks, s.books, s.past.owners) && EndingOwned(s.jobs, s.books, h)
    && SectionsBounded(s.jobs, s.scanSlots, s.updateSlot)
  }

  /** They are what the history accounts for. */
  ghost predicate TraceOk(s: State, h: Hole) {
    && Supplied(s.supply, s.jobs, s.followers, s.books, s.past)
    && LedgerOk(s.jobs, s.past, h)
    && ProvenanceOk(s.jobs, s.books, s.past.log)
  }

  /** What Restore and the Easy Update continuation rely on. */
  ghost predicate ClientsOk(s: State, h: Hole) {
    && RestoresSafe(s.jobs, s.books, s.past)
    && FollowersWatch(s)
    && StoredReported(s.books, s.past, h)
  }

  ghost predicate Inv(s: State, h: Hole) { StateOk(s, h) && TraceOk(s, h) && ClientsOk(s, h) }
}
