/**
 The typed records the package subsystem keeps and passes around (packages/models.py).

 Points in time, attempt identities and scan tokens are natural numbers that the manager draws from one
 strictly increasing supply, so a record's `attempt` is both the moment the attempt was accepted and the
 identity of the record object that attempt started with.
 */
module Models {
  datatype Option<+T> = None | Some(value: T)

  /** One upstream identity, the key of every dictionary of the manager. */
  datatype Key = Key(node: string, vmid: int)

  datatype PendingPackage = PendingPackage(
    name: string, architecture: string, installedVersion: string, candidateVersion: string,
    origin: Option<string>, security: Option<bool>)

  datatype RemovablePackage = RemovablePackage(name: string, architecture: string, installedVersion: string)

  /** The equality-bearing fields of a plan, as the two plan projections of the manager return them. */
  datatype Plan =
    | Upgrade(rows: seq<(string, string, string, string)>)
    | Removal(removed: seq<(string, string, string)>)

  type Inventory = map<(string, string), string>

  datatype ScanFailure =
    | DpkgUnfinished | ExecutionFailed | GuestChangedDuringScan | ScanGuestUnavailable | IdentityMismatch
    | MalformedPlan | MetadataRefreshFailed | ScanManagerBusy | ScanProtocolMismatch | SimulationFailed
    | ScanTimeout | UnsupportedOs

  datatype UpdateOutcome =
    | PlanChanged | PlanFailed | SnapshotFailed | PackageManagerBusy | MutationFailed | MutationTimedOut
    | MutationUncertain | GuestUnavailable | LivenessFailed | HelperOutdated | MutationSucceeded

  datatype UpdateStatus = NeverRan | Running | Succeeded | Failed

  /** Latest scan attempt of one guest; `attempt` stands for the identity of the record object. */
  datatype ScanRecord =
    | ScanNever
    | ScanRunning(attempt: nat)
    | ScanSuccess(attempt: nat, packages: seq<PendingPackage>, token: nat, reviewed: bool)
    | ScanFailed(attempt: nat, failure: ScanFailure)

  /** Latest Update or Autoremove attempt of one guest. */
  datatype UpdateRecord = UpdateRecord(
    status: UpdateStatus,
    attempt: nat,
    outcome: Option<UpdateOutcome>,
    snapshotSkipped: bool,
    snapshotRetained: bool,
    snapshotUncertain: bool,
    snapshotCleanupFailed: bool,
    snapshotName: Option<string>,
    liveness: Option<bool>,
    changedCount: Option<nat>)

  function RunningRecord(attempt: nat, skip: bool): UpdateRecord {
    UpdateRecord(Running, attempt, None, skip, false, false, false, None, None, None)
  }

  /** One successful observation of the cleanup plan; `begun` is where in the history its read began. */
  datatype CleanupEvidence = CleanupEvidence(candidates: seq<RemovablePackage>, observedAt: nat, begun: nat)

  datatype MutationKind = UpdateKind | CleanupKind

  datatype HealthSource = FromButton | AfterUpdate | AfterAutoremove

  datatype HealthState = Healthy | Degraded | Unhealthy

  datatype DpkgState = DpkgOk | DpkgInterrupted | DpkgPending | DpkgBusy | DpkgLockUnknown | DpkgChanged

  datatype HealthReason =
    | HealthGuestUnavailable | GuestExecFailed | HealthTimeout | HealthHelperOutdated | HealthProtocolMismatch
    | TransportFailed | MalformedEvidence | UnsupportedGuest | HealthManagerBusy | DpkgPendingReason
    | DpkgInterruptedReason | DpkgLockUnknownReason | GuestChanged

  datatype HealthEvidence = HealthEvidence(
    guestExec: bool,
    guestExecUnavailable: bool,
    dpkg: Option<DpkgState>,
    unfinishedCount: Option<int>,
    rebootRequired: Option<bool>)

  datatype HealthOutcome = HealthOutcome(
    state: Option<HealthState>, reason: Option<HealthReason>, evidence: Option<HealthEvidence>)

  datatype HealthRecord =
    | HealthRunning(attempt: nat, source: HealthSource)
    | HealthCompleted(attempt: nat, source: HealthSource, outcome: HealthOutcome)

  /** Outcome of a plan request before the mutation is attempted. */
  predicate PlanStage(outcome: UpdateOutcome) {
    outcome.PlanFailed? || outcome.PackageManagerBusy? || outcome.GuestUnavailable? || outcome.HelperOutdated?
  }

  /** Outcome the mutation request itself can be classified as. */
  predicate MutationStage(outcome: UpdateOutcome) {
    || outcome.PackageManagerBusy? || outcome.GuestUnavailable? || outcome.HelperOutdated?
    || outcome.MutationFailed? || outcome.MutationTimedOut? || outcome.MutationUncertain?
  }

  /** Outcomes that promise the guest was never touched. */
  predicate PromisesUntouched(outcome: UpdateOutcome) {
    outcome.PlanChanged? || outcome.PlanFailed? || outcome.SnapshotFailed?
  }

  /** Outcomes that admit the mutation was attempted. */
  predicate AdmitsMutation(outcome: UpdateOutcome) {
    || outcome.MutationFailed? || outcome.MutationTimedOut? || outcome.MutationUncertain?
    || outcome.LivenessFailed? || outcome.MutationSucceeded?
  }
}
