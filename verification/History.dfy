/**
 The history of one manager lifetime: every acceptance, request, observation and report, in order. Nothing in
 the manager reads it back; it is what the whole-run statements are about.
 */
module History {
  import opened Models

  datatype Event =
    | ScanAccepted(id: nat, key: Key)
    | ScanPublished(key: Key, token: nat, packages: seq<PendingPackage>)
    | ReviewConfirmed(key: Key, token: nat)
    | UpdateAccepted(id: nat, key: Key, token: nat, packages: seq<PendingPackage>, skip: bool)
    | CleanupAccepted(id: nat, key: Key, evidence: CleanupEvidence)
    | HealthAccepted(id: nat, key: Key)
    | RestoreAccepted(id: nat, key: Key)
    | PlanMatched(id: nat, plan: Plan)
    | PostSubmitted(id: nat, name: string)
    | SnapshotReady(id: nat, name: string)
    | MutationRequested(id: nat)
    | GuestAlive(id: nat)
    | DeleteSubmitted(id: nat, name: string)
    | AttemptReported(id: nat)
    | TargetsPruned(current: set<Key>)
    | TargetsObserved(running: set<Key>)
    | TruthDiscarded(key: Key)
    | RollbackSubmitted(id: nat, key: Key)
    | RestoreFinished(id: nat, key: Key, uncertain: bool)
    | AutoremoveFollowed(follower: nat, update: nat, cleanup: nat)

  type Log = seq<Event>

  function Count(log: Log, e: Event): nat { multiset(log)[e] }

  /** An observation after which package evidence of this target may no longer be current. */
  predicate Disturbs(e: Event, key: Key) {
    match e
    case TargetsPruned(current) => key !in current
    case TargetsObserved(running) => key !in running
    case TruthDiscarded(target) => key == target
    case _ => false
  }

  predicate Undisturbed(log: Log, begun: nat, key: Key) {
    forall i | begun <= i < |log| :: !Disturbs(log[i], key)
  }

  /** A Restore of this VMID ended without a known outcome. */
  predicate Stranded(log: Log, vmid: int) {
    exists e | e in log :: e.RestoreFinished? && e.uncertain && e.key.vmid == vmid
  }
}
