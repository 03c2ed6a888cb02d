/** Every event the steps add to the history presupposes only what is already there. */
module ProvenanceProofs {
  import opened Models
  import opened Attempts
  import opened History
  import opened ManagerState
  import opened ManagerMachine
  import opened ManagerInvariant
  import opened BooksProofs
  import opened TetherProofs

  // ----- the history itself

  lemma AppendOk(log: Log, e: Event)
    requires LogOk(log) && EventOk(log, e)
    ensures LogOk(log + [e])
  {
    var grown := log + [e];
    forall i | 0 <= i < |grown| ensures EventOk(grown[..i], grown[i]) {
      if i < |log| {
        assert grown[..i] == log[..i];
      } else {
        assert grown[..i] == log;
      }
    }
  }

  lemma UndisturbedGrows(log: Log, es: Log, begun: nat, key: Key)
    requires begun <= |log| && Undisturbed(log, begun, key)
    requires forall e | e in es :: !Disturbs(e, key)
    ensures Undisturbed(log + es, begun, key)
  {
    forall i | begun <= i < |log + es| ensures !Disturbs((log + es)[i], key) {
      if |log| <= i {
        assert (log + es)[i] == es[i - |log|];
      }
    }
  }

  /** A VMID without a reservation carries no Restore that ended without a known outcome. */
  lemma NotStranded(jobs: Jobs, b: Books, past: Past, vmid: int)
    requires RestoresSafe(jobs, b, past) && !ReservedAt(b.reserved, vmid)
    ensures !Stranded(past.log, vmid)
  {
    forall e | e in past.log && e.RestoreFinished? && e.uncertain ensures e.key in b.reserved {
      assert StrandedSafe(e.id, e.key, jobs, b, past.owners);
    }
  }

  // ----- scans and evidence

  /** No successful scan record is added or altered. */
  predicate NoNewScan(b: Books, b': Books) {
    forall k | k in b'.records && b'.records[k].ScanSuccess? :: k in b.records && b.records[k] == b'.records[k]
  }

  predicate NoNewEvidence(b: Books, b': Books) {
    forall k | k in b'.evidence :: k in b.evidence && b.evidence[k] == b'.evidence[k]
  }

  lemma ScansGrow(b: Books, b': Books, log: Log, es: Log)
    requires ScansProven(b, log) && NoNewScan(b, b')
    requires forall e | e in es :: !e.UpdateAccepted?
    ensures ScansProven(b', log + es)
  {
  }

  lemma EvidenceGrows(b: Books, b': Books, log: Log, es: Log)
    requires EvidenceProven(b, log) && NoNewEvidence(b, b')
    requires forall e | e in es :: !e.CleanupAccepted?
    requires forall k, e | k in b'.evidence && e in es :: !Disturbs(e, k)
    ensures EvidenceProven(b', log + es)
  {
    forall k | k in b'.evidence
      ensures b'.evidence[k].begun <= |log + es| && Undisturbed(log + es, b'.evidence[k].begun, k)
    {
      UndisturbedGrows(log, es, b.evidence[k].begun, k);
    }
  }

  // ----- observations under way

  predicate Observing(job: Job) {
    (job.ScanJob? && job.position.ScanCleanup?) || (job.MutationJob? && job.attempt.at.AwaitObservation?)
  }

  predicate SameOrStopped(job: Job, job': Job) { job' == job || job' == job.(cancelled := true) }

  function Told(job: Job, stop: bool): Job { if stop then job.(cancelled := true) else job }

  /** The events added meanwhile leave this observation safe. */
  ghost predicate StaysSafe(job: Job, job': Job, fenced: set<Key>, fenced': set<Key>, es: Log) {
    && SameOrStopped(job, job')
    && (job'.cancelled
      || (job'.MutationJob? && job.key in fenced')
      || (job.key !in fenced - fenced' && forall e | e in es :: !Disturbs(e, job.key)))
  }

  lemma ObservationGrows(job: Job, job': Job, fenced: set<Key>, fenced': set<Key>, log: Log, es: Log)
    requires ObservationSafe(job, fenced, log) && StaysSafe(job, job', fenced, fenced', es)
    ensures ObservationSafe(job', fenced', log + es)
  {
    if job.ScanJob? && job.position.ScanCleanup? && !job'.cancelled {
      UndisturbedGrows(log, es, job.position.begun, job.key);
    }
    if job.MutationJob? && job.attempt.at.AwaitObservation? && !job'.cancelled && job.key !in fenced' {
      UndisturbedGrows(log, es, job.attempt.at.begun, job.key);
    }
  }

  lemma ObservationsGrow(jobs: Jobs, jobs': Jobs, fenced: set<Key>, fenced': set<Key>, log: Log, es: Log)
    requires ObservationsSafe(jobs, fenced, log)
    requires forall id | id in jobs' && Observing(jobs'[id]) ::
      id in jobs && StaysSafe(jobs[id], jobs'[id], fenced, fenced', es)
    ensures ObservationsSafe(jobs', fenced', log + es)
  {
    forall id | id in jobs' ensures ObservationSafe(jobs'[id], fenced', log + es) {
      if Observing(jobs'[id]) {
        ObservationGrows(jobs[id], jobs'[id], fenced, fenced', log, es);
      }
    }
  }

  /** A fence is lifted only where nothing is being observed. */
  lemma LiftFence(jobs: Jobs, t: Tasks, b: Books, owners: Owners, key: Key)
    requires Tethered(jobs, t, b, owners) && !BusyAt(b, key.vmid)
    ensures forall id | id in jobs && Observing(jobs[id]) :: jobs[id].cancelled || jobs[id].key != key
  {
    IdleMeansNotBusy(b, key.vmid);
    forall id | id in jobs && Observing(jobs[id]) && !jobs[id].cancelled ensures jobs[id].key != key {
      TiedIsBusy(jobs[id], id, t, b, owners);
    }
  }

  // ----- steps that accept, confirm or end something

  lemma ScanProvenance(jobs: Jobs, t: Tasks, b: Books, past: Past, key: Key, id: nat)
    requires ProvenanceOk(jobs, b, past.log) && Tethered(jobs, t, b, past.owners) && RestoresSafe(jobs, b, past)
    requires !BusyAt(b, key.vmid)
    ensures ProvenanceOk(jobs[id := ScanJob(key, false, ScanSlot)], ScanBooks(b, key, id), past.log + [ScanAccepted(id, key)])
  {
    var e := ScanAccepted(id, key);
    NotStranded(jobs, b, past, key.vmid);
    AppendOk(past.log, e);
    ScansGrow(b, ScanBooks(b, key, id), past.log, [e]);
    EvidenceGrows(b, ScanBooks(b, key, id), past.log, [e]);
    LiftFence(jobs, t, b, past.owners, key);
    ObservationsGrow(jobs, jobs[id := ScanJob(key, false, ScanSlot)], b.fenced, b.fenced - {key}, past.log, [e]);
  }

  lemma TokenSpent(b: Books, b': Books, log: Log, e: Event, key: Key)
    requires ScansProven(b, log) && NoNewScan(b, b') && e.UpdateAccepted?
    requires key in b.records && b.records[key].ScanSuccess? && b.records[key].token == e.token
    requires key in b'.records ==> !b'.records[key].ScanSuccess?
    ensures ScansProven(b', log + [e])
  {
    forall k | k in b'.records && b'.records[k].ScanSuccess?
      ensures TokenUnused(log + [e], b'.records[k].token)
    {
      assert k != key;
    }
  }

  lemma NextIdUnused(log: Log, supply: nat)
    requires LogDated(log, supply)
    ensures IdUnused(log, supply)
  {
  }

  lemma UpdateProvenance(jobs: Jobs, jobs': Jobs, b: Books, past: Past, key: Key, id: nat, skip: bool)
    requires ProvenanceOk(jobs, b, past.log) && RestoresSafe(jobs, b, past)
    requires !BusyAt(b, key.vmid) && ReviewedPlan(b, key) && LogDated(past.log, id)
    requires forall i | i in jobs' :: !Observing(jobs'[i]) || (i in jobs && SameOrStopped(jobs[i], jobs'[i]))
    ensures ProvenanceOk(jobs', UpdateBooks(b, key, id, skip),
      past.log + [UpdateAccepted(id, key, b.records[key].token, b.records[key].packages, skip)])
  {
    var reviewed := b.records[key];
    var e := UpdateAccepted(id, key, reviewed.token, reviewed.packages, skip);
    NextIdUnused(past.log, id);
    NotStranded(jobs, b, past, key.vmid);
    AppendOk(past.log, e);
    TokenSpent(b, UpdateBooks(b, key, id, skip), past.log, e, key);
    EvidenceGrows(b, UpdateBooks(b, key, id, skip), past.log, [e]);
    ObservationsGrow(jobs, jobs', b.fenced, b.fenced, past.log, [e]);
  }

  lemma EvidenceSpent(b: Books, b': Books, log: Log, e: Event, key: Key)
    requires EvidenceProven(b, log) && NoNewEvidence(b, b') && e.CleanupAccepted?
    requires key in b.evidence && b.evidence[key] == e.evidence && key !in b'.evidence
    ensures EvidenceProven(b', log + [e])
  {
    forall k | k in b'.evidence
      ensures b'.evidence[k].begun <= |log + [e]| && Undisturbed(log + [e], b'.evidence[k].begun, k)
      ensures EvidenceUnused(log + [e], b'.evidence[k].observedAt)
    {
      UndisturbedGrows(log, [e], b.evidence[k].begun, k);
      assert k != key;
    }
  }

  lemma CleanupProvenance(jobs: Jobs, jobs': Jobs, b: Books, past: Past, key: Key, id: nat)
    requires ProvenanceOk(jobs, b, past.log) && RestoresSafe(jobs, b, past)
    requires !BusyAt(b, key.vmid) && ShownPlan(b, key) && LogDated(past.log, id)
    requires forall i | i in jobs' :: !Observing(jobs'[i]) || (i in jobs && SameOrStopped(jobs[i], jobs'[i]))
    ensures ProvenanceOk(jobs', CleanupBooks(b, key, id), past.log + [CleanupAccepted(id, key, b.evidence[key])])
  {
    var e := CleanupAccepted(id, key, b.evidence[key]);
    NextIdUnused(past.log, id);
    NotStranded(jobs, b, past, key.vmid);
    AppendOk(past.log, e);
    ScansGrow(b, CleanupBooks(b, key, id), past.log, [e]);
    EvidenceSpent(b, CleanupBooks(b, key, id), past.log, e, key);
    ObservationsGrow(jobs, jobs', b.fenced, b.fenced, past.log, [e]);
  }

  /** Steps that add one event about neither scans, evidence nor targets and change neither. */
  lemma QuietProvenance(jobs: Jobs, jobs': Jobs, b: Books, b': Books, log: Log, e: Event)
    requires ProvenanceOk(jobs, b, log) && EventOk(log, e)
    requires !e.UpdateAccepted? && !e.CleanupAccepted? && forall k: Key :: !Disturbs(e, k)
    requires NoNewScan(b, b') && NoNewEvidence(b, b') && b'.fenced == b.fenced
    requires forall i | i in jobs' :: !Observing(jobs'[i]) || (i in jobs && SameOrStopped(jobs[i], jobs'[i]))
    ensures ProvenanceOk(jobs', b', log + [e])
  {
    AppendOk(log, e);
    ScansGrow(b, b', log, [e]);
    EvidenceGrows(b, b', log, [e]);
    ObservationsGrow(jobs, jobs', b.fenced, b'.fenced, log, [e]);
  }

  /** Steps that add nothing to the history. */
  lemma SilentProvenance(jobs: Jobs, jobs': Jobs, b: Books, b': Books, log: Log)
    requires ProvenanceOk(jobs, b, log)
    requires NoNewScan(b, b') && NoNewEvidence(b, b') && b'.fenced == b.fenced
    requires forall i | i in jobs' :: !Observing(jobs'[i]) || (i in jobs && SameOrStopped(jobs[i], jobs'[i]))
    ensures ProvenanceOk(jobs', b', log)
  {
    assert log + [] == log;
    ScansGrow(b, b', log, []);
    EvidenceGrows(b, b', log, []);
    ObservationsGrow(jobs, jobs', b.fenced, b'.fenced, log, []);
  }

  lemma ReviewProvenance(jobs: Jobs, b: Books, log: Log, key: Key, token: nat)
    requires ProvenanceOk(jobs, b, log) && Reviewable(b, key, token)
    ensures ProvenanceOk(jobs, ReviewBooks(b, key), log + [ReviewConfirmed(key, token)])
  {
    var e := ReviewConfirmed(key, token);
    assert ScanPublished(key, token, b.records[key].packages) in log;
    AppendOk(log, e);
    EvidenceGrows(b, ReviewBooks(b, key), log, [e]);
    ObservationsGrow(jobs, jobs, b.fenced, b.fenced, log, [e]);
  }

  lemma PrunedObservation(job: Job, id: nat, t: Tasks, b: Books, owners: Owners, current: set<Key>)
    requires Tied(job, id, t, b, owners) && Observing(job)
    ensures var stale := PruneTargets(b, current);
      var job' := Told(job, id in PrunedIds(t, stale));
      StaysSafe(job, job', b.fenced, b.fenced - stale, [TargetsPruned(current)])
  {
    TiedIsBusy(job, id, t, b, owners);
  }

  /** Pruning and stop observations disturb exactly the targets whose evidence they take away. */
  lemma PruneProvenance(jobs: Jobs, t: Tasks, b: Books, owners: Owners, log: Log, current: set<Key>)
    requires ProvenanceOk(jobs, b, log) && Tethered(jobs, t, b, owners)
    ensures var stale := PruneTargets(b, current);
      ProvenanceOk(CancelJobs(jobs, PrunedIds(t, stale)), PruneBooks(b, stale), log + [TargetsPruned(current)])
  {
    var stale := PruneTargets(b, current);
    var jobs' := CancelJobs(jobs, PrunedIds(t, stale));
    var b' := PruneBooks(b, stale);
    var e := TargetsPruned(current);
    AppendOk(log, e);
    ScansGrow(b, b', log, [e]);
    EvidenceGrows(b, b', log, [e]);
    forall id | id in jobs' && Observing(jobs'[id])
      ensures id in jobs && StaysSafe(jobs[id], jobs'[id], b.fenced, b'.fenced, [e])
    {
      PrunedObservation(jobs[id], id, t, b, owners, current);
    }
    ObservationsGrow(jobs, jobs', b.fenced, b'.fenced, log, [e]);
  }

  lemma StoppedObservation(job: Job, id: nat, t: Tasks, b: Books, owners: Owners, running: set<Key>)
    requires Tied(job, id, t, b, owners) && Observing(job)
    ensures var stale := StoppedTargets(b, t, running);
      var job' := Told(job, id in TasksOf(t.scans, stale) + TasksOf(t.health, stale));
      StaysSafe(job, job', b.fenced, b.fenced + stale, [TargetsObserved(running)])
  {
    TiedIsBusy(job, id, t, b, owners);
  }

  lemma StopProvenance(jobs: Jobs, t: Tasks, b: Books, owners: Owners, log: Log, running: set<Key>)
    requires ProvenanceOk(jobs, b, log) && Tethered(jobs, t, b, owners)
    ensures var stale := StoppedTargets(b, t, running);
      ProvenanceOk(CancelJobs(jobs, TasksOf(t.scans, stale) + TasksOf(t.health, stale)), StopBooks(b, stale),
                   log + [TargetsObserved(running)])
  {
    var stale := StoppedTargets(b, t, running);
    var jobs' := CancelJobs(jobs, TasksOf(t.scans, stale) + TasksOf(t.health, stale));
    var b' := StopBooks(b, stale);
    var e := TargetsObserved(running);
    AppendOk(log, e);
    ScansGrow(b, b', log, [e]);
    EvidenceGrows(b, b', log, [e]);
    forall id | id in jobs' && Observing(jobs'[id])
      ensures id in jobs && StaysSafe(jobs[id], jobs'[id], b.fenced, b'.fenced, [e])
    {
      StoppedObservation(jobs[id], id, t, b, owners, running);
    }
    ObservationsGrow(jobs, jobs', b.fenced, b'.fenced, log, [e]);
  }

  lemma DiscardProvenance(jobs: Jobs, jobs': Jobs, t: Tasks, b: Books, owners: Owners, log: Log, key: Key)
    requires ProvenanceOk(jobs, b, log) && Tethered(jobs, t, b, owners) && WorkExclusive(b) && key in b.reserved
    requires forall i | i in jobs' :: !Observing(jobs'[i]) || (i in jobs && SameOrStopped(jobs[i], jobs'[i]))
    ensures ProvenanceOk(jobs', DiscardBooks(b, key), log + [TruthDiscarded(key)])
  {
    var e := TruthDiscarded(key);
    var b' := DiscardBooks(b, key);
    AppendOk(log, e);
    ScansGrow(b, b', log, [e]);
    EvidenceGrows(b, b', log, [e]);
    assert Busy(b, RestoreOwner, key);
    OnlyOwner(b, RestoreOwner, key);
    forall id | id in jobs' && Observing(jobs'[id])
      ensures id in jobs && StaysSafe(jobs[id], jobs'[id], b.fenced, b'.fenced, [e])
    {
      TiedIsBusy(jobs[id], id, t, b, owners);
    }
    ObservationsGrow(jobs, jobs', b.fenced, b'.fenced, log, [e]);
  }

  /** Evidence is stored only for an observation nothing has disturbed since it began. */
  lemma PublishProvenance(jobs: Jobs, b: Books, log: Log, key: Key, evidence: CleanupEvidence)
    requires ProvenanceOk(jobs, b, log)
    requires evidence.begun <= |log| && Undisturbed(log, evidence.begun, key)
    requires LogDated(log, evidence.observedAt)
    requires forall k | k in b.evidence :: b.evidence[k].observedAt < evidence.observedAt
    ensures ProvenanceOk(jobs, b.(evidence := b.evidence[key := evidence]), log)
  {
    assert EvidenceUnused(log, evidence.observedAt) by {
      forall e | e in log && e.CleanupAccepted? ensures e.evidence.observedAt != evidence.observedAt {
        assert Dated(e, evidence.observedAt);
      }
    }
  }

  /** A finished scan stores a record under a token nothing has used yet. */
  lemma ScanResultProvenance(jobs: Jobs, b: Books, log: Log, key: Key, id: nat, packages: seq<PendingPackage>, token: nat)
    requires ProvenanceOk(jobs, b, log) && LogDated(log, token)
    requires forall k | k in b.records && b.records[k].ScanSuccess? :: b.records[k].token < token
    ensures ProvenanceOk(jobs, b.(records := b.records[key := ScanSuccess(id, packages, token, false)]),
                         log + [ScanPublished(key, token, packages)])
  {
    var e := ScanPublished(key, token, packages);
    var b' := b.(records := b.records[key := ScanSuccess(id, packages, token, false)]);
    AppendOk(log, e);
    EvidenceGrows(b, b', log, [e]);
    ObservationsGrow(jobs, jobs, b.fenced, b'.fenced, log, [e]);
    assert TokenUnused(log, token) by {
      forall u | u in log && u.UpdateAccepted? ensures u.token != token {
        assert Dated(u, token);
      }
    }
    assert TokenUnused(log + [e], token);
    ScansGrow(b, b, log, [e]);
  }
}
