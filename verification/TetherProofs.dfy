/** Every change to the dictionaries leaves each live task either owning its record or told to stop. */
module TetherProofs {
  import opened Models
  import opened Attempts
  import opened History
  import opened ManagerState
  import opened ManagerInvariant
  import opened BooksProofs

  type Owners = map<Key, nat>

  /** A task that has not been told to stop makes its target busy. */
  lemma TiedIsBusy(job: Job, id: nat, t: Tasks, b: Books, owners: Owners)
    requires Tied(job, id, t, b, owners)
    ensures job.ScanJob? && !job.cancelled ==> Busy(b, ScanOwner, job.key)
    ensures job.MutationJob? && !job.cancelled ==> Busy(b, OwnerOf(job.attempt.kind), job.key)
    ensures job.HealthJob? && !job.cancelled ==> Busy(b, HealthOwner, job.key)
    ensures job.RestoreJob? ==> Busy(b, RestoreOwner, job.key)
  {
  }

  /** Being told to stop never unties a task. */
  lemma CancelTies(job: Job, id: nat, t: Tasks, b: Books, owners: Owners)
    requires Tied(job, id, t, b, owners)
    ensures Tied(job.(cancelled := true), id, t, b, owners)
  {
  }

  /** What becomes of the records and tasks at one idle key does not concern a task that is tied. */
  lemma OtherKeyTies(job: Job, id: nat, t: Tasks, b: Books, t': Tasks, b': Books, owners: Owners, key: Key)
    requires Tied(job, id, t, b, owners) && !BusyAt(b, key.vmid)
    requires b'.reserved == b.reserved
    requires b'.records - {key} == b.records - {key} && t'.scans - {key} == t.scans - {key}
    requires b'.updates - {key} == b.updates - {key} && t'.updates - {key} == t.updates - {key}
    requires b'.cleanups - {key} == b.cleanups - {key} && t'.cleanups - {key} == t.cleanups - {key}
    requires b'.health - {key} == b.health - {key} && t'.health - {key} == t.health - {key}
    ensures Tied(job, id, t', b', owners)
  {
    IdleMeansNotBusy(b, key.vmid);
    TiedIsBusy(job, id, t, b, owners);
    match job
    case ScanJob(k, cancelled, _) =>
      if !cancelled {
        assert k in b'.records - {key} && (b'.records - {key})[k] == (b.records - {key})[k];
        assert k in t'.scans - {key} && (t'.scans - {key})[k] == (t.scans - {key})[k];
      }
    case MutationJob(k, cancelled, a) =>
      if !cancelled {
        var records, records' := MutationRecords(b, a.kind), MutationRecords(b', a.kind);
        var tasks, tasks' := MutationTasks(t, a.kind), MutationTasks(t', a.kind);
        assert k in records' - {key} && (records' - {key})[k] == (records - {key})[k];
        assert k in tasks' - {key} && (tasks' - {key})[k] == (tasks - {key})[k];
      }
    case HealthJob(k, cancelled, _) =>
      if !cancelled {
        assert k in b'.health - {key} && (b'.health - {key})[k] == (b.health - {key})[k];
        assert k in t'.health - {key} && (t'.health - {key})[k] == (t.health - {key})[k];
      }
    case RestoreJob(_, _, _) =>
  }

  lemma ScanTethers(jobs: Jobs, t: Tasks, b: Books, owners: Owners, key: Key, id: nat)
    requires Tethered(jobs, t, b, owners) && id !in jobs && !BusyAt(b, key.vmid)
    ensures Tethered(jobs[id := ScanJob(key, false, ScanSlot)], t.(scans := t.scans[key := id]), ScanBooks(b, key, id), owners)
  {
    forall i | i in jobs
      ensures Tied(jobs[i], i, t.(scans := t.scans[key := id]), ScanBooks(b, key, id), owners)
    {
      OtherKeyTies(jobs[i], i, t, b, t.(scans := t.scans[key := id]), ScanBooks(b, key, id), owners, key);
    }
  }

  lemma UpdateTies(job: Job, i: nat, t: Tasks, b: Books, owners: Owners, key: Key, id: nat, skip: bool)
    requires Tied(job, i, t, b, owners) && !BusyAt(b, key.vmid)
    ensures Tied(job, i, t.(health := t.health - {key}, updates := t.updates[key := id]), UpdateBooks(b, key, id, skip), owners)
  {
    var t' := t.(health := t.health - {key}, updates := t.updates[key := id]);
    OtherKeyTies(job, i, t, b, t', UpdateBooks(b, key, id, skip), owners, key);
  }

  lemma UpdateTethers(jobs: Jobs, t: Tasks, b: Books, owners: Owners, key: Key, skip: bool, a: Attempt)
    requires Tethered(jobs, t, b, owners) && a.id !in jobs && !BusyAt(b, key.vmid) && a.kind.UpdateKind?
    ensures Tethered(
      CancelJobs(jobs, TaskOf(t.health, key))[a.id := MutationJob(key, false, a)],
      t.(health := t.health - {key}, updates := t.updates[key := a.id]), UpdateBooks(b, key, a.id, skip), owners)
  {
    var t' := t.(health := t.health - {key}, updates := t.updates[key := a.id]);
    forall i | i in jobs
      ensures Tied(CancelJobs(jobs, TaskOf(t.health, key))[i], i, t', UpdateBooks(b, key, a.id, skip), owners)
    {
      UpdateTies(jobs[i], i, t, b, owners, key, a.id, skip);
      CancelTies(jobs[i], i, t', UpdateBooks(b, key, a.id, skip), owners);
    }
  }

  lemma CleanupTies(job: Job, i: nat, t: Tasks, b: Books, owners: Owners, key: Key, id: nat)
    requires Tied(job, i, t, b, owners) && !BusyAt(b, key.vmid)
    ensures Tied(job, i, t.(health := t.health - {key}, cleanups := t.cleanups[key := id]), CleanupBooks(b, key, id), owners)
  {
    var t' := t.(health := t.health - {key}, cleanups := t.cleanups[key := id]);
    OtherKeyTies(job, i, t, b, t', CleanupBooks(b, key, id), owners, key);
  }

  lemma CleanupTethers(jobs: Jobs, t: Tasks, b: Books, owners: Owners, key: Key, a: Attempt)
    requires Tethered(jobs, t, b, owners) && a.id !in jobs && !BusyAt(b, key.vmid) && a.kind.CleanupKind?
    ensures Tethered(
      CancelJobs(jobs, TaskOf(t.health, key))[a.id := MutationJob(key, false, a)],
      t.(health := t.health - {key}, cleanups := t.cleanups[key := a.id]), CleanupBooks(b, key, a.id), owners)
  {
    var t' := t.(health := t.health - {key}, cleanups := t.cleanups[key := a.id]);
    forall i | i in jobs
      ensures Tied(CancelJobs(jobs, TaskOf(t.health, key))[i], i, t', CleanupBooks(b, key, a.id), owners)
    {
      CleanupTies(jobs[i], i, t, b, owners, key, a.id);
      CancelTies(jobs[i], i, t', CleanupBooks(b, key, a.id), owners);
    }
  }

  lemma RestoreTethers(jobs: Jobs, t: Tasks, b: Books, owners: Owners, key: Key, id: nat)
    requires Tethered(jobs, t, b, owners) && id !in jobs && !RestoreBlocked(b, key.vmid)
    ensures Tethered(jobs[id := RestoreJob(key, false, Validating)], t, b.(reserved := b.reserved + {key}), owners[key := id])
  {
  }

  lemma DiscardTies(job: Job, id: nat, t: Tasks, b: Books, owners: Owners, key: Key)
    requires Tied(job, id, t, b, owners) && WorkExclusive(b) && key in b.reserved
    requires job.HealthJob? && !job.cancelled ==> job.key != key
    ensures Tied(job, id, t.(health := t.health - {key}), DiscardBooks(b, key), owners)
  {
    assert Busy(b, RestoreOwner, key);
    OnlyOwner(b, RestoreOwner, key);
    TiedIsBusy(job, id, t, b, owners);
  }

  /** Restore discards the truth of a target nothing but Health can be working on, and stops that. */
  lemma DiscardTethers(jobs: Jobs, t: Tasks, b: Books, owners: Owners, key: Key)
    requires Tethered(jobs, t, b, owners) && WorkExclusive(b) && key in b.reserved
    ensures Tethered(CancelJobs(jobs, TaskOf(t.health, key)), t.(health := t.health - {key}), DiscardBooks(b, key), owners)
  {
    forall i | i in jobs
      ensures Tied(CancelJobs(jobs, TaskOf(t.health, key))[i], i, t.(health := t.health - {key}), DiscardBooks(b, key), owners)
    {
      if i in TaskOf(t.health, key) {
        CancelTies(jobs[i], i, t, b, owners);
        DiscardTies(jobs[i].(cancelled := true), i, t, b, owners, key);
      } else {
        DiscardTies(jobs[i], i, t, b, owners, key);
      }
    }
  }

  lemma PruneTies(job: Job, id: nat, t: Tasks, b: Books, owners: Owners, current: set<Key>)
    requires Tied(job, id, t, b, owners)
    ensures var stale := PruneTargets(b, current);
      if id in PrunedIds(t, stale) then Tied(job.(cancelled := true), id, PruneTasks(t, stale), PruneBooks(b, stale), owners)
      else Tied(job, id, PruneTasks(t, stale), PruneBooks(b, stale), owners)
  {
    TiedIsBusy(job, id, t, b, owners);
  }

  /** Pruning cancels exactly the tasks whose records it takes away. */
  lemma PruneTethers(jobs: Jobs, t: Tasks, b: Books, owners: Owners, current: set<Key>)
    requires Tethered(jobs, t, b, owners)
    ensures var stale := PruneTargets(b, current);
      Tethered(CancelJobs(jobs, PrunedIds(t, stale)), PruneTasks(t, stale), PruneBooks(b, stale), owners)
  {
    var stale := PruneTargets(b, current);
    forall i | i in jobs
      ensures Tied(CancelJobs(jobs, PrunedIds(t, stale))[i], i, PruneTasks(t, stale), PruneBooks(b, stale), owners)
    {
      PruneTies(jobs[i], i, t, b, owners, current);
    }
  }

  lemma StopTies(job: Job, id: nat, t: Tasks, b: Books, owners: Owners, running: set<Key>)
    requires Tied(job, id, t, b, owners)
    ensures var stale := StoppedTargets(b, t, running);
      var t' := t.(scans := t.scans - stale, health := t.health - stale);
      if id in TasksOf(t.scans, stale) + TasksOf(t.health, stale)
      then Tied(job.(cancelled := true), id, t', StopBooks(b, stale), owners)
      else Tied(job, id, t', StopBooks(b, stale), owners)
  {
    TiedIsBusy(job, id, t, b, owners);
  }

  lemma StopTethers(jobs: Jobs, t: Tasks, b: Books, owners: Owners, running: set<Key>)
    requires Tethered(jobs, t, b, owners)
    ensures var stale := StoppedTargets(b, t, running);
      Tethered(CancelJobs(jobs, TasksOf(t.scans, stale) + TasksOf(t.health, stale)),
               t.(scans := t.scans - stale, health := t.health - stale), StopBooks(b, stale), owners)
  {
    var stale := StoppedTargets(b, t, running);
    var t' := t.(scans := t.scans - stale, health := t.health - stale);
    forall i | i in jobs
      ensures Tied(CancelJobs(jobs, TasksOf(t.scans, stale) + TasksOf(t.health, stale))[i], i, t', StopBooks(b, stale), owners)
    {
      StopTies(jobs[i], i, t, b, owners, running);
    }
  }

  /** The own record of an ended scan may be overwritten; no other task owns it. */
  lemma ScanEndTethers(jobs: Jobs, t: Tasks, b: Books, owners: Owners, key: Key, id: nat, outcome: ScanRecord)
    requires Tethered(jobs, t, b, owners) && OwnsScan(b, key, id) && id !in jobs
    ensures Tethered(jobs, t.(scans := t.scans - {key}), b.(records := b.records[key := outcome]), owners)
  {
  }

  lemma MutationEndTethers(
    jobs: Jobs, t: Tasks, b: Books, owners: Owners, kind: MutationKind, key: Key, id: nat, record: UpdateRecord)
    requires Tethered(jobs, t, b, owners) && OwnsMutation(b, kind, key, id) && id !in jobs
    ensures Tethered(jobs, ForgetTask(t, kind, key), b, owners)
    ensures Tethered(jobs, t, PutMutation(b, kind, key, record), owners)
  {
  }

  lemma HealthEndTethers(jobs: Jobs, t: Tasks, b: Books, owners: Owners, key: Key, id: nat, record: HealthRecord)
    requires Tethered(jobs, t, b, owners) && OwnsHealth(b, key, id) && id !in jobs
    ensures Tethered(jobs, t.(health := t.health - {key}), b.(health := b.health[key := record]), owners)
    ensures Tethered(jobs, t, b.(health := b.health - {key}), owners)
  {
  }

  lemma ClaimTethers(jobs: Jobs, t: Tasks, b: Books, owners: Owners, key: Key, record: HealthRecord)
    requires Tethered(jobs, t, b, owners) && !HealthRunningAt(b.health, key.vmid)
    ensures Tethered(jobs, t, b.(health := b.health[key := record]), owners)
  {
  }

  lemma LaunchTethers(jobs: Jobs, t: Tasks, b: Books, owners: Owners, key: Key, id: nat, source: HealthSource)
    requires Tethered(jobs, t, b, owners) && OwnsHealth(b, key, id) && id !in jobs
    ensures Tethered(jobs[id := HealthJob(key, false, source)], t.(health := t.health[key := id]), b, owners)
  {
  }

  /** Evidence, fences and reviewed flags are not what tasks hold on to. */
  lemma ReviewTethers(jobs: Jobs, t: Tasks, b: Books, owners: Owners, key: Key)
    requires Tethered(jobs, t, b, owners) && key in b.records && b.records[key].ScanSuccess?
    ensures Tethered(jobs, t, ReviewBooks(b, key), owners)
  {
  }

  lemma EvidenceTethers(jobs: Jobs, t: Tasks, b: Books, owners: Owners, evidence: map<Key, CleanupEvidence>)
    requires Tethered(jobs, t, b, owners)
    ensures Tethered(jobs, t, b.(evidence := evidence), owners)
  {
    forall i | i in jobs ensures Tied(jobs[i], i, t, b.(evidence := evidence), owners) {
      assert Tied(jobs[i], i, t, b, owners);
    }
  }

  lemma ViewedTethers(jobs: Jobs, t: Tasks, b: Books, owners: Owners, viewed: map<Key, nat>)
    requires Tethered(jobs, t, b, owners)
    ensures Tethered(jobs, t, b.(viewed := viewed), owners)
  {
    forall i | i in jobs ensures Tied(jobs[i], i, t, b.(viewed := viewed), owners) {
      assert Tied(jobs[i], i, t, b, owners);
    }
  }

  /** A reservation is given back only when no live Restore holds it. */
  lemma ReleaseTethers(jobs: Jobs, t: Tasks, b: Books, owners: Owners, key: Key)
    requires Tethered(jobs, t, b, owners)
    requires forall id | id in jobs && jobs[id].RestoreJob? :: jobs[id].key != key
    ensures Tethered(jobs, t, b.(reserved := b.reserved - {key}), owners)
  {
    forall i | i in jobs ensures Tied(jobs[i], i, t, b.(reserved := b.reserved - {key}), owners) {
      assert Tied(jobs[i], i, t, b, owners);
    }
  }

  // ----- sections

  lemma NewJobSections(jobs: Jobs, scanSlots: set<nat>, updateSlot: set<nat>, id: nat, job: Job)
    requires SectionsBounded(jobs, scanSlots, updateSlot) && id !in jobs
    requires !InScanSection(job) && !InMutationSection(job)
    ensures SectionsBounded(jobs[id := job], scanSlots, updateSlot)
  {
  }

  lemma CancelSections(jobs: Jobs, scanSlots: set<nat>, updateSlot: set<nat>, ids: set<nat>)
    requires SectionsBounded(jobs, scanSlots, updateSlot)
    ensures SectionsBounded(CancelJobs(jobs, ids), scanSlots, updateSlot)
  {
  }

  lemma SameSectionJob(jobs: Jobs, scanSlots: set<nat>, updateSlot: set<nat>, id: nat, job: Job)
    requires SectionsBounded(jobs, scanSlots, updateSlot) && id in jobs
    requires InScanSection(job) == InScanSection(jobs[id]) && InMutationSection(job) == InMutationSection(jobs[id])
    ensures SectionsBounded(jobs[id := job], scanSlots, updateSlot)
  {
  }

  lemma SmallerSet(a: set<nat>, b: set<nat>)
    requires a <= b
    ensures |a| <= |b|
  {
    if a != b {
      var x :| x in b && x !in a;
      SmallerSet(a, b - {x});
    }
  }

  lemma LeaveSections(jobs: Jobs, scanSlots: set<nat>, updateSlot: set<nat>, id: nat)
    requires SectionsBounded(jobs, scanSlots, updateSlot)
    ensures SectionsBounded(jobs - {id}, scanSlots - {id}, updateSlot - {id})
  {
    SmallerSet(scanSlots - {id}, scanSlots);
    SmallerSet(updateSlot - {id}, updateSlot);
  }

  lemma EnterScanSection(jobs: Jobs, scanSlots: set<nat>, updateSlot: set<nat>, id: nat, job: Job)
    requires SectionsBounded(jobs, scanSlots, updateSlot) && id in jobs && jobs[id].ScanJob?
    requires |scanSlots| < MAX_GLOBAL_SCANS && InScanSection(job)
    ensures SectionsBounded(jobs[id := job], scanSlots + {id}, updateSlot)
  {
  }

  lemma EnterMutationSection(jobs: Jobs, scanSlots: set<nat>, updateSlot: set<nat>, id: nat, job: Job)
    requires SectionsBounded(jobs, scanSlots, updateSlot) && id in jobs && jobs[id].MutationJob?
    requires updateSlot == {} && InMutationSection(job)
    ensures SectionsBounded(jobs[id := job], scanSlots, updateSlot + {id})
  {
  }

  lemma ObserveSections(jobs: Jobs, scanSlots: set<nat>, updateSlot: set<nat>, id: nat, job: Job)
    requires SectionsBounded(jobs, scanSlots, updateSlot) && id in jobs && jobs[id].MutationJob?
    requires job.MutationJob? && !InMutationSection(job)
    ensures SectionsBounded(jobs[id := job], scanSlots, updateSlot - {id})
  {
    SmallerSet(updateSlot - {id}, updateSlot);
  }
}
