/**
 Nothing runs without someone to end it: every record of an Update or Autoremove that reads RUNNING has its live
 task, and every entry of a task dictionary is the task of that very target. So what a prune or a stop cancels are
 the tasks of the targets it forgets and no others.
 */
module LiveRecords {
  import opened Models
  import opened NativeSnapshots
  import opened Attempts
  import opened History
  import opened ManagerState
  import opened ManagerMachine
  import opened ManagerInvariant
  import opened TurnProofs
  import opened ManagerTheorems

  // ----- the invariant

  function JobOwner(job: Job): Owner {
    match job
    case ScanJob(_, _, _) => ScanOwner
    case MutationJob(_, _, attempt) => OwnerOf(attempt.kind)
    case HealthJob(_, _, _) => HealthOwner
    case RestoreJob(_, _, _) => RestoreOwner
  }

  predicate Entries(t: map<Key, nat>, o: Owner, jobs: Jobs, supply: nat) {
    forall k | k in t :: t[k] < supply && (t[k] in jobs ==> jobs[t[k]].key == k && JobOwner(jobs[t[k]]) == o)
  }

  /** Every task entry names a task of its own kind and target. */
  predicate Filed(s: State) {
    && (forall id | id in s.jobs :: id < s.supply)
    && Entries(s.tasks.scans, ScanOwner, s.jobs, s.supply) && Entries(s.tasks.updates, UpdateOwner, s.jobs, s.supply)
    && Entries(s.tasks.cleanups, CleanupOwner, s.jobs, s.supply) && Entries(s.tasks.health, HealthOwner, s.jobs, s.supply)
  }

  predicate Carried(jobs: Jobs, kind: MutationKind, key: Key, id: nat) {
    id in jobs && jobs[id].MutationJob? && jobs[id].key == key && jobs[id].attempt.kind == kind
  }

  /** Every running record of this kind is carried by a task, but for the one that is being finished. */
  predicate Backed(records: map<Key, UpdateRecord>, kind: MutationKind, jobs: Jobs, h: Hole) {
    forall k | k in records && records[k].status.Running? ::
      Carried(jobs, kind, k, records[k].attempt) || h == Ending(kind, k, records[k].attempt)
  }

  predicate Orderly(s: State, h: Hole) {
    Filed(s) && Backed(s.books.updates, UpdateKind, s.jobs, h) && Backed(s.books.cleanups, CleanupKind, s.jobs, h)
  }

  predicate Unlisted(t: map<Key, nat>, id: nat) { forall k | k in t :: t[k] != id }

  /** An identity that was drawn but not yet given to any task. */
  predicate Unused(s: State, id: nat) {
    id < s.supply && id !in s.jobs && Unlisted(s.tasks.scans, id) && Unlisted(s.tasks.updates, id)
    && Unlisted(s.tasks.cleanups, id) && Unlisted(s.tasks.health, id)
  }

  // ----- calls

  /** A new task under a fresh identity belongs where it is entered and disturbs no other entry. */
  lemma NewEntries(t: map<Key, nat>, o: Owner, jobs: Jobs, id: nat, job: Job)
    requires Entries(t, o, jobs, id)
    ensures Entries(t, o, jobs[id := job], id + 1)
    ensures JobOwner(job) == o ==> Entries(t[job.key := id], o, jobs[id := job], id + 1)
  {
  }

  lemma FewerEntries(t: map<Key, nat>, keys: set<Key>, o: Owner, jobs: Jobs, supply: nat)
    requires Entries(t, o, jobs, supply)
    ensures Entries(t - keys, o, jobs, supply)
  {
  }

  lemma NewBacked(records: map<Key, UpdateRecord>, kind: MutationKind, jobs: Jobs, h: Hole, id: nat, job: Job)
    requires Backed(records, kind, jobs, h) && id !in jobs
    ensures Backed(records, kind, jobs[id := job], h)
    ensures Carried(jobs[id := job], kind, job.key, id) ==>
      forall skip :: Backed(records[job.key := RunningRecord(id, skip)], kind, jobs[id := job], h)
  {
    forall k, other: nat ensures Carried(jobs, kind, k, other) ==> Carried(jobs[id := job], kind, k, other) {
    }
  }

  /** No entry but those there were and those of this identity. */
  predicate OnlyNew(t: map<Key, nat>, t': map<Key, nat>, id: nat) {
    forall k | k in t' :: t'[k] == id || (k in t && t'[k] == t[k])
  }

  /** Taking one more task up leaves every unused identity unused. */
  lemma StillUnused(s: State, s': State)
    requires s'.supply == s.supply + 1 && s'.jobs.Keys == s.jobs.Keys + {s.supply}
    requires OnlyNew(s.tasks.scans, s'.tasks.scans, s.supply) && OnlyNew(s.tasks.updates, s'.tasks.updates, s.supply)
    requires OnlyNew(s.tasks.cleanups, s'.tasks.cleanups, s.supply) && OnlyNew(s.tasks.health, s'.tasks.health, s.supply)
    ensures forall id :: Unused(s, id) ==> Unused(s', id)
  {
  }

  lemma AcceptScanOrderly(s: State, h: Hole, key: Key)
    requires Orderly(s, h)
    ensures Orderly(AcceptScan(s, key), h)
    ensures forall id :: Unused(s, id) ==> Unused(AcceptScan(s, key), id)
  {
    hide Entries, Backed, Unused;
    var job := ScanJob(key, false, ScanSlot);
    NewEntries(s.tasks.scans, ScanOwner, s.jobs, s.supply, job);
    NewEntries(s.tasks.updates, UpdateOwner, s.jobs, s.supply, job);
    NewEntries(s.tasks.cleanups, CleanupOwner, s.jobs, s.supply, job);
    NewEntries(s.tasks.health, HealthOwner, s.jobs, s.supply, job);
    NewBacked(s.books.updates, UpdateKind, s.jobs, h, s.supply, job);
    NewBacked(s.books.cleanups, CleanupKind, s.jobs, h, s.supply, job);
    StillUnused(s, AcceptScan(s, key));
  }

  lemma CancelOrderly(s: State, h: Hole, ids: set<nat>)
    requires Orderly(s, h)
    ensures Orderly(s.(jobs := CancelJobs(s.jobs, ids)), h)
  {
    var jobs := CancelJobs(s.jobs, ids);
    forall kind, k, id: nat ensures Carried(s.jobs, kind, k, id) ==> Carried(jobs, kind, k, id) {
    }
  }

  lemma AcceptUpdateOrderly(s: State, h: Hole, key: Key, skip: bool)
    requires Orderly(s, h) && ReviewedPlan(s.books, key)
    ensures Orderly(AcceptUpdate(s, key, skip), h)
    ensures forall id :: Unused(s, id) ==> Unused(AcceptUpdate(s, key, skip), id)
  {
    hide ReviewedPlan, PlanTuple, Entries, Backed, Unused, CancelJobs;
    var jobs := CancelJobs(s.jobs, TaskOf(s.tasks.health, key));
    CancelOrderly(s, h, TaskOf(s.tasks.health, key));
    var job := AcceptUpdate(s, key, skip).jobs[s.supply];
    NewEntries(s.tasks.scans, ScanOwner, jobs, s.supply, job);
    NewEntries(s.tasks.updates, UpdateOwner, jobs, s.supply, job);
    NewEntries(s.tasks.cleanups, CleanupOwner, jobs, s.supply, job);
    FewerEntries(s.tasks.health, {key}, HealthOwner, jobs, s.supply);
    NewEntries(s.tasks.health - {key}, HealthOwner, jobs, s.supply, job);
    NewBacked(s.books.updates, UpdateKind, jobs, h, s.supply, job);
    NewBacked(s.books.cleanups, CleanupKind, jobs, h, s.supply, job);
    StillUnused(s, AcceptUpdate(s, key, skip));
  }

  lemma AcceptAutoremoveOrderly(s: State, h: Hole, key: Key)
    requires Orderly(s, h) && ShownPlan(s.books, key)
    ensures Orderly(AcceptAutoremove(s, key), h)
    ensures forall id :: Unused(s, id) ==> Unused(AcceptAutoremove(s, key), id)
  {
    hide ShownPlan, CleanupTuple, Entries, Backed, Unused, CancelJobs;
    var jobs := CancelJobs(s.jobs, TaskOf(s.tasks.health, key));
    CancelOrderly(s, h, TaskOf(s.tasks.health, key));
    var job := AcceptAutoremove(s, key).jobs[s.supply];
    NewEntries(s.tasks.scans, ScanOwner, jobs, s.supply, job);
    NewEntries(s.tasks.updates, UpdateOwner, jobs, s.supply, job);
    NewEntries(s.tasks.cleanups, CleanupOwner, jobs, s.supply, job);
    FewerEntries(s.tasks.health, {key}, HealthOwner, jobs, s.supply);
    NewEntries(s.tasks.health - {key}, HealthOwner, jobs, s.supply, job);
    NewBacked(s.books.updates, UpdateKind, jobs, h, s.supply, job);
    NewBacked(s.books.cleanups, CleanupKind, jobs, h, s.supply, job);
    StillUnused(s, AcceptAutoremove(s, key));
  }

  lemma ClaimHealthOrderly(s: State, h: Hole, key: Key, source: HealthSource)
    requires Orderly(s, h)
    ensures Orderly(ClaimHealth(s, key, source), h) && Unused(ClaimHealth(s, key, source), s.supply)
    ensures forall id :: Unused(s, id) ==> Unused(ClaimHealth(s, key, source), id)
  {
  }

  /** A task under an identity that was drawn before and is still unused. */
  lemma LateEntries(t: map<Key, nat>, o: Owner, jobs: Jobs, supply: nat, id: nat, job: Job)
    requires Entries(t, o, jobs, supply) && Unlisted(t, id) && id < supply
    ensures Entries(t, o, jobs[id := job], supply)
    ensures JobOwner(job) == o ==> Entries(t[job.key := id], o, jobs[id := job], supply)
  {
  }

  lemma LaunchHealthOrderly(s: State, h: Hole, key: Key, id: nat, source: HealthSource, created: bool)
    requires Orderly(s, h) && Unused(s, id)
    ensures Orderly(LaunchHealth(s, key, id, source, created), h)
  {
    hide Entries, Backed, OwnsHealth, Unlisted;
    var job := HealthJob(key, false, source);
    LateEntries(s.tasks.scans, ScanOwner, s.jobs, s.supply, id, job);
    LateEntries(s.tasks.updates, UpdateOwner, s.jobs, s.supply, id, job);
    LateEntries(s.tasks.cleanups, CleanupOwner, s.jobs, s.supply, id, job);
    LateEntries(s.tasks.health, HealthOwner, s.jobs, s.supply, id, job);
    NewBacked(s.books.updates, UpdateKind, s.jobs, h, id, job);
    NewBacked(s.books.cleanups, CleanupKind, s.jobs, h, id, job);
  }

  lemma LaunchedUnused(s: State, key: Key, id: nat, source: HealthSource, created: bool)
    ensures forall other :: Unused(s, other) && other != id ==> Unused(LaunchHealth(s, key, id, source, created), other)
  {
    hide OwnsHealth;
  }

  lemma PressRestoreOrderly(s: State, h: Hole, key: Key, created: bool)
    requires Orderly(s, h)
    ensures Orderly(PressRestore(s, key, created), h)
    ensures forall id :: Unused(s, id) ==> Unused(PressRestore(s, key, created), id)
  {
    hide RestoreBlocked, Entries, Backed, Unused;
    var job := RestoreJob(key, false, Validating);
    if RestoreBlocked(s.books, key.vmid) {
    } else if created {
      NewEntries(s.tasks.scans, ScanOwner, s.jobs, s.supply, job);
      NewEntries(s.tasks.updates, UpdateOwner, s.jobs, s.supply, job);
      NewEntries(s.tasks.cleanups, CleanupOwner, s.jobs, s.supply, job);
      NewEntries(s.tasks.health, HealthOwner, s.jobs, s.supply, job);
      NewBacked(s.books.updates, UpdateKind, s.jobs, h, s.supply, job);
      NewBacked(s.books.cleanups, CleanupKind, s.jobs, h, s.supply, job);
      StillUnused(s, PressRestore(s, key, created));
    } else {
      SameOrder(s, PressRestore(s, key, created), h);
    }
  }

  lemma StartEasyUpdateOrderly(
    s: State, h: Hole, key: Key, expected: Option<nat>, skip: bool, snapshotCreateRunning: bool, follow: bool)
    requires Orderly(s, h)
    ensures Orderly(StartEasyUpdate(s, key, expected, skip, snapshotCreateRunning, follow), h)
    ensures forall id :: Unused(s, id) ==> Unused(StartEasyUpdate(s, key, expected, skip, snapshotCreateRunning, follow), id)
  {
    hide Orderly, Unused, AcceptUpdate, MutationRefusal, ReviewedPlan;
    if EasyUpdatePrechecks(s, key, expected, skip, snapshotCreateRunning) {
      var confirmed := ConfirmReview(s, key, s.books.records[key].token);
      SameOrder(s, confirmed, h);
      if UpdateRefusal(confirmed, key, true, key.vmid in s.coordinator.snapshotGranted, skip).None? {
        AcceptUpdateOrderly(confirmed, h, key, skip);
        SameOrder(AcceptUpdate(confirmed, key, skip), StartEasyUpdate(s, key, expected, skip, snapshotCreateRunning, follow), h);
      }
    }
  }

  /** Only these parts of the state matter. */
  lemma SameOrder(s: State, s': State, h: Hole)
    requires s'.jobs == s.jobs && s'.tasks == s.tasks && s.supply <= s'.supply
    requires s'.books.updates == s.books.updates && s'.books.cleanups == s.books.cleanups
    ensures Orderly(s, h) ==> Orderly(s', h)
    ensures forall id :: Unused(s, id) ==> Unused(s', id)
  {
  }

  lemma StartHealthOrderly(s: State, h: Hole, key: Key, targetIsRunning: bool, created: bool)
    requires Orderly(s, h)
    ensures Orderly(StartHealth(s, key, targetIsRunning, created), h)
    ensures forall id :: Unused(s, id) ==> Unused(StartHealth(s, key, targetIsRunning, created), id)
  {
    hide Orderly, Unused, ClaimHealth, LaunchHealth, ScanRefusal;
    if ScanRefusal(s, key, targetIsRunning).None? {
      ClaimHealthOrderly(s, h, key, FromButton);
      LaunchHealthOrderly(ClaimHealth(s, key, FromButton), h, key, s.supply, FromButton, created);
      LaunchedUnused(ClaimHealth(s, key, FromButton), key, s.supply, FromButton, created);
      assert forall id :: Unused(s, id) ==> id != s.supply by { UnusedIsOld(s); }
    }
  }

  lemma UnusedIsOld(s: State)
    ensures forall id :: Unused(s, id) ==> id != s.supply
  {
  }

  lemma DispatchOrderly(s: State, h: Hole, call: Call)
    requires Orderly(s, h)
    ensures Orderly(Dispatch(s, call), h)
    ensures forall id :: Unused(s, id) ==> Unused(Dispatch(s, call), id)
  {
    hide Orderly, Unused, AcceptScan, AcceptUpdate, AcceptAutoremove, StartHealth, PressRestore, StartEasyUpdate;
    hide BusyAt, Reviewable, ReviewedPlan, ShownPlan;
    match call
    case PressScan(key, targetIsRunning) => AcceptScanOrderly(s, h, key);
    case PressUpdate(key, targetIsRunning, permission) =>
      if UpdateRefusal(s, key, targetIsRunning, permission, false).None? {
        AcceptUpdateOrderly(s, h, key, false);
      }
    case PressAutoremove(key, targetIsRunning, permission) =>
      if AutoremoveRefusal(s, key, targetIsRunning, permission).None? {
        AcceptAutoremoveOrderly(s, h, key);
      }
    case PressHealth(key, targetIsRunning, created) => StartHealthOrderly(s, h, key, targetIsRunning, created);
    case PressReview(key, token) => SameOrder(s, MarkViewed(s, key, token), h);
    case PressApprove(key) => SameOrder(s, ConfirmViewed(s, key), h);
    case PressRestoreButton(key, created) => PressRestoreOrderly(s, h, key, created);
    case EasyUpdate(key, expected, skip, snapshotCreateRunning, follow) =>
      StartEasyUpdateOrderly(s, h, key, expected, skip, snapshotCreateRunning, follow);
  }

  lemma {:induction false} ListenOrderly(s: State, h: Hole, calls: seq<Call>)
    requires Orderly(s, h)
    ensures Orderly(Listen(s, calls), h)
    ensures forall id :: Unused(s, id) ==> Unused(Listen(s, calls), id)
    decreases |calls|
  {
    hide Orderly, Unused, Dispatch;
    if calls != [] {
      DispatchOrderly(s, h, calls[0]);
      ListenOrderly(Dispatch(s, calls[0]), h, calls[1..]);
    }
  }

  // ----- the end of an attempt

  lemma EndJobOrderly(s: State, id: nat)
    requires Orderly(s, NoHole) && id in s.jobs
    ensures s.jobs[id].MutationJob? ==> Orderly(EndJob(s, id), Ending(s.jobs[id].attempt.kind, s.jobs[id].key, id))
    ensures !s.jobs[id].MutationJob? ==> Orderly(EndJob(s, id), NoHole)
  {
    forall kind, k, other: nat ensures other != id && Carried(s.jobs, kind, k, other) ==> Carried(s.jobs - {id}, kind, k, other) {
    }
  }

  /** An attempt whose record is no longer its own leaves nothing to finish. */
  lemma UnownedOrderly(s: State, kind: MutationKind, key: Key, id: nat)
    requires Orderly(s, Ending(kind, key, id)) && !OwnsMutation(s.books, kind, key, id)
    ensures Orderly(s, NoHole)
  {
  }

  lemma SetRecordOrderly(s: State, kind: MutationKind, key: Key, id: nat, record: UpdateRecord)
    requires Orderly(s, Ending(kind, key, id)) && !record.status.Running?
    ensures Orderly(SetMutationRecord(s, kind, key, record), NoHole)
    ensures forall other :: Unused(s, other) ==> Unused(SetMutationRecord(s, kind, key, record), other)
  {
  }

  lemma ForgetTaskOrderly(s: State, h: Hole, kind: MutationKind, key: Key)
    requires Orderly(s, h)
    ensures Orderly(s.(tasks := ForgetTask(s.tasks, kind, key)), h)
  {
  }

  lemma FinishOrderly(
    s: State, kind: MutationKind, key: Key, id: nat, record: UpdateRecord, claimHealth: bool, l: Listeners, created: bool)
    requires Orderly(s, Ending(kind, key, id)) && !record.status.Running?
    ensures Orderly(FinishMutation(s, kind, key, id, record, claimHealth, l, created), NoHole)
  {
    hide Orderly, Unused, OwnsMutation, Listen, SetMutationRecord, Report, ClaimHealth, LaunchHealth, HealthClaimBlocked;
    if !OwnsMutation(s.books, kind, key, id) {
      UnownedOrderly(s, kind, key, id);
    } else {
      var claim := claimHealth && record.status.Succeeded? && !HealthClaimBlocked(s.books, key.vmid);
      var claimed := Claimed(s, kind, key, claim, l.claimed);
      ClaimedOrderly(s, kind, key, id, claim, l.claimed);
      var set' := SetMutationRecord(claimed, kind, key, record);
      SetRecordOrderly(claimed, kind, key, id, record);
      ListenOrderly(set', NoHole, l.published);
      var published := Listen(set', l.published);
      ReportOrderly(published, id, record);
      ListenOrderly(Report(published, id, record), NoHole, l.reported);
      if claim {
        LaunchHealthOrderly(Listen(Report(published, id, record), l.reported), NoHole, key, s.supply, SourceOf(kind), created);
      }
    }
  }

  lemma ReportOrderly(s: State, id: nat, record: UpdateRecord)
    requires Orderly(s, NoHole)
    ensures Orderly(Report(s, id, record), NoHole)
    ensures forall other :: Unused(s, other) ==> Unused(Report(s, id, record), other)
  {
    hide Orderly, Unused;
    SameOrder(s, Report(s, id, record), NoHole);
  }

  lemma ClaimedOrderly(s: State, kind: MutationKind, key: Key, id: nat, claim: bool, calls: seq<Call>)
    requires Orderly(s, Ending(kind, key, id))
    ensures Orderly(Claimed(s, kind, key, claim, calls), Ending(kind, key, id))
    ensures claim ==> Unused(Claimed(s, kind, key, claim, calls), s.supply)
  {
    hide Orderly, Unused, Listen, ClaimHealth, ForgetTask;
    var forgotten := s.(tasks := ForgetTask(s.tasks, kind, key));
    ForgetTaskOrderly(s, Ending(kind, key, id), kind, key);
    ClaimHealthOrderly(forgotten, Ending(kind, key, id), key, SourceOf(kind));
    ListenOrderly(ClaimHealth(forgotten, key, SourceOf(kind)), Ending(kind, key, id), calls);
  }

  lemma PublishOrderly(s: State, h: Hole, key: Key, observed: Option<seq<RemovablePackage>>, begun: nat, presented: bool)
    requires Orderly(s, h)
    ensures Orderly(PublishCleanup(s, key, observed, begun, presented), h)
  {
    hide Orderly, Unused, Forgets;
    SameOrder(s, PublishCleanup(s, key, observed, begun, presented), h);
  }

  lemma ForgetOrderly(s: State, h: Hole, job: Job)
    requires Orderly(s, h) && job.MutationJob?
    ensures Orderly(ForgetCandidates(s, job), h)
  {
    hide Orderly, PublishCleanup;
    PublishOrderly(s, h, job.key, None, |s.past.log|, true);
  }

  /** The same task, further on. */
  lemma MovedOrderly(s: State, h: Hole, id: nat, job: Job)
    requires Orderly(s, h) && id in s.jobs && job.key == s.jobs[id].key && JobOwner(job) == JobOwner(s.jobs[id])
    ensures Orderly(s.(jobs := s.jobs[id := job]), h)
  {
    var jobs := s.jobs[id := job];
    forall kind, k, other: nat ensures Carried(s.jobs, kind, k, other) ==> Carried(jobs, kind, k, other) {
    }
  }

  /** What a turn of a consistent attempt never does: change its kind, or end in a record that still runs. */
  predicate Concludes(kind: MutationKind, turn: Turn) {
    match turn
    case Proceed(next, _) => next.kind == kind
    case Settle(record, _) => !record.status.Running?
    case Abort(record) => !record.status.Running?
    case Observed(record, _) => !record.status.Running?
    case Interrupted(record) => !record.status.Running?
  }

  lemma FitsConcludes(a: Attempt, w: Snapshot, turn: Turn)
    requires Consistent(a, w) && TurnFits(a, w, turn)
    ensures Concludes(a.kind, turn)
  {
    hide OwnSnapshotName;
  }

  /** An attempt that goes on, or stays for its last look, only moves. */
  lemma StayingOrderly(s: State, id: nat, next: Attempt, updateSlot: set<nat>, past: Past)
    requires Orderly(s, NoHole) && id in s.jobs && s.jobs[id].MutationJob? && next.kind == s.jobs[id].attempt.kind
    ensures Orderly(s.(jobs := s.jobs[id := s.jobs[id].(attempt := next)], updateSlot := updateSlot, past := past), NoHole)
  {
    hide Orderly, Unused;
    var moved := s.(jobs := s.jobs[id := s.jobs[id].(attempt := next)]);
    MovedOrderly(s, NoHole, id, s.jobs[id].(attempt := next));
    SameOrder(moved, moved.(updateSlot := updateSlot, past := past), NoHole);
  }

  /** An attempt that ends finishes what it owns, whatever it forgets before. */
  lemma ForgettingOrderly(s: State, id: nat, past: Past, record: UpdateRecord, l: Listeners, created: bool)
    requires Orderly(s, NoHole) && id in s.jobs && s.jobs[id].MutationJob? && !record.status.Running?
    ensures var job := s.jobs[id];
      var left := ForgetCandidates(EndJob(s, id).(past := past), job);
      Orderly(FinishMutation(left, job.attempt.kind, job.key, id, record, true, l, created), NoHole)
  {
    hide Orderly, Unused, FinishMutation, ForgetCandidates, EndJob;
    var job := s.jobs[id];
    var h := Ending(job.attempt.kind, job.key, id);
    var ended := EndJob(s, id);
    EndJobOrderly(s, id);
    SameOrder(ended, ended.(past := past), h);
    ForgetOrderly(ended.(past := past), h, job);
    FinishOrderly(ForgetCandidates(ended.(past := past), job), job.attempt.kind, job.key, id, record, true, l, created);
  }

  lemma LookingOrderly(
    s: State, id: nat, observed: Option<seq<RemovablePackage>>, begun: nat, presented: bool, record: UpdateRecord,
    claimHealth: bool, l: Listeners, created: bool)
    requires Orderly(s, NoHole) && id in s.jobs && s.jobs[id].MutationJob? && !record.status.Running?
    ensures var job := s.jobs[id];
      var published := PublishCleanup(EndJob(s, id), job.key, observed, begun, presented);
      Orderly(FinishMutation(published, job.attempt.kind, job.key, id, record, claimHealth, l, created), NoHole)
  {
    hide Orderly, Unused, FinishMutation, PublishCleanup, EndJob;
    var job := s.jobs[id];
    EndJobOrderly(s, id);
    PublishOrderly(EndJob(s, id), Ending(job.attempt.kind, job.key, id), job.key, observed, begun, presented);
    FinishOrderly(PublishCleanup(EndJob(s, id), job.key, observed, begun, presented), job.attempt.kind, job.key, id, record,
                  claimHealth, l, created);
  }

  lemma UnownedEndOrderly(s: State, id: nat, record: UpdateRecord)
    requires Orderly(s, NoHole) && id in s.jobs && s.jobs[id].MutationJob?
    requires !OwnsMutation(s.books, s.jobs[id].attempt.kind, s.jobs[id].key, id)
    ensures Orderly(Report(EndJob(s, id), id, record), NoHole)
  {
    hide Orderly, Unused, OwnsMutation, EndJob;
    EndJobOrderly(s, id);
    EndedBooks(s, id);
    UnownedOrderly(EndJob(s, id), s.jobs[id].attempt.kind, s.jobs[id].key, id);
    ReportOrderly(EndJob(s, id), id, record);
  }

  lemma ApplyTurnOrderly(s: State, id: nat, turn: Turn, presented: bool, l: Listeners, created: bool)
    requires Orderly(s, NoHole) && id in s.jobs && s.jobs[id].MutationJob? && Concludes(s.jobs[id].attempt.kind, turn)
    ensures Orderly(ApplyTurn(s, id, turn, presented, l, created), NoHole)
  {
    hide Orderly, FinishMutation, PublishCleanup, ForgetCandidates, Pass, EndJob, OwnsMutation, Report;
    var job := s.jobs[id];
    var a := job.attempt;
    match turn
    case Proceed(next, passed) =>
      StayingOrderly(s, id, next, if a.at.AwaitSlot? then s.updateSlot + {id} else s.updateSlot, Pass(s.past, a, passed));
    case Settle(record, passed) =>
      var past := Pass(s.past, a, passed);
      StayingOrderly(s, id, a.(at := AwaitObservation(record, |past.log|)), s.updateSlot - {id}, past);
      ForgettingOrderly(s, id, past, record, l, created);
    case Abort(record) =>
      ForgettingOrderly(s, id, s.past, record, l, created);
      EndedPast(s, id);
      if !OwnsMutation(s.books, a.kind, job.key, id) {
        UnownedEndOrderly(s, id, record);
      }
    case Observed(record, candidates) =>
      var begun := if a.at.AwaitObservation? then a.at.begun else |s.past.log|;
      LookingOrderly(s, id, candidates, begun, presented, record, true, l, created);
    case Interrupted(record) =>
      LookingOrderly(s, id, None, |s.past.log|, presented, record, false, l, created);
      if !OwnsMutation(s.books, a.kind, job.key, id) {
        UnownedEndOrderly(s, id, record);
      }
  }

  lemma EndedPast(s: State, id: nat)
    ensures EndJob(s, id).(past := s.past) == EndJob(s, id)
  {
  }

  lemma EndedBooks(s: State, id: nat)
    ensures EndJob(s, id).books == s.books
  {
  }

  // ----- the other actions

  lemma FewerRecords(s: State, s': State, h: Hole)
    requires Orderly(s, h) && s'.supply == s.supply && s'.jobs == s.jobs
    requires forall k | k in s'.books.updates :: k in s.books.updates && s'.books.updates[k] == s.books.updates[k]
    requires forall k | k in s'.books.cleanups :: k in s.books.cleanups && s'.books.cleanups[k] == s.books.cleanups[k]
    requires forall k | k in s'.tasks.scans :: k in s.tasks.scans && s'.tasks.scans[k] == s.tasks.scans[k]
    requires forall k | k in s'.tasks.updates :: k in s.tasks.updates && s'.tasks.updates[k] == s.tasks.updates[k]
    requires forall k | k in s'.tasks.cleanups :: k in s.tasks.cleanups && s'.tasks.cleanups[k] == s.tasks.cleanups[k]
    requires forall k | k in s'.tasks.health :: k in s.tasks.health && s'.tasks.health[k] == s.tasks.health[k]
    ensures Orderly(s', h)
  {
  }

  lemma PruneOrderly(s: State, current: set<Key>)
    requires Orderly(s, NoHole)
    ensures Orderly(Prune(s, current), NoHole)
  {
    hide Orderly, CancelJobs, PruneTargets, PrunedIds;
    var ids := PrunedIds(s.tasks, PruneTargets(s.books, current));
    CancelOrderly(s, NoHole, ids);
    FewerRecords(s.(jobs := CancelJobs(s.jobs, ids)), Prune(s, current), NoHole);
  }

  lemma StopOrderly(s: State, running: set<Key>)
    requires Orderly(s, NoHole)
    ensures Orderly(InvalidateNonRunning(s, running), NoHole)
  {
    hide Orderly, CancelJobs, StoppedTargets, TasksOf, HadEvidence;
    var stale := StoppedTargets(s.books, s.tasks, running);
    var ids := TasksOf(s.tasks.scans, stale) + TasksOf(s.tasks.health, stale);
    CancelOrderly(s, NoHole, ids);
    FewerRecords(s.(jobs := CancelJobs(s.jobs, ids)), InvalidateNonRunning(s, running), NoHole);
  }

  lemma FinishScanOrderly(s: State, key: Key, id: nat, outcome: ScanRecord)
    requires Orderly(s, NoHole)
    ensures Orderly(FinishScan(s, key, id, outcome), NoHole)
  {
    hide Orderly, OwnsScan;
    FewerRecords(s, FinishScan(s, key, id, outcome), NoHole);
  }

  lemma WakeScanOrderly(s: State, id: nat, reply: ScanReply, presented: bool)
    requires Orderly(s, NoHole) && id in s.jobs && s.jobs[id].ScanJob?
    ensures Orderly(WakeScan(s, id, reply, presented), NoHole)
  {
    hide Orderly, Unused, FinishScan, PublishCleanup, EndJob, OwnsScan;
    var job := s.jobs[id];
    var ended := EndJob(s, id);
    EndJobOrderly(s, id);
    if !reply.ScanCancelled? {
      match job.position
      case ScanSlot =>
        MovedOrderly(s, NoHole, id, job.(position := ScanHelper));
        SameOrder(s.(jobs := s.jobs[id := job.(position := ScanHelper)]),
                  s.(jobs := s.jobs[id := job.(position := ScanHelper)], scanSlots := s.scanSlots + {id}), NoHole);
        FinishScanOrderly(ended, job.key, id, ScanFailed(id, ExecutionFailed));
      case ScanHelper =>
        if reply.Scanned? {
          MovedOrderly(s, NoHole, id, job.(position := ScanCleanup(reply.packages, |s.past.log|)));
        } else {
          FinishScanOrderly(ended, job.key, id, ScanFailed(id, if reply.ScanRaised? then reply.failure else ExecutionFailed));
        }
      case ScanCleanup(packages, begun) =>
        var observed := if reply.CleanupPlanned? then Some(reply.removable) else None;
        var drawn := ended.(supply := s.supply + 1);
        EndedSupply(s, id);
        SameOrder(ended, drawn, NoHole);
        PublishOrderly(drawn, NoHole, job.key, observed, begun, presented);
        var published := PublishCleanup(drawn, job.key, observed, begun, presented);
        var noted := published.(past := Append(published.past, ScanPublished(job.key, s.supply, packages)));
        SameOrder(published, noted, NoHole);
        FinishScanOrderly(noted, job.key, id, ScanSuccess(id, packages, s.supply, false));
    }
  }

  lemma EndedSupply(s: State, id: nat)
    ensures EndJob(s, id).supply == s.supply
  {
  }

  lemma FinishHealthOrderly(s: State, key: Key, id: nat, outcome: HealthOutcome)
    requires Orderly(s, NoHole)
    ensures Orderly(FinishHealth(s, key, id, outcome), NoHole)
  {
    hide OwnsHealth;
  }

  lemma WakeHealthOrderly(s: State, id: nat, reply: HealthReply)
    requires Orderly(s, NoHole) && id in s.jobs && s.jobs[id].HealthJob?
    ensures Orderly(WakeHealth(s, id, reply), NoHole)
  {
    hide Orderly, FinishHealth, EndJob;
    EndJobOrderly(s, id);
    if reply.Checked? {
      FinishHealthOrderly(EndJob(s, id), s.jobs[id].key, id, reply.outcome);
    }
  }

  lemma FinishRestoreOrderly(s: State, id: nat, key: Key, uncertain: bool)
    requires Orderly(s, NoHole) && id in s.jobs && s.jobs[id].RestoreJob?
    ensures Orderly(FinishRestore(s, id, key, uncertain), NoHole)
  {
    hide Orderly, Unused;
    EndJobOrderly(s, id);
    SameOrder(EndJob(s, id), FinishRestore(s, id, key, uncertain), NoHole);
  }

  lemma DiscardOrderly(s: State, key: Key)
    requires Orderly(s, NoHole)
    ensures Orderly(InvalidateRestoreTarget(s, key), NoHole)
  {
    hide Orderly, CancelJobs, TaskOf;
    CancelOrderly(s, NoHole, TaskOf(s.tasks.health, key));
    FewerRecords(s.(jobs := CancelJobs(s.jobs, TaskOf(s.tasks.health, key))), InvalidateRestoreTarget(s, key), NoHole);
  }

  lemma WakeRestoreOrderly(s: State, id: nat, reply: RestoreReply)
    requires Orderly(s, NoHole) && id in s.jobs && s.jobs[id].RestoreJob?
    ensures Orderly(WakeRestore(s, id, reply), NoHole)
  {
    hide Orderly, FinishRestore;
    var job := s.jobs[id];
    FinishRestoreOrderly(s, id, job.key, true);
    FinishRestoreOrderly(s, id, job.key, false);
    DiscardOrderly(s, job.key);
    MovedOrderly(InvalidateRestoreTarget(s, job.key), NoHole, id, job.(stage := Submitting(false)));
    MovedOrderly(s, NoHole, id, job.(stage := Watching));
  }

  lemma RunFollowerOrderly(s: State, id: nat)
    requires Orderly(s, NoHole) && id in s.followers
    ensures Orderly(RunFollower(s, id), NoHole)
  {
    hide Orderly, Unused, Decide, AcceptAutoremove, MutationRefusal, ShownPlan;
    var f := s.followers[id];
    var left := s.(followers := s.followers - {id});
    SameOrder(s, left, NoHole);
    SameOrder(s, s.(followers := s.followers[id := f.(parked := true, seen := s.version)]), NoHole);
    if AutoremoveRefusal(s, f.key, true, true).None? {
      AcceptAutoremoveOrderly(left, NoHole, f.key);
      var started := AcceptAutoremove(left, f.key);
      SameOrder(started, started.(past := Append(started.past, AutoremoveFollowed(id, f.attempt, s.supply))), NoHole);
    }
  }

  lemma EnterOrderly(s: State, id: nat)
    requires Orderly(s, NoHole) && CanEnter(s, id)
    ensures Orderly(Enter(s, id), NoHole)
  {
    hide Orderly, Unused, PostedPast, Append;
    var job := s.jobs[id];
    MovedOrderly(s, NoHole, id, Enter(s, id).jobs[id]);
    SameOrder(s.(jobs := s.jobs[id := Enter(s, id).jobs[id]]), Enter(s, id), NoHole);
  }

  lemma StepOrderly(s: State, action: Action)
    requires Enabled(s, action) && Inv(s, NoHole) && Orderly(s, NoHole)
    ensures Orderly(Step(s, action), NoHole)
  {
    hide Inv, Orderly, Unused, Dispatch, Prune, InvalidateNonRunning, Enter, WakeScan, ApplyTurn, WakeHealth, WakeRestore;
    hide RunFollower, Possible, Advance, Concludes, WorldMove;
    match action
    case Press(call) => DispatchOrderly(s, NoHole, call);
    case Refresh(coordinator) => SameOrder(s, Step(s, action), NoHole);
    case PruneMissing(current) => PruneOrderly(s, current);
    case ObserveRunning(running) => StopOrderly(s, running);
    case CancelTask(id) => MovedOrderly(s, NoHole, id, s.jobs[id].(cancelled := true));
    case WorldMoves(id, snapshot) => SameOrder(s, Step(s, action), NoHole);
    case EnterExecutor(id) => EnterOrderly(s, id);
    case ScanWakes(id, reply, presented) => WakeScanOrderly(s, id, reply, presented);
    case AttemptWakes(id, reply, generated, presented, l, created) =>
      AdvanceConcludes(s, id, reply, generated);
      ApplyTurnOrderly(s, id, Advance(s.jobs[id].attempt, reply, generated), presented, l, created);
    case HealthWakes(id, reply) => WakeHealthOrderly(s, id, reply);
    case RestoreWakes(id, reply) => WakeRestoreOrderly(s, id, reply);
    case FollowerWakes(id) => RunFollowerOrderly(s, id);
    case FollowerEnds(id) => SameOrder(s, Step(s, action), NoHole);
  }

  lemma AdvanceConcludes(s: State, id: nat, reply: Reply, generated: string)
    requires Inv(s, NoHole) && id in s.jobs && s.jobs[id].MutationJob? && id in s.past.snapshots
    requires Possible(s.jobs[id].attempt, s.past.snapshots[id], reply) && OwnSnapshotName(generated)
    ensures Concludes(s.jobs[id].attempt.kind, Advance(s.jobs[id].attempt, reply, generated))
  {
    hide Inv, Possible, Advance, Consistent, TurnFits, Concludes, OwnSnapshotName, Accounted;
    LiveAttempt(s, id);
    AdvanceFits(s.jobs[id].attempt, s.past.snapshots[id], reply, generated);
    FitsConcludes(s.jobs[id].attempt, s.past.snapshots[id], Advance(s.jobs[id].attempt, reply, generated));
  }

  lemma {:induction false} RunOrderly(s: State, actions: seq<Action>)
    requires Inv(s, NoHole) && Orderly(s, NoHole)
    ensures Orderly(Run(s, actions), NoHole)
    decreases |actions|
  {
    hide Inv, Orderly, Enabled, Step;
    if actions != [] {
      if Enabled(s, actions[0]) {
        StepKeeps(s, actions[0]);
        StepOrderly(s, actions[0]);
      }
      RunOrderly(Do(s, actions[0]), actions[1..]);
    }
  }

  lemma OrderHolds(configured: bool, c: Coordinator, actions: seq<Action>)
    ensures Orderly(Reached(configured, c, actions), NoHole)
  {
    hide Inv, Run;
    FreshKeeps(configured, c);
    RunOrderly(Fresh(configured, c), actions);
  }

  // ----- what it means

  /**
   In no reachable state does a target read RUNNING for an Update or Autoremove that nobody carries out: the live
   task of that very attempt is there, so it will be resumed until it ends and writes its result.
   */
  lemma RunningIsCarried(configured: bool, c: Coordinator, actions: seq<Action>, key: Key)
    ensures var s := Reached(configured, c, actions);
      && (key in s.books.updates && s.books.updates[key].status.Running? ==>
        Carried(s.jobs, UpdateKind, key, s.books.updates[key].attempt))
      && (key in s.books.cleanups && s.books.cleanups[key].status.Running? ==>
        Carried(s.jobs, CleanupKind, key, s.books.cleanups[key].attempt))
  {
    hide Reached, Filed, Carried;
    OrderHolds(configured, c, actions);
  }
}
