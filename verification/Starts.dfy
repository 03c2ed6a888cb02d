/**
 What a start of a Scan, Update, Autoremove, Health check or Restore does to the records: exactly when it is
 accepted, which refusal it gives first otherwise, and what has changed on its own target and nowhere else.
 */
module Starts {
  import opened Models
  import opened Attempts
  import opened History
  import opened ManagerState
  import opened ManagerMachine
  import opened ManagerInvariant
  import opened BooksProofs
  import opened Replies

  // ----- comparing two states target by target

  predicate SameAt<V(==)>(m: map<Key, V>, m': map<Key, V>, k: Key) {
    (k in m <==> k in m') && (k in m && k in m' ==> m[k] == m'[k])
  }

  /** Everything known about this target is as it was. */
  predicate SameBooksAt(b: Books, b': Books, k: Key) {
    && SameAt(b.records, b'.records, k) && SameAt(b.updates, b'.updates, k) && SameAt(b.cleanups, b'.cleanups, k)
    && SameAt(b.evidence, b'.evidence, k) && SameAt(b.viewed, b'.viewed, k) && SameAt(b.health, b'.health, k)
    && (k in b.fenced <==> k in b'.fenced) && (k in b.reserved <==> k in b'.reserved)
  }

  predicate SameTasksAt(t: Tasks, t': Tasks, k: Key) {
    && SameAt(t.scans, t'.scans, k) && SameAt(t.updates, t'.updates, k) && SameAt(t.cleanups, t'.cleanups, k)
    && SameAt(t.health, t'.health, k)
  }

  ghost predicate OthersSame(s: State, s': State, key: Key) {
    forall k: Key | k != key :: SameBooksAt(s.books, s'.books, k) && SameTasksAt(s.tasks, s'.tasks, k)
  }

  predicate SameSections(s: State, s': State) {
    && s'.configured == s.configured && s'.coordinator == s.coordinator
    && s'.scanSlots == s.scanSlots && s'.updateSlot == s.updateSlot && s'.followers == s.followers
  }

  /** One job more, and of the others at most the target's Health check is told to stop. */
  predicate OneMoreJob(s: State, s': State, key: Key, job: Job) {
    && s'.supply == s.supply + 1 && s'.jobs.Keys == s.jobs.Keys + {s.supply} && s'.jobs[s.supply] == job
    && forall id | id in s.jobs && id != s.supply ::
      s'.jobs[id] == if key in s.tasks.health && s.tasks.health[key] == id then s.jobs[id].(cancelled := true) else s.jobs[id]
  }

  lemma OneJobTaken(s: State, s': State, key: Key, job: Job)
    requires s'.supply == s.supply + 1 && s'.jobs == CancelJobs(s.jobs, TaskOf(s.tasks.health, key))[s.supply := job]
    ensures OneMoreJob(s, s', key, job)
  {
  }

  /** Nothing at all is under way on this VMID, under any node's key. */
  ghost predicate GuestIdle(b: Books, vmid: int) { forall o: Owner, k: Key :: Busy(b, o, k) ==> k.vmid != vmid }

  lemma IdleExactly(b: Books, vmid: int)
    ensures BusyAt(b, vmid) <==> !GuestIdle(b, vmid)
  {
    hide BusyAt, Busy;
    BusyMeansOwned(b, vmid);
  }

  // ----- Scan

  predicate ScanStarted(s: State, s': State, key: Key) {
    && key in s'.books.records && s'.books.records[key] == ScanRunning(s.supply)
    && key !in s'.books.viewed && key !in s'.books.evidence && key !in s'.books.fenced
    && SameAt(s.books.updates, s'.books.updates, key) && SameAt(s.books.cleanups, s'.books.cleanups, key)
    && SameAt(s.books.health, s'.books.health, key) && s'.books.reserved == s.books.reserved
    && key in s'.tasks.scans && s'.tasks.scans[key] == s.supply
    && s'.tasks == s.tasks.(scans := s'.tasks.scans)
    && s'.supply == s.supply + 1 && s'.jobs == s.jobs[s.supply := ScanJob(key, false, ScanSlot)]
    && s'.past == s.past.(log := s.past.log + [ScanAccepted(s.supply, key)]) && s.version < s'.version
  }

  /** A Scan starts exactly on a running guest nothing is under way on; a refused start changes nothing. */
  lemma ScanStartsExactly(s: State, key: Key, targetIsRunning: bool)
    ensures ScanRefusal(s, key, targetIsRunning) ==
      if !s.configured then Some(ExecutionFailed)
      else if !targetIsRunning then Some(ScanGuestUnavailable)
      else if !GuestIdle(s.books, key.vmid) then Some(ScanManagerBusy)
      else None
    ensures var s' := StartScan(s, key, targetIsRunning);
      if s.configured && targetIsRunning && GuestIdle(s.books, key.vmid) then
        ScanStarted(s, s', key) && OthersSame(s, s', key) && SameSections(s, s')
      else s' == s
  {
    hide BusyAt, GuestIdle;
    IdleExactly(s.books, key.vmid);
  }

  // ----- Update

  predicate Blank(a: Attempt, kind: MutationKind, id: nat, skip: bool) {
    && a.kind == kind && a.id == id && a.skip == skip && a.at == AwaitSlot && a.name == None
    && !a.started && !a.submitted && !a.ready && !a.mutating && a.changed == None
  }

  /** A record that has just begun: running, and claiming nothing yet. */
  predicate Begun(record: UpdateRecord, id: nat, skip: bool) {
    && record.status == Running && record.attempt == id && record.outcome == None && record.snapshotSkipped == skip
    && !record.snapshotRetained && !record.snapshotUncertain && !record.snapshotCleanupFailed
    && record.snapshotName == None && record.liveness == None && record.changedCount == None
  }

  /** The accepting event and an empty snapshot ledger are all that is added to the past. */
  predicate Admitted(past: Past, past': Past, id: nat, grant: Event) {
    && past'.log == past.log + [grant]
    && past'.grants == past.grants[id := grant] && past'.snapshots == past.snapshots[id := NO_SNAPSHOT]
    && past'.reports == past.reports && past'.owners == past.owners
  }

  predicate UpdateStarted(s: State, s': State, key: Key, skip: bool)
    requires key in s.books.records && s.books.records[key].ScanSuccess?
  {
    var scan := s.books.records[key];
    && key in s'.books.records && s'.books.records[key] == ScanNever
    && key in s'.books.updates && Begun(s'.books.updates[key], s.supply, skip)
    && key !in s'.books.viewed && key !in s'.books.evidence && key !in s'.books.health
    && SameAt(s.books.cleanups, s'.books.cleanups, key)
    && s'.books.fenced == s.books.fenced && s'.books.reserved == s.books.reserved
    && key in s'.tasks.updates && s'.tasks.updates[key] == s.supply && key !in s'.tasks.health
    && s'.tasks.scans == s.tasks.scans && s'.tasks.cleanups == s.tasks.cleanups
    && s.supply in s'.jobs && s'.jobs[s.supply].MutationJob?
    && var a := s'.jobs[s.supply].attempt;
    && OneMoreJob(s, s', key, MutationJob(key, false, a))
    && Blank(a, UpdateKind, s.supply, skip) && SameRows(a.plan, UpgradePlanned(scan.packages))
    && Admitted(s.past, s'.past, s.supply, UpdateAccepted(s.supply, key, scan.token, scan.packages, skip))
    && s.version < s'.version
  }

  /** The plan of an Update: a successful, non-empty scan whose own token was confirmed. */
  predicate Confirmed(b: Books, key: Key) {
    key in b.records && b.records[key].ScanSuccess? && b.records[key].packages != [] && b.records[key].reviewed
  }

  /**
   An Update starts exactly on a running guest nothing is under way on, with permission to snapshot it unless that is
   skipped, and on a confirmed plan. Otherwise nothing changes and the first of these that fails is the outcome.
   */
  lemma UpdateStartsExactly(s: State, key: Key, targetIsRunning: bool, permission: bool, skip: bool)
    ensures UpdateRefusal(s, key, targetIsRunning, permission, skip) ==
      if !s.configured then Some(HelperOutdated)
      else if !targetIsRunning then Some(GuestUnavailable)
      else if !skip && !permission then Some(SnapshotFailed)
      else if !GuestIdle(s.books, key.vmid) then Some(PackageManagerBusy)
      else if !Confirmed(s.books, key) then Some(PlanFailed)
      else None
    ensures var s' := StartUpdate(s, key, targetIsRunning, permission, skip);
      if s.configured && targetIsRunning && (skip || permission) && GuestIdle(s.books, key.vmid) && Confirmed(s.books, key) then
        UpdateStarted(s, s', key, skip) && OthersSame(s, s', key) && SameSections(s, s')
      else s' == s
  {
    hide BusyAt, GuestIdle, UpdateStarted, OthersSame, SameSections, AcceptUpdate;
    IdleExactly(s.books, key.vmid);
    if Confirmed(s.books, key) {
      UpdateAcceptedExactly(s, key, skip);
    }
  }

  lemma UpdateOthers(s: State, key: Key, skip: bool)
    requires ReviewedPlan(s.books, key)
    ensures OthersSame(s, AcceptUpdate(s, key, skip), key)
  {
    hide CancelJobs, PlanTuple;
  }

  lemma UpdateAcceptedExactly(s: State, key: Key, skip: bool)
    requires ReviewedPlan(s.books, key)
    ensures var s' := AcceptUpdate(s, key, skip);
      UpdateStarted(s, s', key, skip) && OthersSame(s, s', key) && SameSections(s, s')
  {
    hide CancelJobs, PlanTuple, SameRows, OneMoreJob, OthersSame;
    var s' := AcceptUpdate(s, key, skip);
    UpdateOthers(s, key, skip);
    PlanExactly(s'.jobs[s.supply].attempt.plan, UpgradePlanned(s.books.records[key].packages));
    OneJobTaken(s, s', key, s'.jobs[s.supply]);
  }

  // ----- Autoremove

  predicate Displayed(b: Books, key: Key) { key in b.evidence && b.evidence[key].candidates != [] }

  predicate AutoremoveStarted(s: State, s': State, key: Key)
    requires key in s.books.evidence
  {
    var shown := s.books.evidence[key];
    && key in s'.books.cleanups && Begun(s'.books.cleanups[key], s.supply, false)
    && key !in s'.books.evidence && key !in s'.books.health
    && SameAt(s.books.records, s'.books.records, key) && SameAt(s.books.updates, s'.books.updates, key)
    && SameAt(s.books.viewed, s'.books.viewed, key)
    && s'.books.fenced == s.books.fenced && s'.books.reserved == s.books.reserved
    && key in s'.tasks.cleanups && s'.tasks.cleanups[key] == s.supply && key !in s'.tasks.health
    && s'.tasks.scans == s.tasks.scans && s'.tasks.updates == s.tasks.updates
    && s.supply in s'.jobs && s'.jobs[s.supply].MutationJob?
    && var a := s'.jobs[s.supply].attempt;
    && OneMoreJob(s, s', key, MutationJob(key, false, a))
    && Blank(a, CleanupKind, s.supply, false) && SameRows(a.plan, RemovalPlanned(shown.candidates))
    && Admitted(s.past, s'.past, s.supply, CleanupAccepted(s.supply, key, shown))
    && s.version < s'.version
  }

  /** An Autoremove starts exactly on a running idle guest, with snapshot permission, on a displayed cleanup plan. */
  lemma AutoremoveStartsExactly(s: State, key: Key, targetIsRunning: bool, permission: bool)
    ensures AutoremoveRefusal(s, key, targetIsRunning, permission) ==
      if !s.configured then Some(HelperOutdated)
      else if !targetIsRunning then Some(GuestUnavailable)
      else if !permission then Some(SnapshotFailed)
      else if !GuestIdle(s.books, key.vmid) then Some(PackageManagerBusy)
      else if !Displayed(s.books, key) then Some(PlanFailed)
      else None
    ensures var s' := StartAutoremove(s, key, targetIsRunning, permission);
      if s.configured && targetIsRunning && permission && GuestIdle(s.books, key.vmid) && Displayed(s.books, key) then
        AutoremoveStarted(s, s', key) && OthersSame(s, s', key) && SameSections(s, s')
      else s' == s
  {
    hide BusyAt, GuestIdle, AutoremoveStarted, OthersSame, SameSections, AcceptAutoremove;
    IdleExactly(s.books, key.vmid);
    if Displayed(s.books, key) {
      AutoremoveAcceptedExactly(s, key);
    }
  }

  lemma AutoremoveAcceptedExactly(s: State, key: Key)
    requires ShownPlan(s.books, key)
    ensures var s' := AcceptAutoremove(s, key);
      AutoremoveStarted(s, s', key) && OthersSame(s, s', key) && SameSections(s, s')
  {
    hide CancelJobs, CleanupTuple, SameRows, OneMoreJob;
    var s' := AcceptAutoremove(s, key);
    PlanExactly(s'.jobs[s.supply].attempt.plan, RemovalPlanned(s.books.evidence[key].candidates));
    OneJobTaken(s, s', key, s'.jobs[s.supply]);
  }

  // ----- Health

  /** The check reads as running from the claim on; without a task the claim is taken back and nothing remains. */
  predicate HealthStarted(s: State, s': State, key: Key, created: bool) {
    && s'.books == s.books.(health := s'.books.health)
    && s'.supply == s.supply + 1 && s.version < s'.version
    && s'.past == s.past.(log := s.past.log + [HealthAccepted(s.supply, key)])
    && if created then
         && key in s'.books.health && s'.books.health[key] == HealthRunning(s.supply, FromButton)
         && s'.tasks == s.tasks.(health := s.tasks.health[key := s.supply])
         && s'.jobs == s.jobs[s.supply := HealthJob(key, false, FromButton)]
       else key !in s'.books.health && s'.tasks == s.tasks && s'.jobs == s.jobs
  }

  lemma HealthStartsExactly(s: State, key: Key, targetIsRunning: bool, created: bool)
    ensures var s' := StartHealth(s, key, targetIsRunning, created);
      if s.configured && targetIsRunning && GuestIdle(s.books, key.vmid) then
        HealthStarted(s, s', key, created) && OthersSame(s, s', key) && SameSections(s, s')
      else s' == s
  {
    hide BusyAt, GuestIdle;
    IdleExactly(s.books, key.vmid);
  }

  // ----- Restore

  /** A Restore is kept out by everything but a Health check. */
  ghost predicate Restorable(b: Books, vmid: int) {
    forall o: Owner, k: Key :: Busy(b, o, k) && o != HealthOwner ==> k.vmid != vmid
  }

  lemma BlockedExactly(b: Books, vmid: int)
    ensures RestoreBlocked(b, vmid) <==> !Restorable(b, vmid)
  {
    if ReservedAt(b.reserved, vmid) {
      var k :| k in b.reserved && k.vmid == vmid;
      assert Busy(b, RestoreOwner, k);
    }
    if ScanRunningAt(b.records, vmid) {
      var k :| k in b.records && k.vmid == vmid && b.records[k].ScanRunning?;
      assert Busy(b, ScanOwner, k);
    }
    if MutationRunningAt(b.updates, vmid) {
      var k :| k in b.updates && k.vmid == vmid && b.updates[k].status.Running?;
      assert Busy(b, UpdateOwner, k);
    }
    if MutationRunningAt(b.cleanups, vmid) {
      var k :| k in b.cleanups && k.vmid == vmid && b.cleanups[k].status.Running?;
      assert Busy(b, CleanupOwner, k);
    }
  }

  /** The reservation is the only record of a Restore; without a task it is given back. */
  predicate RestoreStarted(s: State, s': State, key: Key, created: bool) {
    && s'.books == s.books.(reserved := s'.books.reserved) && s'.tasks == s.tasks && s.version < s'.version
    && if created then
         && s'.books.reserved == s.books.reserved + {key}
         && s'.supply == s.supply + 1 && s'.jobs == s.jobs[s.supply := RestoreJob(key, false, Validating)]
         && s'.past.log == s.past.log + [RestoreAccepted(s.supply, key)]
         && s'.past == s.past.(log := s'.past.log, owners := s.past.owners[key := s.supply])
       else s'.books.reserved == s.books.reserved && s'.supply == s.supply && s'.jobs == s.jobs && s'.past == s.past
  }

  lemma RestoreStartsExactly(s: State, key: Key, created: bool)
    ensures var s' := PressRestore(s, key, created);
      if Restorable(s.books, key.vmid) then RestoreStarted(s, s', key, created) && SameSections(s, s') else s' == s
  {
    hide RestoreBlocked, Restorable;
    BlockedExactly(s.books, key.vmid);
    assert Restorable(s.books, key.vmid) ==> key !in s.books.reserved by {
      FreeOfRestore(s.books, key);
    }
    assert key !in s.books.reserved ==> s.books.reserved + {key} - {key} == s.books.reserved;
  }

  lemma FreeOfRestore(b: Books, key: Key)
    ensures Restorable(b, key.vmid) ==> key !in b.reserved
  {
    assert Busy(b, RestoreOwner, key) <==> key in b.reserved;
  }

  // ----- the health claim of a finishing attempt

  /** Such a claim is kept out by a Restore, a Scan or a Health check of the VMID and by nothing else. */
  lemma ClaimBlockedExactly(b: Books, vmid: int)
    ensures HealthClaimBlocked(b, vmid) <==>
      exists o: Owner, k: Key :: Busy(b, o, k) && k.vmid == vmid && (o == RestoreOwner || o == ScanOwner || o == HealthOwner)
  {
    if ReservedAt(b.reserved, vmid) {
      var k :| k in b.reserved && k.vmid == vmid;
      assert Busy(b, RestoreOwner, k);
    }
    if ScanRunningAt(b.records, vmid) {
      var k :| k in b.records && k.vmid == vmid && b.records[k].ScanRunning?;
      assert Busy(b, ScanOwner, k);
    }
    if HealthRunningAt(b.health, vmid) {
      var k :| k in b.health && k.vmid == vmid && b.health[k].HealthRunning?;
      assert Busy(b, HealthOwner, k);
    }
  }
}
