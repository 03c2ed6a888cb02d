/** Every call a user or a re-entering listener can make keeps the invariant. */
module ListenerProofs {
  import opened Models
  import opened Attempts
  import opened History
  import opened ManagerState
  import opened ManagerMachine
  import opened ManagerInvariant
  import opened BooksProofs
  import opened TetherProofs
  import opened LedgerProofs
  import opened ProvenanceProofs
  import opened StepProofs

  /** The next identity has never been used. */
  lemma NextIsNew(s: State, h: Hole)
    requires Inv(s, h)
    ensures s.supply !in s.jobs && s.supply !in s.past.grants && s.supply !in s.past.reports && s.supply !in s.followers
    ensures h.Ending? ==> h.id != s.supply
  {
    hide BooksOk, Tethered, SectionsBounded, ProvenanceOk, RestoresSafe, FollowersWatch, StoredReported;
  }

  lemma SuppliedLog(s: State, h: Hole)
    requires Inv(s, h)
    ensures LogDated(s.past.log, s.supply)
  {
    hide StateOk, ClientsOk, LogDated, LedgerOk, ProvenanceOk;
  }

  lemma AcceptScanState(s: State, h: Hole, key: Key)
    requires Inv(s, h) && !BusyAt(s.books, key.vmid) && !h.ScanEnding?
    ensures StateOk(AcceptScan(s, key), h)
  {
    hide BooksOk, Tethered, EndingOwned, SectionsBounded, TraceOk, ClientsOk;
    NextIsNew(s, h);
    var s', id := AcceptScan(s, key), s.supply;
    ScanBooksOk(s.books, h, key, id);
    ScanTethers(s.jobs, s.tasks, s.books, s.past.owners, key, id);
    EndingStays(s.jobs, s'.jobs, s.books, s'.books, h);
    NewJobSections(s.jobs, s.scanSlots, s.updateSlot, id, ScanJob(key, false, ScanSlot));
  }

  lemma AcceptScanTrace(s: State, h: Hole, key: Key)
    requires Inv(s, h) && !BusyAt(s.books, key.vmid)
    ensures TraceOk(AcceptScan(s, key), h)
  {
    hide BooksOk, Tethered, EndingOwned, SectionsBounded, Supplied, LedgerOk, ProvenanceOk;
    hide RestoresSafe, FollowersWatch, StoredReported, BusyAt;
    NextIsNew(s, h);
    var s', es := AcceptScan(s, key), [ScanAccepted(s.supply, key)];
    SuppliedGrows(s.supply, s'.supply, s.jobs, s'.jobs, s.followers, s'.followers, s.books, s'.books, s.past, s'.past, es);
    LedgerIdle(s.jobs, s'.jobs, s.past, s'.past, es, h);
    ScanProvenance(s.jobs, s.tasks, s.books, s.past, key, s.supply);
  }

  lemma AcceptScanClients(s: State, h: Hole, key: Key)
    requires Inv(s, h) && !BusyAt(s.books, key.vmid)
    ensures ClientsOk(AcceptScan(s, key), h)
  {
    hide BooksOk, Tethered, EndingOwned, SectionsBounded, LedgerOk, ProvenanceOk;
    hide RestoresSafe, FollowersWatch, StoredReported;
    var s', es := AcceptScan(s, key), [ScanAccepted(s.supply, key)];
    RestoresStay(s.jobs, s'.jobs, s.tasks, s.books, s'.books, s.past, s'.past, es);
    FollowersStay(s, s', es);
    ReportsStay(s.books, s'.books, s.past, s'.past, h);
  }

  lemma AcceptScanKeeps(s: State, h: Hole, key: Key)
    requires Inv(s, h) && !BusyAt(s.books, key.vmid) && !h.ScanEnding?
    ensures Inv(AcceptScan(s, key), h)
  {
    hide AcceptScan, StateOk, TraceOk, ClientsOk;
    AcceptScanState(s, h, key);
    AcceptScanTrace(s, h, key);
    AcceptScanClients(s, h, key);
  }

  // ----- review

  lemma ConfirmReviewState(s: State, h: Hole, key: Key, token: nat)
    requires Inv(s, h) && Reviewable(s.books, key, token) && !h.ScanEnding?
    ensures StateOk(ConfirmReview(s, key, token), h)
  {
    hide BooksOk, Tethered, EndingOwned, SectionsBounded, TraceOk, ClientsOk;
    var s' := ConfirmReview(s, key, token);
    ReviewBooksOk(s.books, h, key);
    ReviewTethers(s.jobs, s.tasks, s.books, s.past.owners, key);
    EndingStays(s.jobs, s'.jobs, s.books, s'.books, h);
  }

  lemma ConfirmReviewTrace(s: State, h: Hole, key: Key, token: nat)
    requires Inv(s, h) && Reviewable(s.books, key, token)
    ensures TraceOk(ConfirmReview(s, key, token), h)
  {
    hide StateOk, ClientsOk, LedgerOk, ProvenanceOk, LogDated;
    var s', es := ConfirmReview(s, key, token), [ReviewConfirmed(key, token)];
    assert LogDated(es, s.supply) by { OneDated(es[0], s.supply); }
    SuppliedGrows(s.supply, s'.supply, s.jobs, s'.jobs, s.followers, s'.followers, s.books, s'.books, s.past, s'.past, es);
    LedgerIdle(s.jobs, s'.jobs, s.past, s'.past, es, h);
    ReviewProvenance(s.jobs, s.books, s.past.log, key, token);
  }

  lemma OneDated(e: Event, supply: nat)
    requires Dated(e, supply)
    ensures LogDated([e], supply)
  {
  }

  lemma ConfirmReviewClients(s: State, h: Hole, key: Key, token: nat)
    requires Inv(s, h) && Reviewable(s.books, key, token)
    ensures ClientsOk(ConfirmReview(s, key, token), h)
  {
    hide BooksOk, Tethered, EndingOwned, SectionsBounded, LedgerOk, ProvenanceOk;
    hide RestoresSafe, FollowersWatch, StoredReported;
    var s', es := ConfirmReview(s, key, token), [ReviewConfirmed(key, token)];
    RestoresStay(s.jobs, s'.jobs, s.tasks, s.books, s'.books, s.past, s'.past, es);
    FollowersStay(s, s', es);
    ReportsStay(s.books, s'.books, s.past, s'.past, h);
  }

  lemma ConfirmReviewKeeps(s: State, h: Hole, key: Key, token: nat)
    requires Inv(s, h) && !h.ScanEnding?
    ensures Inv(ConfirmReview(s, key, token), h)
  {
    hide StateOk, TraceOk, ClientsOk;
    if Reviewable(s.books, key, token) {
      ConfirmReviewState(s, h, key, token);
      ConfirmReviewTrace(s, h, key, token);
      ConfirmReviewClients(s, h, key, token);
    }
  }

  lemma MarkViewedKeeps(s: State, h: Hole, key: Key, token: nat)
    requires Inv(s, h) && !h.ScanEnding?
    ensures Inv(MarkViewed(s, key, token), h)
  {
    hide BooksOk, Tethered, EndingOwned, SectionsBounded, Supplied, LedgerOk, ProvenanceOk;
    hide RestoresSafe, FollowersWatch, StoredReported;
    if Reviewable(s.books, key, token) {
      var s', b, past := MarkViewed(s, key, token), s.books, s.past;
      assert past.log + [] == past.log;
      ViewedBooksOk(b, h, key, token);
      ViewedTethers(s.jobs, s.tasks, b, past.owners, s'.books.viewed);
      EndingStays(s.jobs, s'.jobs, b, s'.books, h);
      SuppliedGrows(s.supply, s.supply, s.jobs, s.jobs, s.followers, s.followers, b, s'.books, past, past, []);
      SilentProvenance(s.jobs, s.jobs, b, s'.books, past.log);
      ViewedRestores(s, h, key, token);
      FollowersStay(s, s', []);
      ReportsStay(b, s'.books, past, past, h);
    }
  }

  lemma ViewedRestores(s: State, h: Hole, key: Key, token: nat)
    requires Inv(s, h) && Reviewable(s.books, key, token)
    ensures RestoresSafe(s.jobs, MarkViewed(s, key, token).books, s.past)
  {
    hide BooksOk, Tethered, EndingOwned, SectionsBounded, LedgerOk, ProvenanceOk;
    hide RestoresSafe, FollowersWatch, StoredReported;
    assert s.past.log + [] == s.past.log;
    RestoresStay(s.jobs, s.jobs, s.tasks, s.books, MarkViewed(s, key, token).books, s.past, s.past, []);
  }

  // ----- Update and Autoremove

  lemma AcceptUpdateState(s: State, h: Hole, key: Key, skip: bool)
    requires Inv(s, h) && !BusyAt(s.books, key.vmid) && ReviewedPlan(s.books, key) && !h.ScanEnding?
    ensures StateOk(AcceptUpdate(s, key, skip), h)
  {
    hide BooksOk, Tethered, EndingOwned, SectionsBounded, TraceOk, ClientsOk;
    NextIsNew(s, h);
    var s', id := AcceptUpdate(s, key, skip), s.supply;
    var a := s'.jobs[id].attempt;
    UpdateBooksOk(s.books, h, key, id, skip);
    UpdateTethers(s.jobs, s.tasks, s.books, s.past.owners, key, skip, a);
    EndingStays(s.jobs, s'.jobs, s.books, s'.books, h);
    CancelSections(s.jobs, s.scanSlots, s.updateSlot, TaskOf(s.tasks.health, key));
    NewJobSections(CancelJobs(s.jobs, TaskOf(s.tasks.health, key)), s.scanSlots, s.updateSlot, id, s'.jobs[id]);
  }

  lemma AcceptUpdateSupplied(s: State, h: Hole, key: Key, skip: bool)
    requires Inv(s, h) && ReviewedPlan(s.books, key)
    ensures var s' := AcceptUpdate(s, key, skip);
      Supplied(s'.supply, s'.jobs, s'.followers, s'.books, s'.past)
  {
    hide StateOk, ClientsOk, LedgerOk, ProvenanceOk;
    NextIsNew(s, h);
    var s' := AcceptUpdate(s, key, skip);
    SuppliedGrows(s.supply, s'.supply, s.jobs, s'.jobs, s.followers, s'.followers, s.books, s'.books, s.past, s'.past,
                  [UpdateAccepted(s.supply, key, s.books.records[key].token, s.books.records[key].packages, skip)]);
  }

  lemma AcceptUpdateTrace(s: State, h: Hole, key: Key, skip: bool)
    requires Inv(s, h) && !BusyAt(s.books, key.vmid) && ReviewedPlan(s.books, key)
    ensures TraceOk(AcceptUpdate(s, key, skip), h)
  {
    hide StateOk, Supplied, LedgerOk, ProvenanceOk, RestoresSafe, FollowersWatch, StoredReported, BusyAt, LogDated;
    NextIsNew(s, h);
    SuppliedLog(s, h);
    AcceptUpdateSupplied(s, h, key, skip);
    var s', id := AcceptUpdate(s, key, skip), s.supply;
    var grant := UpdateAccepted(id, key, s.books.records[key].token, s.books.records[key].packages, skip);
    LedgerAdmits(s.jobs, CancelJobs(s.jobs, TaskOf(s.tasks.health, key)), s.past, id, key, grant, s'.jobs[id].attempt, h);
    UpdateProvenance(s.jobs, s'.jobs, s.books, s.past, key, id, skip);
  }

  lemma AcceptUpdateClients(s: State, h: Hole, key: Key, skip: bool)
    requires Inv(s, h) && !BusyAt(s.books, key.vmid) && ReviewedPlan(s.books, key)
    ensures ClientsOk(AcceptUpdate(s, key, skip), h)
  {
    hide BooksOk, Tethered, EndingOwned, SectionsBounded, LedgerOk, ProvenanceOk;
    hide RestoresSafe, FollowersWatch, StoredReported;
    var s' := AcceptUpdate(s, key, skip);
    var es := [UpdateAccepted(s.supply, key, s.books.records[key].token, s.books.records[key].packages, skip)];
    RestoresStay(s.jobs, s'.jobs, s.tasks, s.books, s'.books, s.past, s'.past, es);
    FollowersStay(s, s', es);
    ReportsStay(s.books, s'.books, s.past, s'.past, h);
  }

  lemma AcceptUpdateKeeps(s: State, h: Hole, key: Key, skip: bool)
    requires Inv(s, h) && !BusyAt(s.books, key.vmid) && ReviewedPlan(s.books, key) && !h.ScanEnding?
    ensures Inv(AcceptUpdate(s, key, skip), h)
  {
    hide AcceptUpdate, StateOk, TraceOk, ClientsOk;
    AcceptUpdateState(s, h, key, skip);
    AcceptUpdateTrace(s, h, key, skip);
    AcceptUpdateClients(s, h, key, skip);
  }

  lemma AcceptAutoremoveState(s: State, h: Hole, key: Key)
    requires Inv(s, h) && !BusyAt(s.books, key.vmid) && ShownPlan(s.books, key) && !h.ScanEnding?
    ensures StateOk(AcceptAutoremove(s, key), h)
  {
    hide BooksOk, Tethered, EndingOwned, SectionsBounded, TraceOk, ClientsOk;
    NextIsNew(s, h);
    var s', id := AcceptAutoremove(s, key), s.supply;
    CleanupBooksOk(s.books, h, key, id);
    CleanupTethers(s.jobs, s.tasks, s.books, s.past.owners, key, s'.jobs[id].attempt);
    EndingStays(s.jobs, s'.jobs, s.books, s'.books, h);
    CancelSections(s.jobs, s.scanSlots, s.updateSlot, TaskOf(s.tasks.health, key));
    NewJobSections(CancelJobs(s.jobs, TaskOf(s.tasks.health, key)), s.scanSlots, s.updateSlot, id, s'.jobs[id]);
  }

  lemma AcceptAutoremoveSupplied(s: State, h: Hole, key: Key)
    requires Inv(s, h) && ShownPlan(s.books, key)
    ensures var s' := AcceptAutoremove(s, key);
      Supplied(s'.supply, s'.jobs, s'.followers, s'.books, s'.past)
  {
    hide StateOk, ClientsOk, LedgerOk, ProvenanceOk;
    NextIsNew(s, h);
    var s' := AcceptAutoremove(s, key);
    SuppliedGrows(s.supply, s'.supply, s.jobs, s'.jobs, s.followers, s'.followers, s.books, s'.books, s.past, s'.past,
                  [CleanupAccepted(s.supply, key, s.books.evidence[key])]);
  }

  lemma AcceptAutoremoveTrace(s: State, h: Hole, key: Key)
    requires Inv(s, h) && !BusyAt(s.books, key.vmid) && ShownPlan(s.books, key)
    ensures TraceOk(AcceptAutoremove(s, key), h)
  {
    hide StateOk, Supplied, LedgerOk, ProvenanceOk, RestoresSafe, FollowersWatch, StoredReported, BusyAt, LogDated;
    NextIsNew(s, h);
    SuppliedLog(s, h);
    AcceptAutoremoveSupplied(s, h, key);
    var s', id := AcceptAutoremove(s, key), s.supply;
    var grant := CleanupAccepted(id, key, s.books.evidence[key]);
    LedgerAdmits(s.jobs, CancelJobs(s.jobs, TaskOf(s.tasks.health, key)), s.past, id, key, grant, s'.jobs[id].attempt, h);
    CleanupProvenance(s.jobs, s'.jobs, s.books, s.past, key, id);
  }

  lemma AcceptAutoremoveClients(s: State, h: Hole, key: Key)
    requires Inv(s, h) && !BusyAt(s.books, key.vmid) && ShownPlan(s.books, key)
    ensures ClientsOk(AcceptAutoremove(s, key), h)
  {
    hide BooksOk, Tethered, EndingOwned, SectionsBounded, LedgerOk, ProvenanceOk;
    hide RestoresSafe, FollowersWatch, StoredReported;
    var s', es := AcceptAutoremove(s, key), [CleanupAccepted(s.supply, key, s.books.evidence[key])];
    RestoresStay(s.jobs, s'.jobs, s.tasks, s.books, s'.books, s.past, s'.past, es);
    FollowersStay(s, s', es);
    ReportsStay(s.books, s'.books, s.past, s'.past, h);
  }

  lemma AcceptAutoremoveKeeps(s: State, h: Hole, key: Key)
    requires Inv(s, h) && !BusyAt(s.books, key.vmid) && ShownPlan(s.books, key) && !h.ScanEnding?
    ensures Inv(AcceptAutoremove(s, key), h)
  {
    hide AcceptAutoremove, StateOk, TraceOk, ClientsOk;
    AcceptAutoremoveState(s, h, key);
    AcceptAutoremoveTrace(s, h, key);
    AcceptAutoremoveClients(s, h, key);
  }

  // ----- Health

  /** Nothing keeps Health off this VMID, except perhaps the attempt that is just finishing there. */
  ghost predicate Claimable(b: Books, h: Hole, key: Key) {
    forall o: Owner, k: Key :: Busy(b, o, k) && k.vmid == key.vmid ==> ClaimedBy(h, o, k) && k == key
  }

  lemma ClaimableFacts(b: Books, h: Hole, key: Key)
    requires Claimable(b, h, key)
    ensures !ReservedAt(b.reserved, key.vmid) && !HealthRunningAt(b.health, key.vmid) && key !in b.reserved
  {
    assert forall k: Key :: k.vmid == key.vmid ==> !Busy(b, RestoreOwner, k) && !Busy(b, HealthOwner, k);
  }

  lemma IdleClaimable(b: Books, h: Hole, key: Key)
    requires !BusyAt(b, key.vmid)
    ensures Claimable(b, h, key)
  {
    IdleMeansNotBusy(b, key.vmid);
  }

  lemma ClaimHealthState(s: State, h: Hole, key: Key, source: HealthSource)
    requires Inv(s, h) && Claimable(s.books, h, key) && !h.ScanEnding?
    ensures StateOk(ClaimHealth(s, key, source), h)
  {
    hide BooksOk, Tethered, EndingOwned, SectionsBounded, TraceOk, ClientsOk;
    var s' := ClaimHealth(s, key, source);
    ClaimableFacts(s.books, h, key);
    ClaimBooksOk(s.books, h, key, s.supply, source);
    ClaimTethers(s.jobs, s.tasks, s.books, s.past.owners, key, HealthRunning(s.supply, source));
    EndingStays(s.jobs, s'.jobs, s.books, s'.books, h);
  }

  lemma ClaimHealthTrace(s: State, h: Hole, key: Key, source: HealthSource)
    requires Inv(s, h) && Claimable(s.books, h, key)
    ensures TraceOk(ClaimHealth(s, key, source), h)
  {
    hide StateOk, Supplied, LedgerOk, ProvenanceOk, RestoresSafe, FollowersWatch, StoredReported, LogDated, Claimable;
    var s', e := ClaimHealth(s, key, source), HealthAccepted(s.supply, key);
    ClaimableFacts(s.books, h, key);
    NotStranded(s.jobs, s.books, s.past, key.vmid);
    OneDated(e, s'.supply);
    SuppliedGrows(s.supply, s'.supply, s.jobs, s'.jobs, s.followers, s'.followers, s.books, s'.books, s.past, s'.past, [e]);
    LedgerIdle(s.jobs, s'.jobs, s.past, s'.past, [e], h);
    QuietProvenance(s.jobs, s'.jobs, s.books, s'.books, s.past.log, e);
  }

  lemma ClaimHealthClients(s: State, h: Hole, key: Key, source: HealthSource)
    requires Inv(s, h) && Claimable(s.books, h, key)
    ensures ClientsOk(ClaimHealth(s, key, source), h)
  {
    hide BooksOk, Tethered, EndingOwned, SectionsBounded, LedgerOk, ProvenanceOk, Supplied;
    hide RestoresSafe, FollowersWatch, StoredReported, Claimable;
    var s', es := ClaimHealth(s, key, source), [HealthAccepted(s.supply, key)];
    ClaimableFacts(s.books, h, key);
    RestoresStay(s.jobs, s'.jobs, s.tasks, s.books, s'.books, s.past, s'.past, es);
    FollowersStay(s, s', es);
    ReportsStay(s.books, s'.books, s.past, s'.past, h);
  }

  lemma ClaimHealthKeeps(s: State, h: Hole, key: Key, source: HealthSource)
    requires Inv(s, h) && Claimable(s.books, h, key) && !h.ScanEnding?
    ensures Inv(ClaimHealth(s, key, source), h)
  {
    hide ClaimHealth, StateOk, TraceOk, ClientsOk, Claimable;
    ClaimHealthState(s, h, key, source);
    ClaimHealthTrace(s, h, key, source);
    ClaimHealthClients(s, h, key, source);
  }

  /** A claim that has not become a task yet. */
  predicate Held(s: State, key: Key, id: nat) {
    OwnsHealth(s.books, key, id) && id !in s.jobs && id < s.supply
  }

  lemma LaunchHealthState(s: State, h: Hole, key: Key, id: nat, source: HealthSource, created: bool)
    requires Inv(s, h) && Held(s, key, id) && !h.ScanEnding? && (h.Ending? ==> h.id != id)
    ensures StateOk(LaunchHealth(s, key, id, source, created), h)
  {
    hide BooksOk, Tethered, EndingOwned, SectionsBounded, TraceOk, ClientsOk;
    var s' := LaunchHealth(s, key, id, source, created);
    EndingStays(s.jobs, s'.jobs, s.books, s'.books, h);
    if created {
      LaunchTethers(s.jobs, s.tasks, s.books, s.past.owners, key, id, source);
      NewJobSections(s.jobs, s.scanSlots, s.updateSlot, id, HealthJob(key, false, source));
    } else {
      HealthBooksOk(s.books, h, s'.books.health);
      HealthEndTethers(s.jobs, s.tasks, s.books, s.past.owners, key, id, s.books.health[key]);
    }
  }

  lemma LaunchHealthTrace(s: State, h: Hole, key: Key, id: nat, source: HealthSource, created: bool)
    requires Inv(s, h) && Held(s, key, id)
    ensures TraceOk(LaunchHealth(s, key, id, source, created), h)
  {
    hide StateOk, Supplied, LedgerOk, ProvenanceOk, RestoresSafe, FollowersWatch, StoredReported, LogDated;
    var s' := LaunchHealth(s, key, id, source, created);
    assert s.past.log + [] == s.past.log;
    assert LogDated([], s.supply) by { NothingDated(s.supply); }
    SuppliedGrows(s.supply, s'.supply, s.jobs, s'.jobs, s.followers, s'.followers, s.books, s'.books, s.past, s'.past, []);
    LedgerIdle(s.jobs, s'.jobs, s.past, s'.past, [], h);
    SilentProvenance(s.jobs, s'.jobs, s.books, s'.books, s.past.log);
  }

  lemma NothingDated(supply: nat)
    ensures LogDated([], supply)
  {
  }

  lemma LaunchHealthClients(s: State, h: Hole, key: Key, id: nat, source: HealthSource, created: bool)
    requires Inv(s, h) && Held(s, key, id)
    ensures ClientsOk(LaunchHealth(s, key, id, source, created), h)
  {
    hide BooksOk, Tethered, EndingOwned, SectionsBounded, LedgerOk, ProvenanceOk, Supplied;
    hide RestoresSafe, FollowersWatch, StoredReported;
    var s' := LaunchHealth(s, key, id, source, created);
    assert s.past.log + [] == s.past.log;
    RestoresStay(s.jobs, s'.jobs, s.tasks, s.books, s'.books, s.past, s'.past, []);
    FollowersStay(s, s', []);
    ReportsStay(s.books, s'.books, s.past, s'.past, h);
  }

  lemma LaunchHealthKeeps(s: State, h: Hole, key: Key, id: nat, source: HealthSource, created: bool)
    requires Inv(s, h) && Held(s, key, id) && !h.ScanEnding? && (h.Ending? ==> h.id != id)
    ensures Inv(LaunchHealth(s, key, id, source, created), h)
  {
    hide LaunchHealth, StateOk, TraceOk, ClientsOk, Held;
    LaunchHealthState(s, h, key, id, source, created);
    LaunchHealthTrace(s, h, key, id, source, created);
    LaunchHealthClients(s, h, key, id, source, created);
  }

  lemma StartHealthKeeps(s: State, h: Hole, key: Key, targetIsRunning: bool, created: bool)
    requires Inv(s, h) && !h.ScanEnding?
    ensures Inv(StartHealth(s, key, targetIsRunning, created), h)
  {
    hide StateOk, TraceOk, ClientsOk, Claimable, BusyAt;
    if ScanRefusal(s, key, targetIsRunning).None? {
      NextIsNew(s, h);
      IdleClaimable(s.books, h, key);
      ClaimHealthKeeps(s, h, key, FromButton);
      LaunchHealthKeeps(ClaimHealth(s, key, FromButton), h, key, s.supply, FromButton, created);
    }
  }

  // ----- Restore

  lemma PressRestoreState(s: State, h: Hole, key: Key)
    requires Inv(s, h) && !RestoreBlocked(s.books, key.vmid) && !h.ScanEnding?
    ensures StateOk(PressRestore(s, key, true), h)
  {
    hide BooksOk, Tethered, EndingOwned, SectionsBounded, TraceOk, ClientsOk;
    NextIsNew(s, h);
    var s', id := PressRestore(s, key, true), s.supply;
    ReserveBooksOk(s.books, h, key);
    RestoreTethers(s.jobs, s.tasks, s.books, s.past.owners, key, id);
    EndingStays(s.jobs, s'.jobs, s.books, s'.books, h);
    NewJobSections(s.jobs, s.scanSlots, s.updateSlot, id, RestoreJob(key, false, Validating));
  }

  lemma PressRestoreTrace(s: State, h: Hole, key: Key)
    requires Inv(s, h) && !RestoreBlocked(s.books, key.vmid)
    ensures TraceOk(PressRestore(s, key, true), h)
  {
    hide StateOk, Supplied, LedgerOk, ProvenanceOk, RestoresSafe, FollowersWatch, StoredReported, LogDated, PackageWorkAt;
    NextIsNew(s, h);
    var s', e := PressRestore(s, key, true), RestoreAccepted(s.supply, key);
    NotStranded(s.jobs, s.books, s.past, key.vmid);
    OneDated(e, s'.supply);
    SuppliedGrows(s.supply, s'.supply, s.jobs, s'.jobs, s.followers, s'.followers, s.books, s'.books, s.past, s'.past, [e]);
    LedgerIdle(s.jobs, s'.jobs, s.past, s'.past, [e], h);
    QuietProvenance(s.jobs, s'.jobs, s.books, s'.books, s.past.log, e);
  }

  lemma RestoreBegins(jobs: Jobs, b: Books, past: Past, key: Key, id: nat)
    requires RestoresSafe(jobs, b, past) && id !in jobs
    requires RestoreAccepted(id, key) in past.log
    requires forall e | e in past.log && e.RestoreFinished? :: e.id != id
    ensures RestoresSafe(jobs[id := RestoreJob(key, false, Validating)], b, past)
  {
  }

  lemma PressRestoreClients(s: State, h: Hole, key: Key)
    requires Inv(s, h) && !RestoreBlocked(s.books, key.vmid)
    ensures ClientsOk(PressRestore(s, key, true), h)
  {
    hide BooksOk, Tethered, EndingOwned, SectionsBounded, LedgerOk, ProvenanceOk;
    hide RestoresSafe, FollowersWatch, StoredReported;
    NextIsNew(s, h);
    var s', es := PressRestore(s, key, true), [RestoreAccepted(s.supply, key)];
    RestoresStay(s.jobs, s.jobs, s.tasks, s.books, s'.books, s.past, s'.past, es);
    NoSuchRestore(s.past.log, s.supply);
    RestoreBegins(s.jobs, s'.books, s'.past, key, s.supply);
    FollowersStay(s, s', es);
    ReportsStay(s.books, s'.books, s.past, s'.past, h);
  }

  lemma NoSuchRestore(log: Log, supply: nat)
    requires LogDated(log, supply)
    ensures forall e | e in log && e.RestoreFinished? :: e.id != supply
  {
  }

  lemma PressRestoreKeeps(s: State, h: Hole, key: Key, created: bool)
    requires Inv(s, h) && !h.ScanEnding?
    ensures Inv(PressRestore(s, key, created), h)
  {
    hide StateOk, TraceOk, ClientsOk, RestoreBlocked;
    if !RestoreBlocked(s.books, key.vmid) {
      if created {
        PressRestoreState(s, h, key);
        PressRestoreTrace(s, h, key);
        PressRestoreClients(s, h, key);
      } else {
        UnreservedKey(s.books, key);
        NotifyKeeps(s, h, 2);
        assert s.books.reserved + {key} - {key} == s.books.reserved;
      }
    }
  }

  lemma UnreservedKey(b: Books, key: Key)
    requires !RestoreBlocked(b, key.vmid)
    ensures key !in b.reserved
  {
  }

  /** Notifications alone change nothing but what continuations have yet to see. */
  lemma NotifyKeeps(s: State, h: Hole, n: nat)
    requires Inv(s, h)
    ensures Inv(s.(version := s.version + n), h)
  {
    hide BooksOk, Tethered, EndingOwned, SectionsBounded, Supplied, LedgerOk, ProvenanceOk, RestoresSafe;
    hide FollowersWatch, StoredReported;
    assert s.past.log + [] == s.past.log;
    FollowersStay(s, s.(version := s.version + n), []);
  }

  // ----- Easy Update

  lemma FollowTrace(s: State, h: Hole, f: Follower)
    requires Inv(s, h)
    ensures TraceOk(s.(supply := s.supply + 1, followers := s.followers[s.supply := f]), h)
  {
    hide StateOk, ClientsOk, LogDated, LedgerOk, ProvenanceOk;
    var s' := s.(supply := s.supply + 1, followers := s.followers[s.supply := f]);
    assert s.past.log + [] == s.past.log;
    NothingDated(s'.supply);
    SuppliedGrows(s.supply, s'.supply, s.jobs, s'.jobs, s.followers, s'.followers, s.books, s'.books, s.past, s'.past, []);
  }

  lemma FollowKeeps(s: State, h: Hole, f: Follower)
    requires Inv(s, h) && !f.parked && f.seen <= s.version
    ensures Inv(s.(supply := s.supply + 1, followers := s.followers[s.supply := f]), h)
  {
    hide BooksOk, Tethered, EndingOwned, SectionsBounded, LedgerOk, ProvenanceOk, RestoresSafe, StoredReported;
    FollowTrace(s, h, f);
  }

  lemma StartEasyUpdateKeeps(
    s: State, h: Hole, key: Key, expected: Option<nat>, skip: bool, snapshotCreateRunning: bool, follow: bool)
    requires Inv(s, h) && !h.ScanEnding?
    ensures Inv(StartEasyUpdate(s, key, expected, skip, snapshotCreateRunning, follow), h)
  {
    hide StateOk, TraceOk, ClientsOk, BusyAt, ReviewedPlan;
    if EasyUpdatePrechecks(s, key, expected, skip, snapshotCreateRunning) {
      var confirmed := ConfirmReview(s, key, s.books.records[key].token);
      ConfirmReviewKeeps(s, h, key, s.books.records[key].token);
      if UpdateRefusal(confirmed, key, true, key.vmid in s.coordinator.snapshotGranted, skip).None? {
        AcceptUpdateKeeps(confirmed, h, key, skip);
        var started := AcceptUpdate(confirmed, key, skip);
        FollowKeeps(started, h, Follower(key, confirmed.supply, false, started.version));
      }
    }
  }

  // ----- any call, any number of calls

  lemma DispatchKeeps(s: State, h: Hole, call: Call)
    requires Inv(s, h) && !h.ScanEnding?
    ensures Inv(Dispatch(s, call), h)
  {
    hide StateOk, TraceOk, ClientsOk, BusyAt, ReviewedPlan, ShownPlan, AcceptScan, AcceptUpdate, AcceptAutoremove;
    hide StartHealth, MarkViewed, ConfirmReview, PressRestore, StartEasyUpdate;
    match call
    case PressScan(key, targetIsRunning) =>
      if ScanRefusal(s, key, targetIsRunning).None? {
        AcceptScanKeeps(s, h, key);
      }
    case PressUpdate(key, targetIsRunning, permission) =>
      if UpdateRefusal(s, key, targetIsRunning, permission, false).None? {
        AcceptUpdateKeeps(s, h, key, false);
      }
    case PressAutoremove(key, targetIsRunning, permission) =>
      if AutoremoveRefusal(s, key, targetIsRunning, permission).None? {
        AcceptAutoremoveKeeps(s, h, key);
      }
    case PressHealth(key, targetIsRunning, created) => StartHealthKeeps(s, h, key, targetIsRunning, created);
    case PressReview(key, token) => MarkViewedKeeps(s, h, key, token);
    case PressApprove(key) =>
      if key in s.books.viewed {
        ConfirmReviewKeeps(s, h, key, s.books.viewed[key]);
      }
    case PressRestoreButton(key, created) => PressRestoreKeeps(s, h, key, created);
    case EasyUpdate(key, expected, skip, snapshotCreateRunning, follow) =>
      StartEasyUpdateKeeps(s, h, key, expected, skip, snapshotCreateRunning, follow);
  }

  lemma {:induction false} ListenKeeps(s: State, h: Hole, calls: seq<Call>)
    requires Inv(s, h) && !h.ScanEnding?
    ensures Inv(Listen(s, calls), h)
    decreases |calls|
  {
    hide Inv, Dispatch;
    if calls != [] {
      DispatchKeeps(s, h, calls[0]);
      ListenKeeps(Dispatch(s, calls[0]), h, calls[1..]);
    }
  }

  // ----- what no call takes away

  /** Nothing is unsaid, and nothing is requested of an attempt or reported. */
  ghost predicate PastExtends(past: Past, past': Past, supply: nat) {
    && past.log <= past'.log && NeutralAll(past'.log[|past.log|..])
    && past'.reports == past.reports
    && (forall id | id in past.grants && id < supply :: id in past'.grants)
    && (forall id | id in past.snapshots && id < supply ::
      id in past'.snapshots && past'.snapshots[id] == past.snapshots[id])
  }

  /** Tasks may be added or told to stop. */
  ghost predicate JobsExtend(jobs: Jobs, jobs': Jobs, supply: nat) {
    && (forall id | id in jobs' :: id in jobs || supply <= id)
    && (forall id | id in jobs && id < supply :: id in jobs' && SameOrStopped(jobs[id], jobs'[id]))
  }

  /** Nobody loses a target or a reservation. */
  ghost predicate BooksExtend(b: Books, b': Books) {
    && b.reserved <= b'.reserved
    && (forall kind, key, id :: OwnsMutation(b, kind, key, id) ==> OwnsMutation(b', kind, key, id))
    && (forall key, id :: OwnsHealth(b, key, id) ==> OwnsHealth(b', key, id))
  }

  /** Calls start new work; they neither end, report nor dispossess work that is under way. */
  ghost predicate Extends(s: State, s': State) {
    && s.supply <= s'.supply && s.version <= s'.version
    && PastExtends(s.past, s'.past, s.supply) && JobsExtend(s.jobs, s'.jobs, s.supply)
    && BooksExtend(s.books, s'.books)
  }

  lemma PastTransitive(p1: Past, p2: Past, p3: Past, supply1: nat, supply2: nat)
    requires PastExtends(p1, p2, supply1) && PastExtends(p2, p3, supply2) && supply1 <= supply2
    ensures PastExtends(p1, p3, supply1)
  {
    assert p3.log[|p1.log|..] == p2.log[|p1.log|..] + p3.log[|p2.log|..];
  }

  lemma StoppedTransitive(j1: Job, j2: Job, j3: Job)
    requires SameOrStopped(j1, j2) && SameOrStopped(j2, j3)
    ensures SameOrStopped(j1, j3)
  {
  }

  lemma JobsTransitive(j1: Jobs, j2: Jobs, j3: Jobs, supply1: nat, supply2: nat)
    requires JobsExtend(j1, j2, supply1) && JobsExtend(j2, j3, supply2) && supply1 <= supply2
    ensures JobsExtend(j1, j3, supply1)
  {
    hide SameOrStopped;
    forall id | id in j1 && id < supply1 ensures id in j3 && SameOrStopped(j1[id], j3[id]) {
      StoppedTransitive(j1[id], j2[id], j3[id]);
    }
  }

  lemma ExtendsTransitive(s1: State, s2: State, s3: State)
    requires Extends(s1, s2) && Extends(s2, s3)
    ensures Extends(s1, s3)
  {
    hide PastExtends, JobsExtend, OwnsMutation, OwnsHealth;
    PastTransitive(s1.past, s2.past, s3.past, s1.supply, s2.supply);
    JobsTransitive(s1.jobs, s2.jobs, s3.jobs, s1.supply, s2.supply);
  }

  lemma AppendExtends(past: Past, e: Event, supply: nat)
    requires Neutral(e)
    ensures PastExtends(past, Append(past, e), supply)
  {
    assert (past.log + [e])[|past.log|..] == [e];
  }

  lemma AdmitExtends(past: Past, id: nat, grant: Event)
    requires Neutral(grant)
    ensures PastExtends(past, Admit(past, id, grant), id)
  {
    assert (past.log + [grant])[|past.log|..] == [grant];
  }

  lemma NewJobExtends(jobs: Jobs, ids: set<nat>, id: nat, job: Job)
    ensures JobsExtend(jobs, CancelJobs(jobs, ids)[id := job], id)
    ensures JobsExtend(jobs, jobs[id := job], id)
  {
  }

  lemma SameJobsExtend(jobs: Jobs, past: Past, supply: nat)
    ensures JobsExtend(jobs, jobs, supply) && PastExtends(past, past, supply)
  {
  }

  /** Whoever owns a target makes its VMID busy, so records written at an idle one dispossess nobody. */
  lemma IdleExtends(b: Books, b': Books, vmid: int)
    requires !BusyAt(b, vmid) && b'.reserved == b.reserved
    requires forall k | k in b.updates && k.vmid != vmid :: k in b'.updates && b'.updates[k] == b.updates[k]
    requires forall k | k in b.cleanups && k.vmid != vmid :: k in b'.cleanups && b'.cleanups[k] == b.cleanups[k]
    requires forall k | k in b.health && k.vmid != vmid :: k in b'.health && b'.health[k] == b.health[k]
    ensures BooksExtend(b, b')
  {
    IdleMeansNotBusy(b, vmid);
    forall kind, key, id | OwnsMutation(b, kind, key, id) ensures OwnsMutation(b', kind, key, id) {
      assert Busy(b, OwnerOf(kind), key);
    }
    forall key, id | OwnsHealth(b, key, id) ensures OwnsHealth(b', key, id) {
      assert Busy(b, HealthOwner, key);
    }
  }

  lemma SameOwners(b: Books, b': Books)
    requires b.updates == b'.updates && b.cleanups == b'.cleanups && b.health == b'.health && b.reserved <= b'.reserved
    ensures BooksExtend(b, b')
  {
  }

  lemma AcceptScanExtends(s: State, key: Key)
    requires !BusyAt(s.books, key.vmid)
    ensures Extends(s, AcceptScan(s, key))
  {
    hide PastExtends, JobsExtend, BooksExtend, BusyAt;
    AppendExtends(s.past, ScanAccepted(s.supply, key), s.supply);
    NewJobExtends(s.jobs, {}, s.supply, ScanJob(key, false, ScanSlot));
    SameOwners(s.books, ScanBooks(s.books, key, s.supply));
  }

  lemma AcceptUpdateExtends(s: State, key: Key, skip: bool)
    requires !BusyAt(s.books, key.vmid) && ReviewedPlan(s.books, key)
    ensures Extends(s, AcceptUpdate(s, key, skip))
  {
    hide PastExtends, JobsExtend, BooksExtend, BusyAt;
    var s', reviewed := AcceptUpdate(s, key, skip), s.books.records[key];
    AdmitExtends(s.past, s.supply, UpdateAccepted(s.supply, key, reviewed.token, reviewed.packages, skip));
    NewJobExtends(s.jobs, TaskOf(s.tasks.health, key), s.supply, s'.jobs[s.supply]);
    IdleExtends(s.books, s'.books, key.vmid);
  }

  lemma AcceptAutoremoveExtends(s: State, key: Key)
    requires !BusyAt(s.books, key.vmid) && ShownPlan(s.books, key)
    ensures Extends(s, AcceptAutoremove(s, key))
  {
    hide PastExtends, JobsExtend, BooksExtend, BusyAt;
    var s' := AcceptAutoremove(s, key);
    AdmitExtends(s.past, s.supply, CleanupAccepted(s.supply, key, s.books.evidence[key]));
    NewJobExtends(s.jobs, TaskOf(s.tasks.health, key), s.supply, s'.jobs[s.supply]);
    IdleExtends(s.books, s'.books, key.vmid);
  }

  lemma StartHealthExtends(s: State, key: Key, targetIsRunning: bool, created: bool)
    ensures Extends(s, StartHealth(s, key, targetIsRunning, created))
  {
    hide PastExtends, JobsExtend, BooksExtend, BusyAt;
    var s' := StartHealth(s, key, targetIsRunning, created);
    SameJobsExtend(s.jobs, s.past, s.supply);
    SameOwners(s.books, s.books);
    if ScanRefusal(s, key, targetIsRunning).None? {
      AppendExtends(s.past, HealthAccepted(s.supply, key), s.supply);
      NewJobExtends(s.jobs, {}, s.supply, HealthJob(key, false, FromButton));
      IdleExtends(s.books, s'.books, key.vmid);
    }
  }

  lemma ConfirmReviewExtends(s: State, key: Key, token: nat)
    ensures Extends(s, ConfirmReview(s, key, token))
  {
    hide PastExtends, JobsExtend, BooksExtend;
    SameJobsExtend(s.jobs, s.past, s.supply);
    AppendExtends(s.past, ReviewConfirmed(key, token), s.supply);
    SameOwners(s.books, ConfirmReview(s, key, token).books);
  }

  lemma MarkViewedExtends(s: State, key: Key, token: nat)
    ensures Extends(s, MarkViewed(s, key, token))
  {
    hide PastExtends, JobsExtend, BooksExtend;
    SameJobsExtend(s.jobs, s.past, s.supply);
    SameOwners(s.books, MarkViewed(s, key, token).books);
  }

  lemma PressRestorePast(s: State, key: Key, created: bool)
    ensures PastExtends(s.past, PressRestore(s, key, created).past, s.supply)
  {
    hide RestoreBlocked;
    AppendExtends(s.past, RestoreAccepted(s.supply, key), s.supply);
  }

  lemma PressRestoreExtends(s: State, key: Key, created: bool)
    ensures Extends(s, PressRestore(s, key, created))
  {
    hide PastExtends, JobsExtend, BooksExtend, PackageWorkAt;
    SameJobsExtend(s.jobs, s.past, s.supply);
    NewJobExtends(s.jobs, {}, s.supply, RestoreJob(key, false, Validating));
    PressRestorePast(s, key, created);
    SameOwners(s.books, PressRestore(s, key, created).books);
  }

  lemma StartEasyUpdateExtends(
    s: State, key: Key, expected: Option<nat>, skip: bool, snapshotCreateRunning: bool, follow: bool)
    ensures Extends(s, StartEasyUpdate(s, key, expected, skip, snapshotCreateRunning, follow))
  {
    hide PastExtends, JobsExtend, BooksExtend, BusyAt, ReviewedPlan, AcceptUpdate, ConfirmReview;
    SameJobsExtend(s.jobs, s.past, s.supply);
    SameOwners(s.books, s.books);
    if EasyUpdatePrechecks(s, key, expected, skip, snapshotCreateRunning) {
      var confirmed := ConfirmReview(s, key, s.books.records[key].token);
      ConfirmReviewExtends(s, key, s.books.records[key].token);
      if UpdateRefusal(confirmed, key, true, key.vmid in s.coordinator.snapshotGranted, skip).None? {
        AcceptUpdateExtends(confirmed, key, skip);
        ExtendsTransitive(s, confirmed, AcceptUpdate(confirmed, key, skip));
      }
    }
  }

  lemma DispatchExtends(s: State, call: Call)
    ensures Extends(s, Dispatch(s, call))
  {
    hide PastExtends, JobsExtend, BooksExtend, BusyAt, ReviewedPlan, ShownPlan, AcceptScan, AcceptUpdate, AcceptAutoremove;
    hide StartHealth, MarkViewed, ConfirmReview, PressRestore, StartEasyUpdate;
    SameJobsExtend(s.jobs, s.past, s.supply);
    SameOwners(s.books, s.books);
    match call
    case PressScan(key, targetIsRunning) =>
      if ScanRefusal(s, key, targetIsRunning).None? {
        AcceptScanExtends(s, key);
      }
    case PressUpdate(key, targetIsRunning, permission) =>
      if UpdateRefusal(s, key, targetIsRunning, permission, false).None? {
        AcceptUpdateExtends(s, key, false);
      }
    case PressAutoremove(key, targetIsRunning, permission) =>
      if AutoremoveRefusal(s, key, targetIsRunning, permission).None? {
        AcceptAutoremoveExtends(s, key);
      }
    case PressHealth(key, targetIsRunning, created) => StartHealthExtends(s, key, targetIsRunning, created);
    case PressReview(key, token) => MarkViewedExtends(s, key, token);
    case PressApprove(key) =>
      if key in s.books.viewed {
        ConfirmReviewExtends(s, key, s.books.viewed[key]);
      }
    case PressRestoreButton(key, created) => PressRestoreExtends(s, key, created);
    case EasyUpdate(key, expected, skip, snapshotCreateRunning, follow) =>
      StartEasyUpdateExtends(s, key, expected, skip, snapshotCreateRunning, follow);
  }

  lemma {:induction false} ListenExtends(s: State, calls: seq<Call>)
    ensures Extends(s, Listen(s, calls))
    decreases |calls|
  {
    hide Dispatch, PastExtends, JobsExtend, BooksExtend;
    SameJobsExtend(s.jobs, s.past, s.supply);
    SameOwners(s.books, s.books);
    if calls != [] {
      var s1 := Dispatch(s, calls[0]);
      DispatchExtends(s, calls[0]);
      ListenExtends(s1, calls[1..]);
      ExtendsTransitive(s, s1, Listen(s1, calls[1..]));
    }
  }
}
