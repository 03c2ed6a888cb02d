/** Every other action keeps the invariant: observations, cancellations, PVE and the executor, and the wake-ups. */
module ActionProofs {
  import opened Models
  import opened Attempts
  import opened History
  import opened ManagerState
  import opened ManagerMachine
  import opened ManagerInvariant
  import opened BooksProofs
  import opened TetherProofs
  import opened LedgerProofs
  import opened ProvenanceProofs
  import opened StepProofs
  import opened ListenerProofs
  import opened FinishProofs
  import opened TurnProofs

  // ----- coordinator observations

  lemma RefreshKeeps(s: State, c: Coordinator)
    requires Inv(s, NoHole)
    ensures Inv(s.(coordinator := c, version := s.version + 1), NoHole)
  {
    hide BooksOk, Tethered, EndingOwned, SectionsBounded, Supplied, LedgerOk, ProvenanceOk, RestoresSafe;
    hide FollowersWatch, StoredReported;
    assert s.past.log + [] == s.past.log;
    FollowersStay(s, s.(coordinator := c, version := s.version + 1), []);
  }

  lemma PruneState(s: State, current: set<Key>)
    requires Inv(s, NoHole)
    ensures StateOk(Prune(s, current), NoHole)
  {
    hide BooksOk, Tethered, SectionsBounded, TraceOk, ClientsOk, PruneTargets, PruneBooks, PruneTasks, PrunedIds;
    var stale := PruneTargets(s.books, current);
    PruneBooksOk(s.books, stale);
    PruneTethers(s.jobs, s.tasks, s.books, s.past.owners, current);
    CancelSections(s.jobs, s.scanSlots, s.updateSlot, PrunedIds(s.tasks, stale));
  }

  lemma PruneTrace(s: State, current: set<Key>)
    requires Inv(s, NoHole)
    ensures TraceOk(Prune(s, current), NoHole)
  {
    hide BooksOk, Tethered, SectionsBounded, ClientsOk, Supplied, LedgerOk, ProvenanceOk, PruneTargets, PrunedIds;
    var s', e := Prune(s, current), TargetsPruned(current);
    OneDated(e, s.supply);
    SuppliedGrows(s.supply, s'.supply, s.jobs, s'.jobs, s.followers, s'.followers, s.books, s'.books, s.past, s'.past, [e]);
    LedgerIdle(s.jobs, s'.jobs, s.past, s'.past, [e], NoHole);
    PruneProvenance(s.jobs, s.tasks, s.books, s.past.owners, s.past.log, current);
  }

  lemma PruneClients(s: State, current: set<Key>)
    requires Inv(s, NoHole)
    ensures ClientsOk(Prune(s, current), NoHole)
  {
    hide BooksOk, Tethered, SectionsBounded, LedgerOk, ProvenanceOk, Supplied, PruneTargets, PrunedIds;
    hide RestoresSafe, FollowersWatch, StoredReported;
    var s', e := Prune(s, current), TargetsPruned(current);
    RestoresStay(s.jobs, s'.jobs, s.tasks, s.books, s'.books, s.past, s'.past, [e]);
    PruneAnnounced(s, current);
    FollowersStay(s, s', [e]);
    ReportsStay(s.books, s'.books, s.past, s'.past, NoHole);
  }

  lemma PruneAnnounced(s: State, current: set<Key>)
    ensures Announced(s, Prune(s, current))
  {
    hide PruneTargets, PrunedIds;
    var b := s.books;
    assert b.updates - {} == b.updates && b.evidence - {} == b.evidence && b.health - {} == b.health;
    assert b.records - {} == b.records && b.cleanups - {} == b.cleanups;
  }

  lemma PruneKeeps(s: State, current: set<Key>)
    requires Inv(s, NoHole)
    ensures Inv(Prune(s, current), NoHole)
  {
    hide StateOk, TraceOk, ClientsOk, Prune;
    PruneState(s, current);
    PruneTrace(s, current);
    PruneClients(s, current);
  }

  lemma StopState(s: State, running: set<Key>)
    requires Inv(s, NoHole)
    ensures StateOk(InvalidateNonRunning(s, running), NoHole)
  {
    hide BooksOk, Tethered, SectionsBounded, TraceOk, ClientsOk, StoppedTargets, StopBooks, HadEvidence;
    var stale := StoppedTargets(s.books, s.tasks, running);
    StopBooksOk(s.books, stale);
    StopTethers(s.jobs, s.tasks, s.books, s.past.owners, running);
    CancelSections(s.jobs, s.scanSlots, s.updateSlot, TasksOf(s.tasks.scans, stale) + TasksOf(s.tasks.health, stale));
  }

  lemma StopTrace(s: State, running: set<Key>)
    requires Inv(s, NoHole)
    ensures TraceOk(InvalidateNonRunning(s, running), NoHole)
  {
    hide BooksOk, Tethered, SectionsBounded, ClientsOk, Supplied, LedgerOk, ProvenanceOk, StoppedTargets, HadEvidence;
    var s', e := InvalidateNonRunning(s, running), TargetsObserved(running);
    OneDated(e, s.supply);
    SuppliedGrows(s.supply, s'.supply, s.jobs, s'.jobs, s.followers, s'.followers, s.books, s'.books, s.past, s'.past, [e]);
    LedgerIdle(s.jobs, s'.jobs, s.past, s'.past, [e], NoHole);
    StopProvenance(s.jobs, s.tasks, s.books, s.past.owners, s.past.log, running);
  }

  lemma StopAnnounced(s: State, running: set<Key>)
    ensures Announced(s, InvalidateNonRunning(s, running))
  {
    hide StoppedTargets;
    var b, stale := s.books, StoppedTargets(s.books, s.tasks, running);
    if !exists k | k in stale :: HadEvidence(s.books, s.tasks, k) {
      assert forall k | k in stale :: !HadEvidence(s.books, s.tasks, k);
      assert b.records - stale == b.records && b.evidence - stale == b.evidence && b.health - stale == b.health;
    }
  }

  lemma StopClients(s: State, running: set<Key>)
    requires Inv(s, NoHole)
    ensures ClientsOk(InvalidateNonRunning(s, running), NoHole)
  {
    hide BooksOk, Tethered, SectionsBounded, LedgerOk, ProvenanceOk, Supplied, StoppedTargets, HadEvidence;
    hide RestoresSafe, FollowersWatch, StoredReported, Announced;
    var s', e := InvalidateNonRunning(s, running), TargetsObserved(running);
    RestoresStay(s.jobs, s'.jobs, s.tasks, s.books, s'.books, s.past, s'.past, [e]);
    StopAnnounced(s, running);
    FollowersStay(s, s', [e]);
    ReportsStay(s.books, s'.books, s.past, s'.past, NoHole);
  }

  lemma StopKeeps(s: State, running: set<Key>)
    requires Inv(s, NoHole)
    ensures Inv(InvalidateNonRunning(s, running), NoHole)
  {
    hide StateOk, TraceOk, ClientsOk, InvalidateNonRunning;
    StopState(s, running);
    StopTrace(s, running);
    StopClients(s, running);
  }

  // ----- cancellation, PVE and the executor

  function Told(s: State, id: nat): State
    requires id in s.jobs
  {
    s.(jobs := s.jobs[id := s.jobs[id].(cancelled := true)])
  }

  lemma CancelState(s: State, id: nat)
    requires Inv(s, NoHole) && id in s.jobs
    ensures StateOk(Told(s, id), NoHole)
  {
    hide BooksOk, SectionsBounded, TraceOk, ClientsOk, Tied;
    CancelTies(s.jobs[id], id, s.tasks, s.books, s.past.owners);
    SameSectionJob(s.jobs, s.scanSlots, s.updateSlot, id, Told(s, id).jobs[id]);
  }

  lemma CancelTrace(s: State, id: nat)
    requires Inv(s, NoHole) && id in s.jobs
    ensures TraceOk(Told(s, id), NoHole)
  {
    hide StateOk, ClientsOk, Supplied, LedgerOk, ProvenanceOk;
    var s' := Told(s, id);
    assert s.past.log + [] == s.past.log;
    NothingDated(s.supply);
    SuppliedGrows(s.supply, s.supply, s.jobs, s'.jobs, s.followers, s.followers, s.books, s.books, s.past, s.past, []);
    LedgerIdle(s.jobs, s'.jobs, s.past, s.past, [], NoHole);
    SilentProvenance(s.jobs, s'.jobs, s.books, s.books, s.past.log);
  }

  lemma CancelKeeps(s: State, id: nat)
    requires Inv(s, NoHole) && id in s.jobs
    ensures Inv(Told(s, id), NoHole)
  {
    hide BooksOk, Tethered, SectionsBounded, TraceOk, RestoresSafe, FollowersWatch, StoredReported;
    assert s.past.log + [] == s.past.log;
    CancelState(s, id);
    CancelTrace(s, id);
    RestoresStay(s.jobs, Told(s, id).jobs, s.tasks, s.books, s.books, s.past, s.past, []);
    FollowersStay(s, Told(s, id), []);
  }

  lemma WorldMovesKeeps(s: State, id: nat, w: Snapshot)
    requires Inv(s, NoHole) && id in s.past.snapshots && WorldMove(s.past.snapshots[id], w)
    ensures Inv(s.(past := s.past.(snapshots := s.past.snapshots[id := w])), NoHole)
  {
    hide BooksOk, Tethered, SectionsBounded, Supplied, LedgerOk, ProvenanceOk, RestoresSafe, FollowersWatch;
    hide WorldMove;
    var s' := s.(past := s.past.(snapshots := s.past.snapshots[id := w]));
    assert s.past.log + [] == s.past.log;
    NothingDated(s.supply);
    SuppliedGrows(s.supply, s.supply, s.jobs, s.jobs, s.followers, s.followers, s.books, s.books, s.past, s'.past, []);
    LedgerWorldMoves(s.jobs, s.past, id, w);
    RestoresStay(s.jobs, s'.jobs, s.tasks, s.books, s.books, s.past, s'.past, []);
    FollowersStay(s, s', []);
  }

  lemma SameKeyTethers(jobs: Jobs, t: Tasks, b: Books, owners: Owners, id: nat, stage: RestoreStage)
    requires Tethered(jobs, t, b, owners) && id in jobs && jobs[id].RestoreJob?
    ensures Tethered(jobs[id := jobs[id].(stage := stage)], t, b, owners)
  {
    assert Tied(jobs[id], id, t, b, owners);
  }

  lemma RollbackPresupposes(s: State, id: nat)
    requires Inv(s, NoHole) && id in s.jobs && s.jobs[id].RestoreJob? && !s.jobs[id].stage.Validating?
    ensures RestoreAccepted(id, s.jobs[id].key) in s.past.log && TruthDiscarded(s.jobs[id].key) in s.past.log
    ensures s.jobs[id].key in s.books.reserved && id < s.supply
  {
    hide BooksOk, SectionsBounded, LedgerOk, ProvenanceOk, FollowersWatch, StoredReported;
    assert Tied(s.jobs[id], id, s.tasks, s.books, s.past.owners);
    assert RestoreSafe(id, s.jobs[id].key, s.jobs[id].stage, s.books, s.past.log);
  }

  lemma EnterRollbackTrace(s: State, id: nat)
    requires CanEnter(s, id) && s.jobs[id].RestoreJob?
    requires Inv(s, NoHole)
    ensures TraceOk(Enter(s, id), NoHole)
  {
    hide StateOk, ClientsOk, Supplied, LedgerOk, ProvenanceOk, LogDated;
    var s', e := Enter(s, id), RollbackSubmitted(id, s.jobs[id].key);
    RollbackPresupposes(s, id);
    OneDated(e, s.supply);
    SuppliedGrows(s.supply, s.supply, s.jobs, s'.jobs, s.followers, s.followers, s.books, s.books, s.past, s'.past, [e]);
    LedgerIdle(s.jobs, s'.jobs, s.past, s'.past, [e], NoHole);
    QuietProvenance(s.jobs, s'.jobs, s.books, s.books, s.past.log, e);
  }

  lemma EnterRollbackKeeps(s: State, id: nat)
    requires CanEnter(s, id) && s.jobs[id].RestoreJob?
    requires Inv(s, NoHole)
    ensures Inv(Enter(s, id), NoHole)
  {
    hide BooksOk, Tethered, SectionsBounded, TraceOk, RestoresSafe, FollowersWatch, StoredReported;
    var s', e := Enter(s, id), RollbackSubmitted(id, s.jobs[id].key);
    EnterRollbackTrace(s, id);
    SameKeyTethers(s.jobs, s.tasks, s.books, s.past.owners, id, Submitting(true));
    SameSectionJob(s.jobs, s.scanSlots, s.updateSlot, id, s'.jobs[id]);
    RestoresStay(s.jobs, s'.jobs, s.tasks, s.books, s.books, s.past, s'.past, [e]);
    FollowersStay(s, s', [e]);
    ReportsStay(s.books, s'.books, s.past, s'.past, NoHole);
  }

  /** The event an executor entry of an attempt adds to the history. */
  function Entered(id: nat, a: Attempt): Event
    requires a.name.Some?
  {
    if a.at.AwaitPost? then PostSubmitted(id, a.name.value) else DeleteSubmitted(id, a.name.value)
  }

  lemma EntryOk(past: Past, id: nat, key: Key, a: Attempt)
    requires Accounted(past, id, key, a) && a.name.Some? && (a.at == AwaitPost(false) || a.at == AwaitDelete(false))
    ensures EventOk(past.log, Entered(id, a))
  {
    NotYetRequested(past.log, a);
    assert PlanMatched(id, a.plan) in past.log;
  }

  lemma EnterAttemptSupplied(s: State, id: nat)
    requires CanEnter(s, id) && s.jobs[id].MutationJob?
    requires Inv(s, NoHole)
    ensures var s' := Enter(s, id);
      Supplied(s'.supply, s'.jobs, s'.followers, s'.books, s'.past)
  {
    hide StateOk, ClientsOk, Supplied, LedgerOk, ProvenanceOk, Accounted, LogDated, Consistent;
    LiveAttempt(s, id);
    var s', e := Enter(s, id), Entered(id, s.jobs[id].attempt);
    OneDated(e, s.supply);
    SuppliedGrows(s.supply, s.supply, s.jobs, s'.jobs, s.followers, s.followers, s.books, s.books, s.past, s'.past, [e]);
  }

  lemma EnterAttemptTrace(s: State, id: nat)
    requires CanEnter(s, id) && s.jobs[id].MutationJob?
    requires Inv(s, NoHole)
    ensures TraceOk(Enter(s, id), NoHole)
  {
    hide StateOk, ClientsOk, Supplied, LedgerOk, ProvenanceOk, Accounted, EventOk, Consistent;
    LiveAttempt(s, id);
    var s', a := Enter(s, id), s.jobs[id].attempt;
    EntryOk(s.past, id, s.jobs[id].key, a);
    EnterAttemptSupplied(s, id);
    if a.at.AwaitPost? {
      LedgerPosts(s.jobs, s.past, id);
    } else {
      LedgerDeletes(s.jobs, s.past, id);
    }
    QuietProvenance(s.jobs, s'.jobs, s.books, s.books, s.past.log, Entered(id, a));
  }

  lemma EnterAttemptClients(s: State, id: nat)
    requires CanEnter(s, id) && s.jobs[id].MutationJob?
    requires Inv(s, NoHole)
    ensures ClientsOk(Enter(s, id), NoHole)
  {
    hide BooksOk, Tethered, EndingOwned, SectionsBounded, TraceOk, RestoresSafe, FollowersWatch, StoredReported;
    var s', e := Enter(s, id), Entered(id, s.jobs[id].attempt);
    RestoresStay(s.jobs, s'.jobs, s.tasks, s.books, s.books, s.past, s'.past, [e]);
    FollowersStay(s, s', [e]);
    ReportsStay(s.books, s'.books, s.past, s'.past, NoHole);
  }

  lemma EnterAttemptState(s: State, id: nat)
    requires CanEnter(s, id) && s.jobs[id].MutationJob?
    requires Inv(s, NoHole)
    ensures StateOk(Enter(s, id), NoHole)
  {
    hide BooksOk, Tethered, SectionsBounded, TraceOk, ClientsOk;
    var s' := Enter(s, id);
    ProceedTethers(s.jobs, s.tasks, s.books, s.past.owners, id, s'.jobs[id].attempt);
    SameSectionJob(s.jobs, s.scanSlots, s.updateSlot, id, s'.jobs[id]);
  }

  lemma EnterAttemptKeeps(s: State, id: nat)
    requires CanEnter(s, id) && s.jobs[id].MutationJob?
    requires Inv(s, NoHole)
    ensures Inv(Enter(s, id), NoHole)
  {
    hide StateOk, TraceOk, ClientsOk, Enter;
    EnterAttemptState(s, id);
    EnterAttemptTrace(s, id);
    EnterAttemptClients(s, id);
  }

  // ----- Health

  lemma EndTaskKeeps(s: State, id: nat, h: Hole)
    requires Inv(s, NoHole) && id in s.jobs && !s.jobs[id].MutationJob?
    requires h.NoHole? || (h.ScanEnding? && Busy(s.books, ScanOwner, h.key))
    ensures Inv(EndJob(s, id), h)
  {
    hide StateOk, TraceOk, ClientsOk;
    EndTaskState(s, id, h);
    EndTaskTrace(s, id, h);
    EndTaskClients(s, id, h);
  }

  lemma EndTaskState(s: State, id: nat, h: Hole)
    requires Inv(s, NoHole) && id in s.jobs
    requires h.NoHole? || (h.ScanEnding? && Busy(s.books, ScanOwner, h.key))
    ensures StateOk(EndJob(s, id), h)
  {
    hide BooksOk, Tethered, SectionsBounded, TraceOk, ClientsOk;
    OpenHole(s.books, h);
    LeaveTethers(s.jobs, s.tasks, s.books, s.past.owners, id);
    LeaveSections(s.jobs, s.scanSlots, s.updateSlot, id);
  }

  lemma EndTaskTrace(s: State, id: nat, h: Hole)
    requires Inv(s, NoHole) && id in s.jobs && !s.jobs[id].MutationJob?
    ensures TraceOk(EndJob(s, id), h)
  {
    hide StateOk, ClientsOk, Supplied, LedgerOk, ProvenanceOk;
    var s' := EndJob(s, id);
    assert s.past.log + [] == s.past.log;
    NothingDated(s.supply);
    SuppliedGrows(s.supply, s.supply, s.jobs, s'.jobs, s.followers, s.followers, s.books, s.books, s.past, s.past, []);
    LedgerIdle(s.jobs, s'.jobs, s.past, s.past, [], NoHole);
    LedgerOpens(s'.jobs, s.past, h);
    SilentProvenance(s.jobs, s'.jobs, s.books, s.books, s.past.log);
  }

  lemma EndTaskClients(s: State, id: nat, h: Hole)
    requires Inv(s, NoHole) && id in s.jobs
    ensures ClientsOk(EndJob(s, id), h)
  {
    hide BooksOk, Tethered, EndingOwned, SectionsBounded, TraceOk, RestoresSafe, FollowersWatch;
    var s' := EndJob(s, id);
    assert s.past.log + [] == s.past.log;
    RestoresStay(s.jobs, s'.jobs, s.tasks, s.books, s.books, s.past, s.past, []);
    FollowersStay(s, s', []);
    OpenClients(s, h);
  }

  lemma FinishHealthState(s: State, key: Key, id: nat, outcome: HealthOutcome)
    requires Inv(s, NoHole) && OwnsHealth(s.books, key, id) && id !in s.jobs
    ensures StateOk(FinishHealth(s, key, id, outcome), NoHole)
  {
    hide BooksOk, Tethered, SectionsBounded, TraceOk, ClientsOk;
    var s' := FinishHealth(s, key, id, outcome);
    HealthBooksOk(s.books, NoHole, s'.books.health);
    HealthEndTethers(s.jobs, s.tasks, s.books, s.past.owners, key, id, s'.books.health[key]);
  }

  lemma FinishHealthTrace(s: State, key: Key, id: nat, outcome: HealthOutcome)
    requires Inv(s, NoHole) && OwnsHealth(s.books, key, id)
    ensures TraceOk(FinishHealth(s, key, id, outcome), NoHole)
  {
    hide StateOk, ClientsOk, Supplied, LedgerOk, ProvenanceOk, LogDated;
    var s' := FinishHealth(s, key, id, outcome);
    assert s.past.log + [] == s.past.log;
    NothingDated(s'.supply);
    SuppliedGrows(s.supply, s'.supply, s.jobs, s'.jobs, s.followers, s'.followers, s.books, s'.books, s.past, s'.past, []);
    LedgerIdle(s.jobs, s'.jobs, s.past, s'.past, [], NoHole);
    SilentProvenance(s.jobs, s'.jobs, s.books, s'.books, s.past.log);
  }

  lemma FinishHealthClients(s: State, key: Key, id: nat, outcome: HealthOutcome)
    requires Inv(s, NoHole) && OwnsHealth(s.books, key, id)
    ensures ClientsOk(FinishHealth(s, key, id, outcome), NoHole)
  {
    hide BooksOk, Tethered, EndingOwned, SectionsBounded, TraceOk, RestoresSafe, FollowersWatch, StoredReported;
    var s' := FinishHealth(s, key, id, outcome);
    assert s.past.log + [] == s.past.log;
    RestoresStay(s.jobs, s'.jobs, s.tasks, s.books, s'.books, s.past, s'.past, []);
    FollowersStay(s, s', []);
    ReportsStay(s.books, s'.books, s.past, s'.past, NoHole);
  }

  lemma HealthWakesKeeps(s: State, id: nat, reply: HealthReply)
    requires Inv(s, NoHole) && id in s.jobs && s.jobs[id].HealthJob?
    ensures Inv(WakeHealth(s, id, reply), NoHole)
  {
    hide StateOk, TraceOk, ClientsOk;
    var ended, key := EndJob(s, id), s.jobs[id].key;
    EndTaskKeeps(s, id, NoHole);
    if reply.Checked? && OwnsHealth(s.books, key, id) {
      FinishHealthState(ended, key, id, reply.outcome);
      FinishHealthTrace(ended, key, id, reply.outcome);
      FinishHealthClients(ended, key, id, reply.outcome);
    }
  }
}
