/** The wake-ups of Scan, Restore and Easy Update continuations keep the invariant. */
module WakeProofs {
  import opened Models
  import opened Attempts
  import opened History
  import opened ManagerState
  import opened ManagerMachine
  import opened ManagerInvariant
  import opened BooksProofs
  import opened TetherProofs
  import opened LedgerProofs
  import opened ProvenanceProofs
  import opened StepProofs
  import opened ListenerProofs
  import opened FinishProofs
  import opened TurnProofs
  import opened ActionProofs

  // ----- Scan: moving on

  lemma ScanMoveTethers(jobs: Jobs, t: Tasks, b: Books, owners: Owners, id: nat, position: ScanPosition)
    requires Tethered(jobs, t, b, owners) && id in jobs && jobs[id].ScanJob?
    ensures Tethered(jobs[id := jobs[id].(position := position)], t, b, owners)
  {
    assert Tied(jobs[id], id, t, b, owners);
  }

  lemma ScanMoveTrace(s: State, id: nat, position: ScanPosition)
    requires Inv(s, NoHole) && id in s.jobs && s.jobs[id].ScanJob?
    requires position.ScanCleanup? ==> position.begun == |s.past.log|
    ensures var jobs' := s.jobs[id := s.jobs[id].(position := position)];
      && Supplied(s.supply, jobs', s.followers, s.books, s.past) && LedgerOk(jobs', s.past, NoHole)
      && ProvenanceOk(jobs', s.books, s.past.log)
  {
    hide StateOk, ClientsOk, LedgerOk, LogOk, ScansProven, EvidenceProven, LogDated;
    var jobs' := s.jobs[id := s.jobs[id].(position := position)];
    assert s.past.log + [] == s.past.log;
    LedgerIdle(s.jobs, jobs', s.past, s.past, [], NoHole);
  }

  lemma ScanMoveKeeps(s: State, id: nat, position: ScanPosition)
    requires Inv(s, NoHole) && id in s.jobs && s.jobs[id].ScanJob?
    requires if position.ScanHelper? then s.jobs[id].position.ScanSlot? && |s.scanSlots| < MAX_GLOBAL_SCANS
             else position.ScanCleanup? && s.jobs[id].position.ScanHelper? && position.begun == |s.past.log|
    ensures var jobs' := s.jobs[id := s.jobs[id].(position := position)];
      Inv(s.(jobs := jobs', scanSlots := if position.ScanHelper? then s.scanSlots + {id} else s.scanSlots), NoHole)
  {
    hide BooksOk, Tethered, SectionsBounded, Supplied, LedgerOk, ProvenanceOk, RestoresSafe, FollowersWatch;
    hide StoredReported;
    var jobs' := s.jobs[id := s.jobs[id].(position := position)];
    assert s.past.log + [] == s.past.log;
    ScanMoveTethers(s.jobs, s.tasks, s.books, s.past.owners, id, position);
    ScanMoveTrace(s, id, position);
    if position.ScanHelper? {
      EnterScanSection(s.jobs, s.scanSlots, s.updateSlot, id, jobs'[id]);
    } else {
      SameSectionJob(s.jobs, s.scanSlots, s.updateSlot, id, jobs'[id]);
    }
    RestoresStay(s.jobs, jobs', s.tasks, s.books, s.books, s.past, s.past, []);
    FollowersStay(s, s.(jobs := jobs', scanSlots := if position.ScanHelper? then s.scanSlots + {id} else s.scanSlots), []);
  }

  // ----- Scan: the result

  lemma ScanOwned(s: State, id: nat)
    requires Inv(s, NoHole) && id in s.jobs && s.jobs[id].ScanJob? && OwnsScan(s.books, s.jobs[id].key, id)
    ensures var key := s.jobs[id].key;
      && Busy(s.books, ScanOwner, key) && key !in s.books.reserved && key !in s.books.evidence
  {
    hide Tethered, SectionsBounded, TraceOk, ClientsOk, FenceHolds, ViewedIsCurrent, HealthExclusive;
    var key := s.jobs[id].key;
    assert Busy(s.books, ScanOwner, key);
    WorkedOnNotReserved(s.books, ScanOwner, key);
    assert key in s.books.evidence ==> RunsPackageWork(s.books, key);
  }

  lemma ScanHoleCloses(s: State, s': State, key: Key)
    requires LedgerOk(s.jobs, s.past, ScanEnding(key)) && s'.jobs == s.jobs && s'.past == s.past
    ensures LedgerOk(s'.jobs, s'.past, NoHole)
  {
  }

  lemma FinishScanState(s: State, key: Key, id: nat, outcome: ScanRecord)
    requires Inv(s, ScanEnding(key)) && OwnsScan(s.books, key, id) && id !in s.jobs && !outcome.ScanRunning?
    ensures StateOk(FinishScan(s, key, id, outcome), NoHole)
  {
    hide BooksOk, Tethered, SectionsBounded, TraceOk, ClientsOk;
    ScanEndsBooksOk(s.books, key, outcome);
    ScanEndTethers(s.jobs, s.tasks, s.books, s.past.owners, key, id, outcome);
  }

  lemma FinishScanClients(s: State, s': State, key: Key, id: nat, outcome: ScanRecord, es: Log)
    requires Inv(s, ScanEnding(key)) && OwnsScan(s.books, key, id) && NoRestoreEnds(es)
    requires forall e | e in es :: !e.AutoremoveFollowed?
    requires s' == FinishScan(s.(past := s.past.(log := s.past.log + es)), key, id, outcome)
    ensures ClientsOk(s', NoHole)
  {
    hide BooksOk, Tethered, SectionsBounded, LedgerOk, ProvenanceOk, Supplied, RestoresSafe, FollowersWatch;
    RestoresStay(s.jobs, s'.jobs, s.tasks, s.books, s'.books, s.past, s'.past, es);
    FollowersStay(s, s', es);
  }

  lemma FailScanKeeps(s: State, key: Key, id: nat, failure: ScanFailure)
    requires Inv(s, ScanEnding(key)) && OwnsScan(s.books, key, id) && id !in s.jobs
    ensures Inv(FinishScan(s, key, id, ScanFailed(id, failure)), NoHole)
  {
    hide StateOk, ClientsOk, Supplied, LedgerOk, ProvenanceOk;
    var s' := FinishScan(s, key, id, ScanFailed(id, failure));
    assert s.past.log + [] == s.past.log;
    NothingDated(s.supply);
    FinishScanState(s, key, id, ScanFailed(id, failure));
    SuppliedGrows(s.supply, s.supply, s.jobs, s'.jobs, s.followers, s'.followers, s.books, s'.books, s.past, s'.past, []);
    ScanHoleCloses(s, s', key);
    SilentProvenance(s.jobs, s'.jobs, s.books, s'.books, s.past.log);
    FinishScanClients(s, s', key, id, ScanFailed(id, failure), []);
  }

  /** Everything stored or logged so far is older than this token. */
  ghost predicate TokenIsNew(s: State, token: nat) {
    && token < s.supply && LogDated(s.past.log, token)
    && (forall k | k in s.books.records && s.books.records[k].ScanSuccess? :: s.books.records[k].token < token)
  }

  lemma PassScanTrace(s: State, key: Key, id: nat, packages: seq<PendingPackage>, token: nat)
    requires Inv(s, ScanEnding(key)) && OwnsScan(s.books, key, id) && TokenIsNew(s, token)
    ensures TraceOk(
      FinishScan(s.(past := Append(s.past, ScanPublished(key, token, packages))), key, id,
                 ScanSuccess(id, packages, token, false)), NoHole)
  {
    hide StateOk, ClientsOk, Supplied, LedgerOk, ProvenanceOk, LogDated;
    var e := ScanPublished(key, token, packages);
    var s' := FinishScan(s.(past := Append(s.past, e)), key, id, ScanSuccess(id, packages, token, false));
    OneDated(e, s.supply);
    SuppliedGrows(s.supply, s.supply, s.jobs, s'.jobs, s.followers, s'.followers, s.books, s'.books, s.past, s'.past, [e]);
    LedgerIdle(s.jobs, s'.jobs, s.past, s'.past, [e], ScanEnding(key));
    ScanHoleCloses(s', s', key);
    ScanResultProvenance(s.jobs, s.books, s.past.log, key, id, packages, token);
  }

  lemma PassScanState(s: State, key: Key, id: nat, packages: seq<PendingPackage>, token: nat)
    requires Inv(s, ScanEnding(key)) && OwnsScan(s.books, key, id) && id !in s.jobs
    ensures StateOk(
      FinishScan(s.(past := Append(s.past, ScanPublished(key, token, packages))), key, id,
                 ScanSuccess(id, packages, token, false)), NoHole)
  {
    hide BooksOk, Tethered, EndingOwned, SectionsBounded, TraceOk, ClientsOk;
    FinishScanState(s, key, id, ScanSuccess(id, packages, token, false));
  }

  lemma PassScanKeeps(s: State, key: Key, id: nat, packages: seq<PendingPackage>, token: nat)
    requires Inv(s, ScanEnding(key)) && OwnsScan(s.books, key, id) && id !in s.jobs && TokenIsNew(s, token)
    ensures Inv(
      FinishScan(s.(past := Append(s.past, ScanPublished(key, token, packages))), key, id,
                 ScanSuccess(id, packages, token, false)), NoHole)
  {
    hide StateOk, TraceOk, ClientsOk, TokenIsNew;
    var e := ScanPublished(key, token, packages);
    PassScanState(s, key, id, packages, token);
    PassScanTrace(s, key, id, packages, token);
    FinishScanClients(s, FinishScan(s.(past := Append(s.past, e)), key, id, ScanSuccess(id, packages, token, false)),
                      key, id, ScanSuccess(id, packages, token, false), [e]);
  }

  lemma DrawKeeps(s: State, h: Hole)
    requires Inv(s, h)
    ensures Inv(s.(supply := s.supply + 1), h)
    ensures TokenIsNew(s.(supply := s.supply + 1), s.supply)
  {
    hide StateOk, LedgerOk, ProvenanceOk, RestoresSafe, StoredReported;
    DrawState(s, h);
    LogDatedGrows(s.past.log, [], s.supply, s.supply + 1);
    assert s.past.log + [] == s.past.log;
  }

  lemma DrawState(s: State, h: Hole)
    requires Inv(s, h)
    ensures StateOk(s.(supply := s.supply + 1), h)
  {
    hide BooksOk, Tethered, EndingOwned, SectionsBounded, TraceOk, ClientsOk;
  }

  lemma ScanPublishable(s: State, id: nat, observed: Option<seq<RemovablePackage>>)
    requires Inv(s, NoHole) && id in s.jobs && s.jobs[id].ScanJob? && !s.jobs[id].cancelled
    requires s.jobs[id].position.ScanCleanup?
    ensures Publishable(EndJob(s, id), s.jobs[id].key, observed, s.jobs[id].position.begun)
  {
    hide StateOk, ClientsOk, Supplied, LedgerOk, LogOk, ScansProven, EvidenceProven, Undisturbed;
    assert ObservationSafe(s.jobs[id], s.books.fenced, s.past.log);
  }

  lemma PublishedToken(s: State, key: Key, observed: Option<seq<RemovablePackage>>, begun: nat, presented: bool, token: nat)
    requires TokenIsNew(s, token)
    ensures TokenIsNew(PublishCleanup(s, key, observed, begun, presented), token)
  {
    hide LogDated;
  }

  lemma ScanResultKeeps(s: State, id: nat, observed: Option<seq<RemovablePackage>>, presented: bool)
    requires Inv(s, NoHole) && id in s.jobs && s.jobs[id].ScanJob? && !s.jobs[id].cancelled
    requires s.jobs[id].position.ScanCleanup? && OwnsScan(s.books, s.jobs[id].key, id)
    ensures var key := s.jobs[id].key;
      var published := PublishCleanup(EndJob(s, id).(supply := s.supply + 1), key, observed, s.jobs[id].position.begun, presented);
      var packages := s.jobs[id].position.packages;
      Inv(FinishScan(published.(past := Append(published.past, ScanPublished(key, s.supply, packages))), key, id,
                     ScanSuccess(id, packages, s.supply, false)), NoHole)
  {
    hide Inv, TokenIsNew, Forgets, Undisturbed;
    var key, h, begun := s.jobs[id].key, ScanEnding(s.jobs[id].key), s.jobs[id].position.begun;
    var drawn := EndJob(s, id).(supply := s.supply + 1);
    ScanOwned(s, id);
    EndTaskKeeps(s, id, h);
    DrawKeeps(EndJob(s, id), h);
    ScanPublishable(s, id, observed);
    PublishKeeps(drawn, h, key, observed, begun, presented);
    PublishedToken(drawn, key, observed, begun, presented, s.supply);
    PassScanKeeps(PublishCleanup(drawn, key, observed, begun, presented), key, id, s.jobs[id].position.packages, s.supply);
  }

  lemma ScanFailureKeeps(s: State, id: nat, failure: ScanFailure)
    requires Inv(s, NoHole) && id in s.jobs && s.jobs[id].ScanJob?
    ensures Inv(FinishScan(EndJob(s, id), s.jobs[id].key, id, ScanFailed(id, failure)), NoHole)
  {
    hide Inv;
    if OwnsScan(s.books, s.jobs[id].key, id) {
      ScanOwned(s, id);
      EndTaskKeeps(s, id, ScanEnding(s.jobs[id].key));
      FailScanKeeps(EndJob(s, id), s.jobs[id].key, id, failure);
    } else {
      EndTaskKeeps(s, id, NoHole);
    }
  }

  lemma ScanWakesKeeps(s: State, id: nat, reply: ScanReply, presented: bool)
    requires id in s.jobs && s.jobs[id].ScanJob? && (s.jobs[id].cancelled ==> reply.ScanCancelled?)
    requires s.jobs[id].position.ScanSlot? && reply.SlotGranted? ==> |s.scanSlots| < MAX_GLOBAL_SCANS
    requires Inv(s, NoHole)
    ensures Inv(WakeScan(s, id, reply, presented), NoHole)
  {
    hide Inv, EndJob, FinishScan, PublishCleanup, OwnsScan;
    var job := s.jobs[id];
    if reply.ScanCancelled? {
      EndTaskKeeps(s, id, NoHole);
    } else {
      match job.position
      case ScanSlot =>
        if reply.SlotGranted? {
          ScanMoveKeeps(s, id, ScanHelper);
        } else {
          ScanFailureKeeps(s, id, ExecutionFailed);
        }
      case ScanHelper =>
        if reply.Scanned? {
          ScanMoveKeeps(s, id, ScanCleanup(reply.packages, |s.past.log|));
        } else {
          ScanFailureKeeps(s, id, if reply.ScanRaised? then reply.failure else ExecutionFailed);
        }
      case ScanCleanup(packages, begun) =>
        if OwnsScan(s.books, job.key, id) {
          ScanResultKeeps(s, id, if reply.CleanupPlanned? then Some(reply.removable) else None, presented);
        } else {
          EndTaskKeeps(s, id, NoHole);
        }
    }
  }

  // ----- what a scan's wake-up leaves alone

  lemma PublishFrame(s: State, key: Key, observed: Option<seq<RemovablePackage>>, begun: nat, presented: bool)
    ensures var s' := PublishCleanup(s, key, observed, begun, presented);
      s'.jobs == s.jobs && s.supply <= s'.supply && s'.books.reserved == s.books.reserved
  {
  }

  lemma ForgetFrame(s: State, job: Job)
    requires job.MutationJob?
    ensures var s' := ForgetCandidates(s, job);
      s'.jobs == s.jobs && s.supply <= s'.supply && s'.books.reserved == s.books.reserved
  {
  }

  lemma FinishScanFrame(s: State, key: Key, id: nat, outcome: ScanRecord)
    ensures var s' := FinishScan(s, key, id, outcome);
      s'.jobs == s.jobs && s'.supply == s.supply && s'.books.reserved == s.books.reserved
  {
  }

  lemma ScanFrame(s: State, id: nat, reply: ScanReply, presented: bool)
    requires id in s.jobs && s.jobs[id].ScanJob?
    ensures var s' := WakeScan(s, id, reply, presented);
      && (forall i | i in s'.jobs :: i in s.jobs && (s'.jobs[i] == s.jobs[i] || s'.jobs[i].ScanJob?))
      && s.supply <= s'.supply && s'.books.reserved == s.books.reserved
  {
    hide PublishCleanup, FinishScan, OwnsScan;
    forall key, outcome
      ensures var s' := FinishScan(EndJob(s, id), key, id, outcome);
        s'.jobs == s.jobs - {id} && s'.supply == s.supply && s'.books.reserved == s.books.reserved
    {
      FinishScanFrame(EndJob(s, id), key, id, outcome);
    }
    var job := s.jobs[id];
    if job.position.ScanCleanup? {
      var observed := if reply.CleanupPlanned? then Some(reply.removable) else None;
      var drawn := EndJob(s, id).(supply := s.supply + 1);
      PublishFrame(drawn, job.key, observed, job.position.begun, presented);
      var published := PublishCleanup(drawn, job.key, observed, job.position.begun, presented);
      var e := ScanPublished(job.key, s.supply, job.position.packages);
      FinishScanFrame(published.(past := Append(published.past, e)), job.key, id,
                      ScanSuccess(id, job.position.packages, s.supply, false));
    }
  }

  // ----- Restore

  function Cut(s: State, id: nat): State
    requires id in s.jobs && s.jobs[id].RestoreJob?
  {
    var cut := InvalidateRestoreTarget(s, s.jobs[id].key);
    cut.(jobs := cut.jobs[id := s.jobs[id].(stage := Submitting(false))])
  }

  lemma CutTethers(jobs: Jobs, t: Tasks, b: Books, owners: Owners, id: nat, stage: RestoreStage, ids: set<nat>)
    requires Tethered(CancelJobs(jobs, ids), t, b, owners) && id in jobs && jobs[id].RestoreJob?
    ensures Tethered(CancelJobs(jobs, ids)[id := jobs[id].(stage := stage)], t, b, owners)
  {
    assert Tied(CancelJobs(jobs, ids)[id], id, t, b, owners);
  }

  lemma CutState(s: State, id: nat)
    requires Inv(s, NoHole) && id in s.jobs && s.jobs[id].RestoreJob? && s.jobs[id].key in s.books.reserved
    ensures StateOk(Cut(s, id), NoHole)
  {
    hide Tethered, SectionsBounded, TraceOk, ClientsOk, FenceHolds, ViewedIsCurrent, HealthExclusive, WorkExclusive;
    hide NoEvidenceWhileRunning, DiscardBooks;
    var key, ids := s.jobs[id].key, TaskOf(s.tasks.health, s.jobs[id].key);
    DiscardBooksOk(s.books, NoHole, key);
    DiscardTethers(s.jobs, s.tasks, s.books, s.past.owners, key);
    CutTethers(s.jobs, s.tasks.(health := s.tasks.health - {key}), DiscardBooks(s.books, key), s.past.owners, id,
               Submitting(false), ids);
    CancelSections(s.jobs, s.scanSlots, s.updateSlot, ids);
    SameSectionJob(CancelJobs(s.jobs, ids), s.scanSlots, s.updateSlot, id, s.jobs[id].(stage := Submitting(false)));
  }

  lemma CutTrace(s: State, id: nat)
    requires Inv(s, NoHole) && id in s.jobs && s.jobs[id].RestoreJob? && s.jobs[id].key in s.books.reserved
    ensures TraceOk(Cut(s, id), NoHole)
  {
    hide Tethered, SectionsBounded, ClientsOk, Supplied, LedgerOk, ProvenanceOk, LogDated;
    hide FenceHolds, ViewedIsCurrent, HealthExclusive, WorkExclusive, NoEvidenceWhileRunning;
    var s', e := Cut(s, id), TruthDiscarded(s.jobs[id].key);
    OneDated(e, s.supply);
    SuppliedGrows(s.supply, s.supply, s.jobs, s'.jobs, s.followers, s'.followers, s.books, s'.books, s.past, s'.past, [e]);
    LedgerIdle(s.jobs, s'.jobs, s.past, s'.past, [e], NoHole);
    DiscardProvenance(s.jobs, s'.jobs, s.tasks, s.books, s.past.owners, s.past.log, s.jobs[id].key);
  }

  lemma RestoreAdvances(jobs: Jobs, b: Books, past: Past, id: nat, job: Job)
    requires RestoresSafe(jobs, b, past) && id in jobs && jobs[id].RestoreJob?
    requires job.RestoreJob? && job.key == jobs[id].key && Discarded(b, job.key) && TruthDiscarded(job.key) in past.log
    ensures RestoresSafe(jobs[id := job], b, past)
  {
    assert RestoreSafe(id, jobs[id].key, jobs[id].stage, b, past.log);
  }

  lemma CutClients(s: State, id: nat)
    requires Inv(s, NoHole) && id in s.jobs && s.jobs[id].RestoreJob?
    ensures ClientsOk(Cut(s, id), NoHole)
  {
    hide BooksOk, Tethered, SectionsBounded, TraceOk, RestoresSafe, FollowersWatch, StoredReported;
    var s', key := Cut(s, id), s.jobs[id].key;
    var jobs := CancelJobs(s.jobs, TaskOf(s.tasks.health, key));
    RestoresStay(s.jobs, jobs, s.tasks, s.books, s'.books, s.past, s'.past, [TruthDiscarded(key)]);
    RestoreAdvances(jobs, s'.books, s'.past, id, s'.jobs[id]);
    FollowersStay(s, s', [TruthDiscarded(key)]);
    ReportsStay(s.books, s'.books, s.past, s'.past, NoHole);
  }

  lemma WatchKeeps(s: State, id: nat)
    requires Inv(s, NoHole) && id in s.jobs && s.jobs[id].RestoreJob? && s.jobs[id].stage.Submitting?
    ensures Inv(s.(jobs := s.jobs[id := s.jobs[id].(stage := Watching)]), NoHole)
  {
    hide BooksOk, Tethered, SectionsBounded, Supplied, LedgerOk, ProvenanceOk, RestoresSafe, FollowersWatch;
    hide StoredReported;
    var s' := s.(jobs := s.jobs[id := s.jobs[id].(stage := Watching)]);
    assert s.past.log + [] == s.past.log;
    SameKeyTethers(s.jobs, s.tasks, s.books, s.past.owners, id, Watching);
    SameSectionJob(s.jobs, s.scanSlots, s.updateSlot, id, s'.jobs[id]);
    NothingDated(s.supply);
    SuppliedGrows(s.supply, s.supply, s.jobs, s'.jobs, s.followers, s.followers, s.books, s.books, s.past, s.past, []);
    LedgerIdle(s.jobs, s'.jobs, s.past, s.past, [], NoHole);
    SilentProvenance(s.jobs, s'.jobs, s.books, s.books, s.past.log);
    RestoresStay(s.jobs, s'.jobs, s.tasks, s.books, s.books, s.past, s.past, []);
    FollowersStay(s, s', []);
  }

  /** What a live Restore holds when it ends. */
  lemma LiveRestore(s: State, id: nat)
    requires Inv(s, NoHole) && id in s.jobs && s.jobs[id].RestoreJob?
    ensures RestoreAccepted(id, s.jobs[id].key) in s.past.log && id < s.supply
    ensures s.jobs[id].key in s.books.reserved && s.jobs[id].key in s.past.owners && s.past.owners[s.jobs[id].key] == id
    ensures !s.jobs[id].stage.Validating? ==> Discarded(s.books, s.jobs[id].key)
    ensures forall i | i in s.jobs - {id} && s.jobs[i].RestoreJob? :: s.jobs[i].key != s.jobs[id].key
  {
    hide BooksOk, SectionsBounded, LedgerOk, ProvenanceOk, FollowersWatch, StoredReported;
    assert Tied(s.jobs[id], id, s.tasks, s.books, s.past.owners);
    assert RestoreSafe(id, s.jobs[id].key, s.jobs[id].stage, s.books, s.past.log);
    assert forall i | i in s.jobs :: Tied(s.jobs[i], i, s.tasks, s.books, s.past.owners);
  }

  lemma EndRestoreState(s: State, id: nat, uncertain: bool)
    requires Inv(s, NoHole) && id in s.jobs && s.jobs[id].RestoreJob?
    ensures StateOk(FinishRestore(s, id, s.jobs[id].key, uncertain), NoHole)
  {
    hide BooksOk, Tethered, SectionsBounded, TraceOk, ClientsOk;
    LiveRestore(s, id);
    LeaveTethers(s.jobs, s.tasks, s.books, s.past.owners, id);
    LeaveSections(s.jobs, s.scanSlots, s.updateSlot, id);
    ReleaseBooksOk(s.books, NoHole, s.jobs[id].key);
    ReleaseTethers(s.jobs - {id}, s.tasks, s.books, s.past.owners, s.jobs[id].key);
  }

  lemma EndRestoreTrace(s: State, id: nat, uncertain: bool)
    requires Inv(s, NoHole) && id in s.jobs && s.jobs[id].RestoreJob?
    ensures TraceOk(FinishRestore(s, id, s.jobs[id].key, uncertain), NoHole)
  {
    hide StateOk, ClientsOk, Supplied, LedgerOk, ProvenanceOk, LogDated;
    LiveRestore(s, id);
    var s', e := FinishRestore(s, id, s.jobs[id].key, uncertain), RestoreFinished(id, s.jobs[id].key, uncertain);
    OneDated(e, s.supply);
    SuppliedGrows(s.supply, s.supply, s.jobs, s'.jobs, s.followers, s'.followers, s.books, s'.books, s.past, s'.past, [e]);
    LedgerIdle(s.jobs, s'.jobs, s.past, s'.past, [e], NoHole);
    QuietProvenance(s.jobs, s'.jobs, s.books, s'.books, s.past.log, e);
  }

  /** A known outcome gives back exactly the own reservation, and an unknown one strands it. */
  lemma RestoreEnds(jobs: Jobs, b: Books, past: Past, id: nat, key: Key, uncertain: bool)
    requires RestoresSafe(jobs, b, past) && id in jobs && jobs[id].RestoreJob? && jobs[id].key == key
    requires key in b.reserved && key in past.owners && past.owners[key] == id && (uncertain ==> Discarded(b, key))
    ensures RestoresSafe(jobs - {id}, if uncertain then b else b.(reserved := b.reserved - {key}),
                         Append(past, RestoreFinished(id, key, uncertain)))
  {
    var b' := if uncertain then b else b.(reserved := b.reserved - {key});
    var past' := Append(past, RestoreFinished(id, key, uncertain));
    forall i | i in jobs - {id} && jobs[i].RestoreJob?
      ensures RestoreSafe(i, jobs[i].key, jobs[i].stage, b', past'.log)
    {
      assert RestoreSafe(i, jobs[i].key, jobs[i].stage, b, past.log);
    }
    forall e | e in past.log && e.RestoreFinished? && e.uncertain
      ensures StrandedSafe(e.id, e.key, jobs - {id}, b', past'.owners)
    {
      assert StrandedSafe(e.id, e.key, jobs, b, past.owners);
    }
  }

  lemma EndRestoreClients(s: State, id: nat, uncertain: bool)
    requires Inv(s, NoHole) && id in s.jobs && s.jobs[id].RestoreJob?
    requires uncertain ==> !s.jobs[id].stage.Validating?
    ensures ClientsOk(FinishRestore(s, id, s.jobs[id].key, uncertain), NoHole)
  {
    hide BooksOk, Tethered, SectionsBounded, TraceOk, RestoresSafe, FollowersWatch, StoredReported;
    LiveRestore(s, id);
    var key := s.jobs[id].key;
    var s' := FinishRestore(s, id, key, uncertain);
    RestoreEnds(s.jobs, s.books, s.past, id, key, uncertain);
    FollowersStay(s, s', [RestoreFinished(id, key, uncertain)]);
    ReportsStay(s.books, s'.books, s.past, s'.past, NoHole);
  }

  lemma EndRestoreKeeps(s: State, id: nat, uncertain: bool)
    requires Inv(s, NoHole) && id in s.jobs && s.jobs[id].RestoreJob?
    requires uncertain ==> !s.jobs[id].stage.Validating?
    ensures Inv(FinishRestore(s, id, s.jobs[id].key, uncertain), NoHole)
  {
    hide StateOk, TraceOk, ClientsOk, FinishRestore;
    EndRestoreState(s, id, uncertain);
    EndRestoreTrace(s, id, uncertain);
    EndRestoreClients(s, id, uncertain);
  }

  lemma RestoreWakesKeeps(s: State, id: nat, reply: RestoreReply)
    requires id in s.jobs && s.jobs[id].RestoreJob?
    requires Inv(s, NoHole)
    ensures Inv(WakeRestore(s, id, reply), NoHole)
  {
    hide StateOk, TraceOk, ClientsOk, FinishRestore, InvalidateRestoreTarget;
    var job := s.jobs[id];
    match job.stage
    case Validating =>
      if reply.StillEligible? && !reply.createRunning && job.key in s.books.reserved {
        CutState(s, id);
        CutTrace(s, id);
        CutClients(s, id);
      } else {
        EndRestoreKeeps(s, id, false);
      }
    case Submitting(_) =>
      if reply.TaskAccepted? {
        WatchKeeps(s, id);
      } else {
        EndRestoreKeeps(s, id, !reply.RollbackRefused?);
      }
    case Watching => EndRestoreKeeps(s, id, !(reply.TaskObserved? && reply.known));
  }

  lemma FinishRestoreFrame(s: State, id: nat, key: Key, uncertain: bool)
    ensures var s' := FinishRestore(s, id, key, uncertain);
      s'.jobs == s.jobs - {id} && s'.supply == s.supply
  {
  }

  lemma RestoreFrame(s: State, id: nat, reply: RestoreReply)
    requires id in s.jobs && s.jobs[id].RestoreJob?
    ensures var s' := WakeRestore(s, id, reply);
      && (forall i | i in s'.jobs :: i in s.jobs && (SameOrStopped(s.jobs[i], s'.jobs[i]) || s'.jobs[i].RestoreJob?))
      && s'.supply == s.supply
  {
    hide FinishRestore, DiscardBooks;
    forall uncertain
      ensures var s' := FinishRestore(s, id, s.jobs[id].key, uncertain);
        s'.jobs == s.jobs - {id} && s'.supply == s.supply
    {
      FinishRestoreFrame(s, id, s.jobs[id].key, uncertain);
    }
  }

  // ----- Easy Update continuations

  lemma ParkKeeps(s: State, id: nat)
    requires Inv(s, NoHole) && id in s.followers && Decide(s.coordinator, s.books, s.followers[id]).None?
    ensures Inv(s.(followers := s.followers[id := s.followers[id].(parked := true, seen := s.version)]), NoHole)
  {
    hide BooksOk, Tethered, EndingOwned, SectionsBounded, LedgerOk, ProvenanceOk, RestoresSafe, StoredReported;
  }

  lemma LeaveFollowKeeps(s: State, id: nat)
    requires Inv(s, NoHole)
    ensures Inv(s.(followers := s.followers - {id}), NoHole)
  {
    hide BooksOk, Tethered, EndingOwned, SectionsBounded, LedgerOk, ProvenanceOk, RestoresSafe, StoredReported;
  }

  lemma ReportedInLog(past: Past, id: nat)
    requires ReportedOnce(past) && id in past.reports
    ensures AttemptReported(id) in past.log
  {
    assert Count(past.log, AttemptReported(id)) == 1;
  }

  /** What the history holds when a continuation starts its Autoremove. */
  lemma FollowedOk(s: State, id: nat)
    requires Inv(s, NoHole) && id in s.followers && Decide(s.coordinator, s.books, s.followers[id]) == Some(true)
    ensures var f := s.followers[id];
      EventOk(s.past.log + [CleanupAccepted(s.supply, f.key, s.books.evidence[f.key])],
              AutoremoveFollowed(id, f.attempt, s.supply))
    ensures s.followers[id].attempt < s.supply && id < s.supply
  {
    hide StateOk, ProvenanceOk, AttemptsAccounted, ReportsTruthful, ReportedOnce, NoneLost, RestoresSafe, LogDated;
    var f := s.followers[id];
    ReportedInLog(s.past, f.attempt);
    var log' := s.past.log + [CleanupAccepted(s.supply, f.key, s.books.evidence[f.key])];
    assert log'[|s.past.log|].CleanupAccepted? && log'[|s.past.log|].id == s.supply;
  }

  lemma FollowedKeeps(s: State, e: Event)
    requires Inv(s, NoHole) && e.AutoremoveFollowed? && EventOk(s.past.log, e) && Dated(e, s.supply)
    requires e.follower !in s.followers
    ensures Inv(s.(past := Append(s.past, e)), NoHole)
  {
    hide BooksOk, Tethered, SectionsBounded, Supplied, LedgerOk, ProvenanceOk, RestoresSafe, LogDated, EventOk;
    var s' := s.(past := Append(s.past, e));
    OneDated(e, s.supply);
    SuppliedGrows(s.supply, s.supply, s.jobs, s.jobs, s.followers, s.followers, s.books, s.books, s.past, s'.past, [e]);
    LedgerIdle(s.jobs, s.jobs, s.past, s'.past, [e], NoHole);
    QuietProvenance(s.jobs, s.jobs, s.books, s.books, s.past.log, e);
    RestoresStay(s.jobs, s.jobs, s.tasks, s.books, s.books, s.past, s'.past, [e]);
  }

  lemma FollowerWakesKeeps(s: State, id: nat)
    requires Inv(s, NoHole) && id in s.followers
    ensures Inv(RunFollower(s, id), NoHole)
  {
    hide Inv, BusyAt, EventOk, Decide;
    var f := s.followers[id];
    var decision := Decide(s.coordinator, s.books, f);
    if decision.None? {
      ParkKeeps(s, id);
    } else {
      var left := s.(followers := s.followers - {id});
      LeaveFollowKeeps(s, id);
      if decision.value && AutoremoveRefusal(s, f.key, true, true).None? {
        FollowedOk(s, id);
        AcceptAutoremoveKeeps(left, NoHole, f.key);
        FollowedKeeps(AcceptAutoremove(left, f.key), AutoremoveFollowed(id, f.attempt, s.supply));
      }
    }
  }
}
