/** Whatever an attempt's awaited operation came back with, what the manager does with it keeps the invariant. */
module TurnProofs {
  import opened Models
  import opened Attempts
  import opened History
  import opened ManagerState
  import opened ManagerMachine
  import opened ManagerInvariant
  import opened BooksProofs
  import opened TetherProofs
  import opened LedgerProofs
  import opened ProvenanceProofs
  import opened StepProofs
  import opened ListenerProofs
  import opened FinishProofs

  // ----- milestones

  /** Milestones of an attempt concern nothing but that attempt. */
  lemma PassedIsQuiet(a: Attempt, passed: Passed, supply: nat)
    requires a.id < supply
    ensures var es := PassedEvents(a, passed);
      && LogDated(es, supply) && NoRestoreEnds(es)
      && (forall e | e in es :: !e.UpdateAccepted? && !e.CleanupAccepted? && !e.AutoremoveFollowed? && !e.AttemptReported?)
      && (forall e, k: Key | e in es :: !Disturbs(e, k))
  {
  }

  lemma NotYetRequested(log: Log, a: Attempt)
    requires Evidenced(log, a)
    ensures a.mutating <==> MutationRequested(a.id) in log
  {
    CountGrows(log, [], MutationRequested(a.id));
  }

  lemma SkippedIsAuthorized(past: Past, id: nat, key: Key, a: Attempt)
    requires Accounted(past, id, key, a) && a.skip
    ensures Authorized(past.log + [PlanMatched(id, a.plan)], id)
  {
    var log' := past.log + [PlanMatched(id, a.plan)];
    var grant := past.grants[id];
    assert grant in log' && PlanMatched(id, a.plan) in log';
  }

  lemma ConfirmedIsAuthorized(past: Past, id: nat, key: Key, a: Attempt, name: string)
    requires Accounted(past, id, key, a) && PlanPassed(a.at)
    ensures Authorized(past.log + [SnapshotReady(id, name)], id)
  {
    var log' := past.log + [SnapshotReady(id, name)];
    var grant := past.grants[id];
    assert grant in log' && PlanMatched(id, a.plan) in log' && SnapshotReady(id, name) in log';
  }

  lemma PassedOk(past: Past, id: nat, key: Key, a: Attempt, passed: Passed, mutating: bool)
    requires LogOk(past.log) && Accounted(past, id, key, a) && PassedFits(a, passed, mutating)
    ensures LogOk(past.log + PassedEvents(a, passed))
  {
    hide LogOk, Authorized;
    var log := past.log;
    NotYetRequested(log, a);
    match passed
    case Nothing => assert log + [] == log;
    case PlanUnchanged => AppendOk(log, PlanMatched(id, a.plan));
    case PlanUnchangedThenMutates =>
      AppendOk(log, PlanMatched(id, a.plan));
      SkippedIsAuthorized(past, id, key, a);
      AppendOk(log + [PlanMatched(id, a.plan)], MutationRequested(id));
      assert log + [PlanMatched(id, a.plan)] + [MutationRequested(id)] == log + PassedEvents(a, passed);
    case ConfirmedThenMutates(name) =>
      AppendOk(log, SnapshotReady(id, name));
      ConfirmedIsAuthorized(past, id, key, a, name);
      AppendOk(log + [SnapshotReady(id, name)], MutationRequested(id));
      assert log + [SnapshotReady(id, name)] + [MutationRequested(id)] == log + PassedEvents(a, passed);
    case GuestAnswered => AppendOk(log, GuestAlive(id));
  }

  lemma PassedProvenance(jobs: Jobs, jobs': Jobs, b: Books, past: Past, id: nat, passed: Passed, mutating: bool)
    requires ProvenanceOk(jobs, b, past.log) && id in jobs && jobs[id].MutationJob?
    requires Accounted(past, id, jobs[id].key, jobs[id].attempt) && PassedFits(jobs[id].attempt, passed, mutating)
    requires forall i | i in jobs' && Observing(jobs'[i]) :: i in jobs && jobs'[i] == jobs[i]
    ensures ProvenanceOk(jobs', b, Pass(past, jobs[id].attempt, passed).log)
  {
    hide LogOk, ScansProven, EvidenceProven, Accounted;
    var a := jobs[id].attempt;
    var es := PassedEvents(a, passed);
    assert a.id == id by { AccountedId(past, id, jobs[id].key, a); }
    PassedIsQuiet(a, passed, id + 1);
    PassedOk(past, id, jobs[id].key, a, passed, mutating);
    ScansGrow(b, b, past.log, es);
    EvidenceGrows(b, b, past.log, es);
    ObservationsGrow(jobs, jobs', b.fenced, b.fenced, past.log, es);
  }

  lemma AccountedId(past: Past, id: nat, key: Key, a: Attempt)
    requires Accounted(past, id, key, a)
    ensures a.id == id && id in past.snapshots && Consistent(a, past.snapshots[id]) && id !in past.reports
  {
  }

  /** A live attempt is accounted for, and is the one its task belongs to. */
  lemma LiveAttempt(s: State, id: nat)
    requires Inv(s, NoHole) && id in s.jobs && s.jobs[id].MutationJob?
    ensures Accounted(s.past, id, s.jobs[id].key, s.jobs[id].attempt)
    ensures s.jobs[id].attempt.id == id && id < s.supply && id in s.past.snapshots && id !in s.past.reports
    ensures Consistent(s.jobs[id].attempt, s.past.snapshots[id])
    ensures !s.jobs[id].cancelled ==> OwnsMutation(s.books, s.jobs[id].attempt.kind, s.jobs[id].key, id)
  {
    hide BooksOk, SectionsBounded, ProvenanceOk, ClientsOk, Consistent;
    assert Tied(s.jobs[id], id, s.tasks, s.books, s.past.owners);
    AccountedId(s.past, id, s.jobs[id].key, s.jobs[id].attempt);
  }

  // ----- going on

  lemma ProceedTethers(jobs: Jobs, t: Tasks, b: Books, owners: Owners, id: nat, next: Attempt)
    requires Tethered(jobs, t, b, owners) && id in jobs && jobs[id].MutationJob?
    requires next.kind == jobs[id].attempt.kind && next.id == jobs[id].attempt.id
    ensures Tethered(jobs[id := jobs[id].(attempt := next)], t, b, owners)
  {
    assert Tied(jobs[id], id, t, b, owners);
    assert Tied(jobs[id].(attempt := next), id, t, b, owners);
  }

  lemma ProceedState(s: State, id: nat, next: Attempt, passed: Passed)
    requires Inv(s, NoHole) && id in s.jobs && s.jobs[id].MutationJob? && id in s.past.snapshots
    requires ProceedFits(s.jobs[id].attempt, s.past.snapshots[id], next, passed)
    requires s.jobs[id].attempt.at.AwaitSlot? ==> s.updateSlot == {}
    ensures StateOk(ApplyTurn(s, id, Proceed(next, passed), true, QUIET, true), NoHole)
  {
    hide BooksOk, Tethered, SectionsBounded, TraceOk, ClientsOk, Consistent, PassedFits;
    var job := s.jobs[id];
    ProceedTethers(s.jobs, s.tasks, s.books, s.past.owners, id, next);
    if job.attempt.at.AwaitSlot? {
      EnterMutationSection(s.jobs, s.scanSlots, s.updateSlot, id, job.(attempt := next));
    } else {
      SameSectionJob(s.jobs, s.scanSlots, s.updateSlot, id, job.(attempt := next));
    }
  }

  lemma PassedSupplied(s: State, jobs': Jobs, a: Attempt, passed: Passed, h: Hole)
    requires Inv(s, h) && jobs'.Keys <= s.jobs.Keys && a.id < s.supply
    ensures Supplied(s.supply, jobs', s.followers, s.books, Pass(s.past, a, passed))
  {
    hide StateOk, ClientsOk, LedgerOk, ProvenanceOk, LogDated;
    PassedIsQuiet(a, passed, s.supply);
    SuppliedGrows(s.supply, s.supply, s.jobs, jobs', s.followers, s.followers, s.books, s.books, s.past,
                  Pass(s.past, a, passed), PassedEvents(a, passed));
  }

  lemma ProceedTrace(s: State, id: nat, next: Attempt, passed: Passed)
    requires Inv(s, NoHole) && id in s.jobs && s.jobs[id].MutationJob? && id in s.past.snapshots
    requires ProceedFits(s.jobs[id].attempt, s.past.snapshots[id], next, passed)
    ensures TraceOk(ApplyTurn(s, id, Proceed(next, passed), true, QUIET, true), NoHole)
  {
    hide StateOk, ClientsOk, Supplied, LedgerOk, ProvenanceOk, Consistent, PassedFits, Accounted;
    LiveAttempt(s, id);
    var a, jobs' := s.jobs[id].attempt, s.jobs[id := s.jobs[id].(attempt := next)];
    PassedSupplied(s, jobs', a, passed, NoHole);
    LedgerProceeds(s.jobs, s.past, id, next, passed);
    PassedProvenance(s.jobs, jobs', s.books, s.past, id, passed, next.mutating);
  }

  lemma PassedClients(s: State, s': State, id: nat, passed: Passed)
    requires Inv(s, NoHole) && id in s.jobs && s.jobs[id].MutationJob?
    requires s'.followers == s.followers && s'.version == s.version && s'.coordinator == s.coordinator && s'.books == s.books
    requires s'.past == Pass(s.past, s.jobs[id].attempt, passed) && SameRestores(s.jobs, s'.jobs)
    ensures ClientsOk(s', NoHole)
  {
    hide BooksOk, Tethered, SectionsBounded, LedgerOk, ProvenanceOk, Supplied;
    hide RestoresSafe, FollowersWatch, StoredReported;
    LiveAttempt(s, id);
    var es := PassedEvents(s.jobs[id].attempt, passed);
    PassedIsQuiet(s.jobs[id].attempt, passed, s.supply);
    RestoresStay(s.jobs, s'.jobs, s.tasks, s.books, s'.books, s.past, s'.past, es);
    FollowersStay(s, s', es);
    ReportsStay(s.books, s'.books, s.past, s'.past, NoHole);
  }

  lemma ProceedKeeps(s: State, id: nat, next: Attempt, passed: Passed, presented: bool, l: Listeners, created: bool)
    requires Inv(s, NoHole) && id in s.jobs && s.jobs[id].MutationJob? && id in s.past.snapshots
    requires ProceedFits(s.jobs[id].attempt, s.past.snapshots[id], next, passed)
    requires s.jobs[id].attempt.at.AwaitSlot? ==> s.updateSlot == {}
    ensures Inv(ApplyTurn(s, id, Proceed(next, passed), presented, l, created), NoHole)
  {
    hide StateOk, TraceOk, ClientsOk, ProceedFits;
    ProceedState(s, id, next, passed);
    ProceedTrace(s, id, next, passed);
    PassedClients(s, ApplyTurn(s, id, Proceed(next, passed), true, QUIET, true), id, passed);
  }

  // ----- staying for one more observation

  function Stays(s: State, id: nat, record: UpdateRecord, passed: Passed): State
    requires id in s.jobs && s.jobs[id].MutationJob?
  {
    var a, past := s.jobs[id].attempt, Pass(s.past, s.jobs[id].attempt, passed);
    var observing := a.(at := AwaitObservation(record, |past.log|));
    s.(jobs := s.jobs[id := s.jobs[id].(attempt := observing)], updateSlot := s.updateSlot - {id}, past := past)
  }

  lemma ObserveState(s: State, id: nat, record: UpdateRecord, passed: Passed)
    requires Inv(s, NoHole) && id in s.jobs && s.jobs[id].MutationJob?
    ensures StateOk(Stays(s, id, record, passed), NoHole)
  {
    hide BooksOk, Tethered, SectionsBounded, TraceOk, ClientsOk;
    var next := Stays(s, id, record, passed).jobs[id].attempt;
    ProceedTethers(s.jobs, s.tasks, s.books, s.past.owners, id, next);
    ObserveSections(s.jobs, s.scanSlots, s.updateSlot, id, s.jobs[id].(attempt := next));
  }

  lemma NewObservation(jobs: Jobs, id: nat, record: UpdateRecord, fenced: set<Key>, log: Log)
    requires ObservationsSafe(jobs - {id}, fenced, log) && id in jobs && jobs[id].MutationJob?
    ensures ObservationsSafe(
      jobs[id := jobs[id].(attempt := jobs[id].attempt.(at := AwaitObservation(record, |log|)))], fenced, log)
  {
    forall i | i in jobs && i != id ensures ObservationSafe(jobs[i], fenced, log) {
      assert i in jobs - {id};
    }
  }

  lemma ObserveTrace(s: State, id: nat, record: UpdateRecord, passed: Passed)
    requires Inv(s, NoHole) && id in s.jobs && s.jobs[id].MutationJob? && id in s.past.snapshots
    requires TurnFits(s.jobs[id].attempt, s.past.snapshots[id], Settle(record, passed)) && record.status.Succeeded?
    ensures TraceOk(Stays(s, id, record, passed), NoHole)
  {
    hide StateOk, ClientsOk, Supplied, LedgerOk, Consistent, PassedFits, Accounted, RecordFits;
    hide LogOk, ScansProven, EvidenceProven, ObservationsSafe;
    LiveAttempt(s, id);
    var a, s' := s.jobs[id].attempt, Stays(s, id, record, passed);
    PassedSupplied(s, s'.jobs, a, passed, NoHole);
    LedgerObserves(s.jobs, s.past, id, record, passed, |s'.past.log|);
    PassedProvenance(s.jobs, s.jobs - {id}, s.books, s.past, id, passed, a.mutating);
    NewObservation(s.jobs, id, record, s.books.fenced, s'.past.log);
  }

  lemma ObserveKeeps(s: State, id: nat, record: UpdateRecord, passed: Passed)
    requires Inv(s, NoHole) && id in s.jobs && s.jobs[id].MutationJob? && id in s.past.snapshots
    requires TurnFits(s.jobs[id].attempt, s.past.snapshots[id], Settle(record, passed)) && record.status.Succeeded?
    ensures Inv(Stays(s, id, record, passed), NoHole)
  {
    hide StateOk, TraceOk, ClientsOk, TurnFits;
    ObserveState(s, id, record, passed);
    ObserveTrace(s, id, record, passed);
    PassedClients(s, Stays(s, id, record, passed), id, passed);
  }

  // ----- leaving

  function Left(s: State, id: nat, passed: Passed): State
    requires id in s.jobs && s.jobs[id].MutationJob?
  {
    EndJob(s, id).(past := Pass(s.past, s.jobs[id].attempt, passed))
  }

  lemma LeaveTethers(jobs: Jobs, t: Tasks, b: Books, owners: Owners, id: nat)
    requires Tethered(jobs, t, b, owners)
    ensures Tethered(jobs - {id}, t, b, owners)
  {
  }

  lemma LeaveState(s: State, id: nat, passed: Passed, h: Hole)
    requires Inv(s, NoHole) && id in s.jobs && s.jobs[id].MutationJob?
    requires h.Unreported? || (h.Ending? && h.id == id && OwnsMutation(s.books, h.kind, h.key, id))
    ensures StateOk(Left(s, id, passed), h)
  {
    hide BooksOk, Tethered, SectionsBounded, TraceOk, ClientsOk, OwnsMutation;
    OpenHole(s.books, h);
    LeaveTethers(s.jobs, s.tasks, s.books, s.past.owners, id);
    LeaveSections(s.jobs, s.scanSlots, s.updateSlot, id);
  }

  lemma LeaveTrace(s: State, id: nat, passed: Passed, h: Hole)
    requires Inv(s, NoHole) && id in s.jobs && s.jobs[id].MutationJob? && ExemptId(h, id)
    requires PassedFits(s.jobs[id].attempt, passed, s.jobs[id].attempt.mutating)
    ensures TraceOk(Left(s, id, passed), h)
  {
    hide StateOk, ClientsOk, Supplied, LedgerOk, ProvenanceOk, PassedFits, Accounted;
    LiveAttempt(s, id);
    PassedSupplied(s, s.jobs - {id}, s.jobs[id].attempt, passed, NoHole);
    LedgerLeaves(s.jobs, s.past, id, passed, h);
    PassedProvenance(s.jobs, s.jobs - {id}, s.books, s.past, id, passed, s.jobs[id].attempt.mutating);
  }

  lemma OpenClients(s: State, h: Hole)
    requires ClientsOk(s, NoHole)
    ensures ClientsOk(s, h)
  {
  }

  lemma LeaveKeeps(s: State, id: nat, passed: Passed, h: Hole)
    requires Inv(s, NoHole) && id in s.jobs && s.jobs[id].MutationJob? && ExemptId(h, id)
    requires h.Unreported? || OwnsMutation(s.books, h.kind, h.key, id)
    requires PassedFits(s.jobs[id].attempt, passed, s.jobs[id].attempt.mutating)
    ensures Inv(Left(s, id, passed), h)
  {
    hide StateOk, TraceOk, ClientsOk, PassedFits, OwnsMutation;
    LeaveState(s, id, passed, h);
    LeaveTrace(s, id, passed, h);
    PassedClients(s, Left(s, id, passed), id, passed);
    OpenClients(Left(s, id, passed), h);
  }

  lemma LeaveReportable(s: State, id: nat, passed: Passed, record: UpdateRecord)
    requires Inv(s, NoHole) && id in s.jobs && s.jobs[id].MutationJob? && id in s.past.snapshots
    requires PassedFits(s.jobs[id].attempt, passed, s.jobs[id].attempt.mutating)
    requires RecordFits(s.jobs[id].attempt, s.past.snapshots[id], record)
    ensures Reportable(Left(s, id, passed).past, id, record) && id < s.supply && !record.status.Running? && record.attempt == id
  {
    hide StateOk, TraceOk, ClientsOk, PassedFits, Accounted, Reportable;
    LiveAttempt(s, id);
    TurnReportable(s.past, id, s.jobs[id].key, s.jobs[id].attempt, record, passed);
  }

  // ----- publishing what was observed about the cleanup plan

  /** The observation may become evidence: it is fenced off, or nothing has disturbed it. */
  ghost predicate Publishable(s: State, key: Key, observed: Option<seq<RemovablePackage>>, begun: nat) {
    observed.Some? && key !in s.books.fenced ==> begun <= |s.past.log| && Undisturbed(s.past.log, begun, key)
  }

  lemma PublishState(s: State, h: Hole, key: Key, observed: Option<seq<RemovablePackage>>, begun: nat, presented: bool)
    requires Inv(s, h) && ExemptKey(h, key)
    ensures StateOk(PublishCleanup(s, key, observed, begun, presented), h)
  {
    hide BooksOk, Tethered, SectionsBounded, TraceOk, ClientsOk, OwnsMutation;
    var s' := PublishCleanup(s, key, observed, begun, presented);
    EvidenceTethers(s.jobs, s.tasks, s.books, s.past.owners, s'.books.evidence);
    if Forgets(s.books, key, observed, presented) {
      ForgetEvidenceBooksOk(s.books, h, key);
    } else {
      EvidenceBooksOk(s.books, h, key, s'.books.evidence[key]);
    }
    assert h.Ending? && OwnsMutation(s.books, h.kind, h.key, h.id) ==> OwnsMutation(s'.books, h.kind, h.key, h.id) by {
      EvidenceIsNotOwnership(s.books, s'.books.evidence, h);
    }
  }

  lemma EvidenceIsNotOwnership(b: Books, evidence: map<Key, CleanupEvidence>, h: Hole)
    ensures h.Ending? && OwnsMutation(b, h.kind, h.key, h.id) ==>
      OwnsMutation(b.(evidence := evidence), h.kind, h.key, h.id)
  {
  }

  lemma SuppliedEvidence(s: State, h: Hole)
    requires Inv(s, h)
    ensures forall k | k in s.books.evidence :: s.books.evidence[k].observedAt < s.supply
  {
    hide StateOk, ClientsOk, LogDated, LedgerOk, ProvenanceOk;
  }

  lemma PublishSupplied(s: State, h: Hole, key: Key, observed: Option<seq<RemovablePackage>>, begun: nat, presented: bool)
    requires Inv(s, h)
    ensures var s' := PublishCleanup(s, key, observed, begun, presented);
      Supplied(s'.supply, s'.jobs, s'.followers, s'.books, s'.past)
  {
    hide StateOk, ClientsOk, Supplied, LedgerOk, ProvenanceOk, LogDated;
    var s' := PublishCleanup(s, key, observed, begun, presented);
    assert s.past.log + [] == s.past.log;
    NothingDated(s'.supply);
    SuppliedGrows(s.supply, s'.supply, s.jobs, s'.jobs, s.followers, s'.followers, s.books, s'.books, s.past, s'.past, []);
  }

  lemma PublishTrace(s: State, h: Hole, key: Key, observed: Option<seq<RemovablePackage>>, begun: nat, presented: bool)
    requires Inv(s, h) && Publishable(s, key, observed, begun)
    ensures TraceOk(PublishCleanup(s, key, observed, begun, presented), h)
  {
    hide StateOk, ClientsOk, Supplied, LedgerOk, ProvenanceOk, LogDated, Undisturbed;
    var s' := PublishCleanup(s, key, observed, begun, presented);
    PublishSupplied(s, h, key, observed, begun, presented);
    if Forgets(s.books, key, observed, presented) {
      SilentProvenance(s.jobs, s'.jobs, s.books, s'.books, s.past.log);
    } else {
      SuppliedEvidence(s, h);
      SuppliedLog(s, h);
      PublishProvenance(s.jobs, s.books, s.past.log, key, s'.books.evidence[key]);
    }
  }

  lemma PublishClients(s: State, h: Hole, key: Key, observed: Option<seq<RemovablePackage>>, begun: nat, presented: bool)
    requires Inv(s, h) && key !in s.books.reserved && key !in s.books.evidence
    ensures ClientsOk(PublishCleanup(s, key, observed, begun, presented), h)
  {
    hide BooksOk, Tethered, EndingOwned, SectionsBounded, LedgerOk, ProvenanceOk, Supplied;
    hide RestoresSafe, FollowersWatch, StoredReported;
    var s' := PublishCleanup(s, key, observed, begun, presented);
    assert s.past.log + [] == s.past.log;
    assert s.books.evidence - {key} == s.books.evidence;
    RestoresStay(s.jobs, s'.jobs, s.tasks, s.books, s'.books, s.past, s'.past, []);
    FollowersStay(s, s', []);
    ReportsStay(s.books, s'.books, s.past, s'.past, h);
  }

  lemma PublishKeeps(s: State, h: Hole, key: Key, observed: Option<seq<RemovablePackage>>, begun: nat, presented: bool)
    requires Inv(s, h) && ExemptKey(h, key) && Publishable(s, key, observed, begun)
    requires key !in s.books.reserved && key !in s.books.evidence
    ensures Inv(PublishCleanup(s, key, observed, begun, presented), h)
  {
    hide StateOk, TraceOk, ClientsOk, PublishCleanup, Publishable;
    PublishState(s, h, key, observed, begun, presented);
    PublishTrace(s, h, key, observed, begun, presented);
    PublishClients(s, h, key, observed, begun, presented);
  }

  // ----- the end of an attempt that still owns its target

  lemma OwnedKey(b: Books, kind: MutationKind, key: Key, id: nat)
    requires BooksOk(b, NoHole) && OwnsMutation(b, kind, key, id)
    ensures key !in b.reserved && key !in b.evidence
  {
    assert Busy(b, OwnerOf(kind), key);
    WorkedOnNotReserved(b, OwnerOf(kind), key);
    assert key in b.evidence ==> RunsPackageWork(b, key);
  }

  lemma NothingPassed(s: State, id: nat)
    requires id in s.jobs && s.jobs[id].MutationJob?
    ensures Left(s, id, Nothing) == EndJob(s, id)
  {
    assert s.past.log + [] == s.past.log;
  }

  lemma LeftFinishing(s: State, id: nat, passed: Passed, record: UpdateRecord)
    requires Inv(s, NoHole) && id in s.jobs && s.jobs[id].MutationJob? && id in s.past.snapshots
    requires PassedFits(s.jobs[id].attempt, passed, s.jobs[id].attempt.mutating)
    requires RecordFits(s.jobs[id].attempt, s.past.snapshots[id], record)
    requires OwnsMutation(s.books, s.jobs[id].attempt.kind, s.jobs[id].key, id)
    ensures var kind, key := s.jobs[id].attempt.kind, s.jobs[id].key;
      Inv(Left(s, id, passed), Ending(kind, key, id)) && Finishing(Left(s, id, passed), kind, key, id, record)
  {
    hide StateOk, TraceOk, ClientsOk, PassedFits, RecordFits, OwnsMutation, Reportable;
    LeaveKeeps(s, id, passed, Ending(s.jobs[id].attempt.kind, s.jobs[id].key, id));
    LeaveReportable(s, id, passed, record);
  }

  lemma PublishFinishing(
    s: State, kind: MutationKind, key: Key, id: nat, record: UpdateRecord, observed: Option<seq<RemovablePackage>>,
    begun: nat, presented: bool)
    requires Finishing(s, kind, key, id, record)
    ensures Finishing(PublishCleanup(s, key, observed, begun, presented), kind, key, id, record)
  {
    hide Reportable;
  }

  /** Publish an observation and then the terminal result. */
  lemma PublishedFinishKeeps(
    s: State, id: nat, passed: Passed, record: UpdateRecord, observed: Option<seq<RemovablePackage>>, begun: nat,
    presented: bool, claimHealth: bool, l: Listeners, created: bool)
    requires Inv(s, NoHole) && id in s.jobs && s.jobs[id].MutationJob? && id in s.past.snapshots
    requires PassedFits(s.jobs[id].attempt, passed, s.jobs[id].attempt.mutating)
    requires RecordFits(s.jobs[id].attempt, s.past.snapshots[id], record)
    requires OwnsMutation(s.books, s.jobs[id].attempt.kind, s.jobs[id].key, id)
    requires Publishable(Left(s, id, passed), s.jobs[id].key, observed, begun)
    ensures var kind, key := s.jobs[id].attempt.kind, s.jobs[id].key;
      var published := PublishCleanup(Left(s, id, passed), key, observed, begun, presented);
      Inv(FinishMutation(published, kind, key, id, record, claimHealth, l, created), NoHole)
  {
    hide TraceOk, ClientsOk, PassedFits, RecordFits, OwnsMutation, Finishing, PublishCleanup, Publishable, FinishMutation;
    hide BooksOk, Tethered, EndingOwned, SectionsBounded;
    var kind, key, left := s.jobs[id].attempt.kind, s.jobs[id].key, Left(s, id, passed);
    var h := Ending(kind, key, id);
    OwnedKey(s.books, kind, key, id);
    LeftFinishing(s, id, passed, record);
    PublishKeeps(left, h, key, observed, begun, presented);
    PublishFinishing(left, kind, key, id, record, observed, begun, presented);
    FinishMutationKeeps(PublishCleanup(left, key, observed, begun, presented), kind, key, id, record, claimHealth, l, created);
  }

  /** Publish the terminal result of an attempt that observes nothing more. */
  lemma ForgetfulFinishKeeps(s: State, id: nat, passed: Passed, record: UpdateRecord, l: Listeners, created: bool)
    requires Inv(s, NoHole) && id in s.jobs && s.jobs[id].MutationJob? && id in s.past.snapshots
    requires PassedFits(s.jobs[id].attempt, passed, s.jobs[id].attempt.mutating)
    requires RecordFits(s.jobs[id].attempt, s.past.snapshots[id], record)
    requires OwnsMutation(s.books, s.jobs[id].attempt.kind, s.jobs[id].key, id)
    ensures var kind, key := s.jobs[id].attempt.kind, s.jobs[id].key;
      Inv(FinishMutation(ForgetCandidates(Left(s, id, passed), s.jobs[id]), kind, key, id, record, true, l, created), NoHole)
  {
    hide Inv, PassedFits, RecordFits, OwnsMutation, Finishing, PublishCleanup, FinishMutation;
    var kind, key, left := s.jobs[id].attempt.kind, s.jobs[id].key, Left(s, id, passed);
    LeftFinishing(s, id, passed, record);
    if kind.CleanupKind? {
      PublishedFinishKeeps(s, id, passed, record, None, |left.past.log|, true, true, l, created);
    } else {
      FinishMutationKeeps(left, kind, key, id, record, true, l, created);
    }
  }

  // ----- the end of an attempt that was pruned or told to stop

  lemma UnownedReportKeeps(s: State, id: nat, record: UpdateRecord)
    requires Inv(s, NoHole) && id in s.jobs && s.jobs[id].MutationJob? && id in s.past.snapshots
    requires RecordFits(s.jobs[id].attempt, s.past.snapshots[id], record)
    ensures Inv(Report(EndJob(s, id), id, record), NoHole)
  {
    hide Inv, RecordFits, Reportable;
    NothingPassed(s, id);
    LeaveKeeps(s, id, Nothing, Unreported(id));
    LeaveReportable(s, id, Nothing, record);
    ReportKeeps(EndJob(s, id), id, record);
  }

  // ----- any turn

  /** A task that was told to stop leaves at once. */
  predicate Obeys(cancelled: bool, turn: Turn) { cancelled ==> turn.Abort? || turn.Interrupted? }

  lemma {:induction false} CancelledObeys(a: Attempt, generated: string)
    ensures Obeys(true, Advance(a, Cancelled, generated))
  {
  }

  lemma SettleKeeps(
    s: State, id: nat, record: UpdateRecord, passed: Passed, presented: bool, l: Listeners, created: bool)
    requires Inv(s, NoHole) && id in s.jobs && s.jobs[id].MutationJob? && id in s.past.snapshots && !s.jobs[id].cancelled
    requires TurnFits(s.jobs[id].attempt, s.past.snapshots[id], Settle(record, passed))
    ensures Inv(ApplyTurn(s, id, Settle(record, passed), presented, l, created), NoHole)
  {
    hide Inv, PassedFits, RecordFits, OwnsMutation, FinishMutation, ForgetCandidates, Accounted, Consistent;
    LiveAttempt(s, id);
    if record.status.Succeeded? {
      ObserveKeeps(s, id, record, passed);
    } else {
      ForgetfulFinishKeeps(s, id, passed, record, l, created);
    }
  }

  lemma AbortKeeps(s: State, id: nat, record: UpdateRecord, presented: bool, l: Listeners, created: bool)
    requires Inv(s, NoHole) && id in s.jobs && s.jobs[id].MutationJob? && id in s.past.snapshots
    requires TurnFits(s.jobs[id].attempt, s.past.snapshots[id], Abort(record))
    ensures Inv(ApplyTurn(s, id, Abort(record), presented, l, created), NoHole)
  {
    hide Inv, RecordFits, OwnsMutation, FinishMutation, ForgetCandidates;
    NothingPassed(s, id);
    if OwnsMutation(s.books, s.jobs[id].attempt.kind, s.jobs[id].key, id) {
      ForgetfulFinishKeeps(s, id, Nothing, record, l, created);
    } else {
      UnownedReportKeeps(s, id, record);
    }
  }

  /** What an attempt that still owns its target observed may be published. */
  lemma ObservationPublishable(s: State, id: nat, observed: Option<seq<RemovablePackage>>)
    requires Inv(s, NoHole) && id in s.jobs && s.jobs[id].MutationJob? && !s.jobs[id].cancelled
    requires s.jobs[id].attempt.at.AwaitObservation?
    ensures Publishable(EndJob(s, id), s.jobs[id].key, observed, s.jobs[id].attempt.at.begun)
  {
    hide StateOk, ClientsOk, Supplied, LedgerOk, LogOk, ScansProven, EvidenceProven, Undisturbed;
    assert ObservationSafe(s.jobs[id], s.books.fenced, s.past.log);
  }

  lemma ObservedKeeps(
    s: State, id: nat, record: UpdateRecord, observed: Option<seq<RemovablePackage>>, presented: bool, l: Listeners,
    created: bool)
    requires Inv(s, NoHole) && id in s.jobs && s.jobs[id].MutationJob? && id in s.past.snapshots && !s.jobs[id].cancelled
    requires TurnFits(s.jobs[id].attempt, s.past.snapshots[id], Observed(record, observed))
    ensures Inv(ApplyTurn(s, id, Observed(record, observed), presented, l, created), NoHole)
  {
    hide Inv, RecordFits, OwnsMutation, FinishMutation, PublishCleanup, Publishable, Accounted;
    LiveAttempt(s, id);
    NothingPassed(s, id);
    ObservationPublishable(s, id, observed);
    PublishedFinishKeeps(s, id, Nothing, record, observed, s.jobs[id].attempt.at.begun, presented, true, l, created);
  }

  lemma InterruptedKeeps(s: State, id: nat, record: UpdateRecord, presented: bool, l: Listeners, created: bool)
    requires Inv(s, NoHole) && id in s.jobs && s.jobs[id].MutationJob? && id in s.past.snapshots
    requires TurnFits(s.jobs[id].attempt, s.past.snapshots[id], Interrupted(record))
    ensures Inv(ApplyTurn(s, id, Interrupted(record), presented, l, created), NoHole)
  {
    hide Inv, RecordFits, OwnsMutation, FinishMutation, PublishCleanup, Accounted;
    LiveAttempt(s, id);
    NothingPassed(s, id);
    if OwnsMutation(s.books, s.jobs[id].attempt.kind, s.jobs[id].key, id) {
      PublishedFinishKeeps(s, id, Nothing, record, None, |s.past.log|, presented, false, l, created);
    } else {
      UnownedReportKeeps(s, id, record);
    }
  }

  lemma ApplyTurnKeeps(s: State, id: nat, turn: Turn, presented: bool, l: Listeners, created: bool)
    requires Inv(s, NoHole) && id in s.jobs && s.jobs[id].MutationJob? && id in s.past.snapshots
    requires TurnFits(s.jobs[id].attempt, s.past.snapshots[id], turn) && Obeys(s.jobs[id].cancelled, turn)
    requires s.jobs[id].attempt.at.AwaitSlot? && turn.Proceed? ==> s.updateSlot == {}
    ensures Inv(ApplyTurn(s, id, turn, presented, l, created), NoHole)
  {
    hide Inv, ApplyTurn;
    match turn
    case Proceed(next, passed) => ProceedKeeps(s, id, next, passed, presented, l, created);
    case Settle(record, passed) => SettleKeeps(s, id, record, passed, presented, l, created);
    case Abort(record) => AbortKeeps(s, id, record, presented, l, created);
    case Observed(record, observed) => ObservedKeeps(s, id, record, observed, presented, l, created);
    case Interrupted(record) => InterruptedKeeps(s, id, record, presented, l, created);
  }

  lemma SlotTurn(a: Attempt, reply: Reply, generated: string)
    requires a.at.AwaitSlot?
    ensures Advance(a, reply, generated).Proceed? ==> reply.Granted?
  {
  }

  lemma AttemptWakesKeeps(
    s: State, id: nat, reply: Reply, generated: string, presented: bool, l: Listeners, created: bool)
    requires Inv(s, NoHole) && Enabled(s, AttemptWakes(id, reply, generated, presented, l, created))
    ensures Inv(Step(s, AttemptWakes(id, reply, generated, presented, l, created)), NoHole)
  {
    hide Inv, ApplyTurn, TurnFits, Consistent, Possible, Advance, Accounted;
    LiveAttempt(s, id);
    var a := s.jobs[id].attempt;
    AdvanceFits(a, s.past.snapshots[id], reply, generated);
    CancelledObeys(a, generated);
    if a.at.AwaitSlot? {
      SlotTurn(a, reply, generated);
    }
    ApplyTurnKeeps(s, id, Advance(a, reply, generated), presented, l, created);
  }
}
