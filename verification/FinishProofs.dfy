/**
 Publishing a terminal result keeps the invariant even though listeners re-enter the manager at each of its
 notifications: the attempt still owns its target at the first, has yet to report at the second, and is done
 with at the third.
 */
module FinishProofs {
  import opened Models
  import opened Attempts
  import opened History
  import opened ManagerState
  import opened ManagerMachine
  import opened ManagerInvariant
  import opened BooksProofs
  import opened TetherProofs
  import opened LedgerProofs
  import opened ProvenanceProofs
  import opened StepProofs
  import opened ListenerProofs

  // ----- forgetting the task

  lemma ForgetTaskKeeps(s: State, kind: MutationKind, key: Key, id: nat)
    requires Inv(s, Ending(kind, key, id))
    ensures Inv(s.(tasks := ForgetTask(s.tasks, kind, key)), Ending(kind, key, id))
  {
    hide BooksOk, Tethered, SectionsBounded, TraceOk, RestoresSafe, StoredReported, FollowersWatch, ForgetTask;
    var s' := s.(tasks := ForgetTask(s.tasks, kind, key));
    MutationEndTethers(s.jobs, s.tasks, s.books, s.past.owners, kind, key, id, RunningRecord(id, false));
    assert s.past.log + [] == s.past.log;
    FollowersStay(s, s', []);
    assert TraceOk(s', Ending(kind, key, id)) by { SameTrace(s, s', Ending(kind, key, id)); }
  }

  lemma SameTrace(s: State, s': State, h: Hole)
    requires TraceOk(s, h)
    requires s'.supply == s.supply && s'.jobs == s.jobs && s'.followers == s.followers && s'.books == s.books
    requires s'.past == s.past
    ensures TraceOk(s', h)
  {
    hide Supplied, LedgerOk, ProvenanceOk;
  }

  // ----- setting the record

  predicate Finishing(s: State, kind: MutationKind, key: Key, id: nat, record: UpdateRecord) {
    OwnsMutation(s.books, kind, key, id) && id !in s.jobs && id < s.supply
    && Reportable(s.past, id, record) && !record.status.Running? && record.attempt == id
  }

  lemma SetRecordState(s: State, kind: MutationKind, key: Key, id: nat, record: UpdateRecord)
    requires Inv(s, Ending(kind, key, id)) && Finishing(s, kind, key, id, record)
    ensures StateOk(SetMutationRecord(s, kind, key, record), Unreported(id))
  {
    hide BooksOk, Tethered, SectionsBounded, TraceOk, ClientsOk, PutMutation;
    MutationEndsBooksOk(s.books, kind, key, id, record);
    MutationEndTethers(s.jobs, s.tasks, s.books, s.past.owners, kind, key, id, record);
  }

  lemma SetRecordTrace(s: State, kind: MutationKind, key: Key, id: nat, record: UpdateRecord)
    requires Inv(s, Ending(kind, key, id)) && Finishing(s, kind, key, id, record)
    ensures TraceOk(SetMutationRecord(s, kind, key, record), Unreported(id))
  {
    hide StateOk, ClientsOk, Supplied, LedgerOk, ProvenanceOk, Reportable;
    var s' := SetMutationRecord(s, kind, key, record);
    assert s.past.log + [] == s.past.log;
    SuppliedGrows(s.supply, s'.supply, s.jobs, s'.jobs, s.followers, s'.followers, s.books, s'.books, s.past, s'.past, []);
    LedgerUnreported(s.jobs, s.past, kind, key, id);
    SilentProvenance(s.jobs, s'.jobs, s.books, s'.books, s.past.log);
  }

  lemma SetRecordClients(s: State, kind: MutationKind, key: Key, id: nat, record: UpdateRecord)
    requires Inv(s, Ending(kind, key, id)) && Finishing(s, kind, key, id, record)
    ensures ClientsOk(SetMutationRecord(s, kind, key, record), Unreported(id))
  {
    hide BooksOk, Tethered, EndingOwned, SectionsBounded, LedgerOk, ProvenanceOk, Supplied;
    hide RestoresSafe, FollowersWatch, Reportable;
    var s' := SetMutationRecord(s, kind, key, record);
    assert s.past.log + [] == s.past.log;
    RestoresStay(s.jobs, s'.jobs, s.tasks, s.books, s'.books, s.past, s'.past, []);
    FollowersStay(s, s', []);
  }

  lemma SetRecordKeeps(s: State, kind: MutationKind, key: Key, id: nat, record: UpdateRecord)
    requires Inv(s, Ending(kind, key, id)) && Finishing(s, kind, key, id, record)
    ensures Inv(SetMutationRecord(s, kind, key, record), Unreported(id))
  {
    hide StateOk, TraceOk, ClientsOk, SetMutationRecord, Finishing;
    SetRecordState(s, kind, key, id, record);
    SetRecordTrace(s, kind, key, id, record);
    SetRecordClients(s, kind, key, id, record);
  }

  // ----- reporting

  lemma NotYetReported(past: Past, id: nat)
    requires ReportedOnce(past) && id !in past.reports
    ensures AttemptReported(id) !in past.log
  {
    assert Count(past.log, AttemptReported(id)) == 0;
  }

  lemma ReportTrace(s: State, id: nat, record: UpdateRecord)
    requires Inv(s, Unreported(id)) && Reportable(s.past, id, record) && id !in s.jobs && id < s.supply
    ensures TraceOk(Report(s, id, record), NoHole)
  {
    hide StateOk, ClientsOk, Supplied, ProvenanceOk, AttemptsAccounted, ReportsTruthful, ReportedOnce, NoneLost, LogDated;
    hide Truthful;
    var s', e := Report(s, id, record), AttemptReported(id);
    NotYetReported(s.past, id);
    OneDated(e, s'.supply);
    SuppliedGrows(s.supply, s'.supply, s.jobs, s'.jobs, s.followers, s'.followers, s.books, s'.books, s.past, s'.past, [e]);
    LedgerReports(s.jobs, s.past, id, record);
    QuietProvenance(s.jobs, s'.jobs, s.books, s'.books, s.past.log, e);
  }

  lemma ReportClients(s: State, id: nat, record: UpdateRecord)
    requires Inv(s, Unreported(id))
    ensures ClientsOk(Report(s, id, record), NoHole)
  {
    hide BooksOk, Tethered, EndingOwned, SectionsBounded, TraceOk, RestoresSafe, FollowersWatch;
    var s', e := Report(s, id, record), AttemptReported(id);
    RestoresStay(s.jobs, s'.jobs, s.tasks, s.books, s'.books, s.past, s'.past, [e]);
    FollowersStay(s, s', [e]);
  }

  lemma ReportKeeps(s: State, id: nat, record: UpdateRecord)
    requires Inv(s, Unreported(id)) && Reportable(s.past, id, record) && id !in s.jobs && id < s.supply
    ensures Inv(Report(s, id, record), NoHole)
  {
    hide BooksOk, Tethered, SectionsBounded, TraceOk, ClientsOk, Reportable;
    ReportTrace(s, id, record);
    ReportClients(s, id, record);
    CloseReportHole(s.books, id);
  }

  // ----- listeners in between

  lemma ReportableExtends(s: State, s': State, id: nat, record: UpdateRecord)
    requires Extends(s, s') && Reportable(s.past, id, record) && id < s.supply
    ensures Reportable(s'.past, id, record)
  {
    hide JobsExtend, BooksExtend, Neutral;
    var es := s'.past.log[|s.past.log|..];
    assert s'.past.log == s.past.log + es;
    ReportableGrows(s.past, s'.past, es, id, record);
  }

  lemma FinishingExtends(s: State, s': State, kind: MutationKind, key: Key, id: nat, record: UpdateRecord)
    requires Extends(s, s') && Finishing(s, kind, key, id, record)
    ensures Finishing(s', kind, key, id, record)
  {
    hide OwnsHealth, Reportable, PastExtends, SameOrStopped;
    ReportableExtends(s, s', id, record);
  }

  lemma HeldExtends(s: State, s': State, key: Key, id: nat)
    requires Extends(s, s') && Held(s, key, id)
    ensures Held(s', key, id)
  {
    hide OwnsMutation, PastExtends, SameOrStopped;
  }

  // ----- the whole finish path

  lemma OwnerClaimable(b: Books, kind: MutationKind, key: Key, id: nat)
    requires Exclusive(b, Ending(kind, key, id)) && OwnsMutation(b, kind, key, id)
    requires !HealthClaimBlocked(b, key.vmid)
    ensures Claimable(b, Ending(kind, key, id), key)
  {
    assert Busy(b, OwnerOf(kind), key);
    OnlyOwner(b, OwnerOf(kind), key);
  }

  lemma ClaimedKeeps(s: State, kind: MutationKind, key: Key, id: nat, record: UpdateRecord, claim: bool, calls: seq<Call>)
    requires Inv(s, Ending(kind, key, id)) && Finishing(s, kind, key, id, record)
    requires claim ==> !HealthClaimBlocked(s.books, key.vmid)
    ensures var s' := Claimed(s, kind, key, claim, calls);
      Inv(s', Ending(kind, key, id)) && Finishing(s', kind, key, id, record) && (claim ==> Held(s', key, s.supply))
  {
    hide Reportable, Extends, Tethered, SectionsBounded, TraceOk, ClientsOk, Exclusive, Listen, Claimable, HealthClaimBlocked;
    hide FenceHolds, NoEvidenceWhileRunning, ViewedIsCurrent;
    var h, forgotten := Ending(kind, key, id), s.(tasks := ForgetTask(s.tasks, kind, key));
    ForgetTaskKeeps(s, kind, key, id);
    if claim {
      OwnerClaimable(s.books, kind, key, id);
      ClaimHealthKeeps(forgotten, h, key, SourceOf(kind));
      var claimed := ClaimHealth(forgotten, key, SourceOf(kind));
      ClaimFinishes(forgotten, kind, key, id, record);
      ListenKeeps(claimed, h, calls);
      ListenExtends(claimed, calls);
      FinishingExtends(claimed, Listen(claimed, calls), kind, key, id, record);
      HeldExtends(claimed, Listen(claimed, calls), key, s.supply);
    }
  }

  lemma ClaimFinishes(s: State, kind: MutationKind, key: Key, id: nat, record: UpdateRecord)
    requires Inv(s, Ending(kind, key, id)) && Finishing(s, kind, key, id, record)
    ensures var claimed := ClaimHealth(s, key, SourceOf(kind));
      Finishing(claimed, kind, key, id, record) && Held(claimed, key, s.supply)
  {
    hide StateOk, TraceOk, ClientsOk;
    NextIsNew(s, Ending(kind, key, id));
    ReportableGrows(s.past, ClaimHealth(s, key, SourceOf(kind)).past, [HealthAccepted(s.supply, key)], id, record);
  }

  lemma PublishedKeeps(
    s: State, kind: MutationKind, key: Key, id: nat, record: UpdateRecord, calls: seq<Call>, claim: bool, health: nat)
    requires Inv(s, Ending(kind, key, id)) && Finishing(s, kind, key, id, record)
    requires claim ==> Held(s, key, health)
    ensures var s' := Listen(SetMutationRecord(s, kind, key, record), calls);
      && Inv(s', Unreported(id)) && Reportable(s'.past, id, record) && id !in s'.jobs && id < s'.supply
      && (claim ==> Held(s', key, health))
  {
    hide Inv, Reportable, Listen, Truthful, NeutralAll;
    var set' := SetMutationRecord(s, kind, key, record);
    SetRecordKeeps(s, kind, key, id, record);
    ListenKeeps(set', Unreported(id), calls);
    ListenExtends(set', calls);
    ReportableExtends(set', Listen(set', calls), id, record);
    if claim {
      HeldExtends(set', Listen(set', calls), key, health);
    }
  }

  lemma ReportedKeeps(
    s: State, key: Key, id: nat, record: UpdateRecord, calls: seq<Call>, claim: bool, health: nat)
    requires Inv(s, Unreported(id)) && Reportable(s.past, id, record) && id !in s.jobs && id < s.supply
    requires claim ==> Held(s, key, health)
    ensures var s' := Listen(Report(s, id, record), calls);
      Inv(s', NoHole) && (claim ==> Held(s', key, health))
  {
    hide Inv, Reportable, Listen, Extends;
    var reported := Report(s, id, record);
    ReportKeeps(s, id, record);
    ListenKeeps(reported, NoHole, calls);
    ListenExtends(reported, calls);
    if claim {
      HeldExtends(reported, Listen(reported, calls), key, health);
    }
  }

  lemma FinishMutationKeeps(
    s: State, kind: MutationKind, key: Key, id: nat, record: UpdateRecord, claimHealth: bool, l: Listeners, created: bool)
    requires Inv(s, Ending(kind, key, id)) && Finishing(s, kind, key, id, record)
    ensures Inv(FinishMutation(s, kind, key, id, record, claimHealth, l, created), NoHole)
  {
    hide Inv, Reportable, Listen, SetMutationRecord, Report, ClaimHealth, LaunchHealth, HealthClaimBlocked, Held;
    var claim := claimHealth && record.status.Succeeded? && !HealthClaimBlocked(s.books, key.vmid);
    var claimed := Claimed(s, kind, key, claim, l.claimed);
    ClaimedKeeps(s, kind, key, id, record, claim, l.claimed);
    PublishedKeeps(claimed, kind, key, id, record, l.published, claim, s.supply);
    var published := Listen(SetMutationRecord(claimed, kind, key, record), l.published);
    ReportedKeeps(published, key, id, record, l.reported, claim, s.supply);
    if claim {
      LaunchHealthKeeps(Listen(Report(published, id, record), l.reported), NoHole, key, s.supply, SourceOf(kind), created);
    }
  }
}
