/** Every step keeps the attempts, their snapshots and their reports accounted for. */
module LedgerProofs {
  import opened Models
  import opened NativeSnapshots
  import opened Attempts
  import opened History
  import opened ManagerState
  import opened ManagerMachine
  import opened ManagerInvariant

  lemma CountGrows(log: Log, es: Log, e: Event)
    ensures Count(log + es, e) == Count(log, e) + Count(es, e)
    ensures e !in es ==> Count(log + es, e) == Count(log, e)
    ensures Count(log, e) > 0 <==> e in log
  {
    assert multiset(log + es) == multiset(log) + multiset(es);
  }

  /** Events that concern neither a mutation request nor a report. */
  predicate Neutral(e: Event) { !e.MutationRequested? && !e.AttemptReported? }

  predicate NeutralAll(es: Log) { forall e | e in es :: Neutral(e) }

  /** The same attempts run under the same keys, whether or not they were told to stop. */
  ghost predicate SameAttempts(jobs: Jobs, jobs': Jobs) {
    && (forall id | id in jobs && jobs[id].MutationJob? ::
      id in jobs' && jobs'[id].MutationJob? && jobs'[id].attempt == jobs[id].attempt && jobs'[id].key == jobs[id].key)
    && (forall id | id in jobs' && jobs'[id].MutationJob? :: id in jobs && jobs[id].MutationJob?)
  }

  lemma AccountedGrows(past: Past, past': Past, es: Log, id: nat, key: Key, a: Attempt)
    requires Accounted(past, id, key, a)
    requires past'.log == past.log + es && NeutralAll(es)
    requires past'.grants == past.grants && past'.reports == past.reports && past'.snapshots == past.snapshots
    ensures Accounted(past', id, key, a)
  {
    CountGrows(past.log, es, MutationRequested(a.id));
  }

  lemma ReportsGrow(past: Past, past': Past, es: Log)
    requires ReportsTruthful(past) && ReportedOnce(past)
    requires past'.log == past.log + es && NeutralAll(es)
    requires past'.grants == past.grants && past'.reports == past.reports && past'.snapshots == past.snapshots
    ensures ReportsTruthful(past') && ReportedOnce(past')
  {
    forall id | id in past'.reports ensures Truthful(past', id, past'.reports[id]) {
      CountGrows(past.log, es, MutationRequested(id));
    }
    forall id: nat ensures Count(past'.log, AttemptReported(id)) == One(id in past'.reports) {
      CountGrows(past.log, es, AttemptReported(id));
    }
  }

  /** Steps that neither begin, move nor end an attempt. */
  lemma LedgerIdle(jobs: Jobs, jobs': Jobs, past: Past, past': Past, es: Log, h: Hole)
    requires LedgerOk(jobs, past, h) && SameAttempts(jobs, jobs')
    requires past'.log == past.log + es && NeutralAll(es)
    requires past'.grants == past.grants && past'.reports == past.reports && past'.snapshots == past.snapshots
    ensures LedgerOk(jobs', past', h)
  {
    ReportsGrow(past, past', es);
    forall id | id in jobs' && jobs'[id].MutationJob?
      ensures Accounted(past', id, jobs'[id].key, jobs'[id].attempt)
    {
      AccountedGrows(past, past', es, id, jobs[id].key, jobs[id].attempt);
    }
  }

  lemma LedgerOpens(jobs: Jobs, past: Past, h: Hole)
    requires LedgerOk(jobs, past, NoHole)
    ensures LedgerOk(jobs, past, h)
  {
  }

  // ----- acceptance

  lemma AdmitFits(past: Past, supply: nat, key: Key, grant: Event, a: Attempt)
    requires LogDated(past.log, supply)
    requires a.id == supply && Grants(grant, supply, key, a)
    requires a == Begin(a.kind, a.id, a.skip, a.plan)
    requires supply !in past.reports
    ensures Accounted(Admit(past, supply, grant), supply, key, a)
  {
    CountGrows(past.log, [grant], MutationRequested(supply));
    assert !Dated(MutationRequested(supply), supply);
  }

  lemma AdmitKeepsOthers(past: Past, id: nat, grant: Event, other: nat, key: Key, a: Attempt)
    requires Accounted(past, other, key, a) && other != id && Neutral(grant)
    ensures Accounted(Admit(past, id, grant), other, key, a)
  {
    CountGrows(past.log, [grant], MutationRequested(a.id));
  }

  lemma AdmitReports(past: Past, id: nat, grant: Event)
    requires ReportsTruthful(past) && ReportedOnce(past) && Neutral(grant) && id !in past.reports
    ensures ReportsTruthful(Admit(past, id, grant)) && ReportedOnce(Admit(past, id, grant))
  {
    var past' := Admit(past, id, grant);
    forall i | i in past'.reports ensures Truthful(past', i, past'.reports[i]) {
      CountGrows(past.log, [grant], MutationRequested(i));
    }
    forall i: nat ensures Count(past'.log, AttemptReported(i)) == One(i in past'.reports) {
      CountGrows(past.log, [grant], AttemptReported(i));
    }
  }

  lemma LedgerAdmits(jobs: Jobs, jobs': Jobs, past: Past, supply: nat, key: Key, grant: Event, a: Attempt, h: Hole)
    requires LedgerOk(jobs, past, h) && LogDated(past.log, supply) && supply !in jobs && supply !in past.reports
    requires SameAttempts(jobs, jobs') && supply !in jobs'
    requires a.id == supply && Grants(grant, supply, key, a) && a == Begin(a.kind, a.id, a.skip, a.plan)
    ensures LedgerOk(jobs'[supply := MutationJob(key, false, a)], Admit(past, supply, grant), h)
  {
    AdmitFits(past, supply, key, grant, a);
    AdmitReports(past, supply, grant);
    forall id | id in jobs' && jobs'[id].MutationJob?
      ensures Accounted(Admit(past, supply, grant), id, jobs'[id].key, jobs'[id].attempt)
    {
      AdmitKeepsOthers(past, supply, grant, id, jobs[id].key, jobs[id].attempt);
    }
  }

  // ----- one turn

  /** What an attempt passes is exactly what its next position presupposes. */
  lemma ProceedEvidenced(log: Log, a: Attempt, w: Snapshot, next: Attempt, passed: Passed)
    requires Evidenced(log, a) && ProceedFits(a, w, next, passed) && Consistent(a, w)
    ensures Evidenced(log + PassedEvents(a, passed), next)
  {
    CountGrows(log, PassedEvents(a, passed), MutationRequested(a.id));
  }

  lemma PassedOthers(log: Log, a: Attempt, passed: Passed, id: nat)
    requires id != a.id
    ensures Count(log + PassedEvents(a, passed), MutationRequested(id)) == Count(log, MutationRequested(id))
  {
    CountGrows(log, PassedEvents(a, passed), MutationRequested(id));
  }

  lemma PassKeepsOthers(past: Past, a: Attempt, passed: Passed, other: nat, key: Key, b: Attempt)
    requires Accounted(past, other, key, b) && other != a.id
    ensures Accounted(Pass(past, a, passed), other, key, b)
  {
    PassedOthers(past.log, a, passed, other);
  }

  lemma PassReports(past: Past, a: Attempt, passed: Passed)
    requires ReportsTruthful(past) && ReportedOnce(past) && a.id !in past.reports
    ensures ReportsTruthful(Pass(past, a, passed)) && ReportedOnce(Pass(past, a, passed))
  {
    var past' := Pass(past, a, passed);
    forall i | i in past'.reports ensures Truthful(past', i, past'.reports[i]) {
      PassedOthers(past.log, a, passed, i);
    }
    forall i: nat ensures Count(past'.log, AttemptReported(i)) == One(i in past'.reports) {
      CountGrows(past.log, PassedEvents(a, passed), AttemptReported(i));
    }
  }

  lemma LedgerProceeds(jobs: Jobs, past: Past, id: nat, next: Attempt, passed: Passed)
    requires LedgerOk(jobs, past, NoHole) && id in jobs && jobs[id].MutationJob?
    requires id in past.snapshots && ProceedFits(jobs[id].attempt, past.snapshots[id], next, passed)
    ensures LedgerOk(jobs[id := jobs[id].(attempt := next)], Pass(past, jobs[id].attempt, passed), NoHole)
  {
    var a := jobs[id].attempt;
    ProceedEvidenced(past.log, a, past.snapshots[id], next, passed);
    PassReports(past, a, passed);
    forall other | other in jobs && jobs[other].MutationJob? && other != id
      ensures Accounted(Pass(past, a, passed), other, jobs[other].key, jobs[other].attempt)
    {
      PassKeepsOthers(past, a, passed, other, jobs[other].key, jobs[other].attempt);
    }
  }

  lemma ObserveFits(past: Past, id: nat, key: Key, a: Attempt, record: UpdateRecord, passed: Passed, begun: nat)
    requires Accounted(past, id, key, a) && record.status.Succeeded?
    requires RecordFits(a, past.snapshots[id], record) && PassedFits(a, passed, a.mutating) && !a.at.AwaitObservation?
    requires Guarded(a)
    ensures Accounted(Pass(past, a, passed), id, key, a.(at := AwaitObservation(record, begun)))
  {
    CountGrows(past.log, PassedEvents(a, passed), MutationRequested(a.id));
  }

  lemma SuccessIsGuarded(a: Attempt, w: Snapshot, record: UpdateRecord)
    requires Consistent(a, w) && RecordFits(a, w, record) && record.status.Succeeded?
    ensures Guarded(a)
  {
  }

  /** A successful attempt stays for one more observation with its record already decided. */
  lemma LedgerObserves(jobs: Jobs, past: Past, id: nat, record: UpdateRecord, passed: Passed, begun: nat)
    requires LedgerOk(jobs, past, NoHole) && id in jobs && jobs[id].MutationJob?
    requires id in past.snapshots && TurnFits(jobs[id].attempt, past.snapshots[id], Settle(record, passed))
    requires record.status.Succeeded?
    ensures var a := jobs[id].attempt;
      LedgerOk(jobs[id := jobs[id].(attempt := a.(at := AwaitObservation(record, begun)))], Pass(past, a, passed), NoHole)
  {
    var a := jobs[id].attempt;
    SuccessIsGuarded(a, past.snapshots[id], record);
    ObserveFits(past, id, jobs[id].key, a, record, passed, begun);
    PassReports(past, a, passed);
    forall other | other in jobs && jobs[other].MutationJob? && other != id
      ensures Accounted(Pass(past, a, passed), other, jobs[other].key, jobs[other].attempt)
    {
      PassKeepsOthers(past, a, passed, other, jobs[other].key, jobs[other].attempt);
    }
  }

  // ----- the executor and PVE

  lemma PostFitsPast(past: Past, id: nat, key: Key, a: Attempt)
    requires Accounted(past, id, key, a) && a.at == AwaitPost(false) && a.name.Some?
    ensures Accounted(PostedPast(past, id, a.name.value), id, key, a.(at := AwaitPost(true), submitted := true))
  {
    CountGrows(past.log, [PostSubmitted(id, a.name.value)], MutationRequested(a.id));
  }

  lemma PostKeepsOthers(past: Past, id: nat, name: string, other: nat, key: Key, a: Attempt)
    requires Accounted(past, other, key, a) && other != id && id in past.snapshots
    ensures Accounted(PostedPast(past, id, name), other, key, a)
  {
    CountGrows(past.log, [PostSubmitted(id, name)], MutationRequested(a.id));
  }

  lemma PostReports(past: Past, id: nat, name: string)
    requires ReportsTruthful(past) && ReportedOnce(past) && id in past.snapshots && id !in past.reports
    ensures ReportsTruthful(PostedPast(past, id, name)) && ReportedOnce(PostedPast(past, id, name))
  {
    ReportsGrow(past, Append(past, PostSubmitted(id, name)), [PostSubmitted(id, name)]);
  }

  lemma LedgerPosts(jobs: Jobs, past: Past, id: nat)
    requires LedgerOk(jobs, past, NoHole) && id in jobs && jobs[id].MutationJob?
    requires jobs[id].attempt.at == AwaitPost(false) && jobs[id].attempt.name.Some? && id in past.snapshots
    ensures var a := jobs[id].attempt;
      LedgerOk(jobs[id := jobs[id].(attempt := a.(at := AwaitPost(true), submitted := true))],
               PostedPast(past, id, a.name.value), NoHole)
  {
    var a := jobs[id].attempt;
    PostFitsPast(past, id, jobs[id].key, a);
    PostReports(past, id, a.name.value);
    forall other | other in jobs && jobs[other].MutationJob? && other != id
      ensures Accounted(PostedPast(past, id, a.name.value), other, jobs[other].key, jobs[other].attempt)
    {
      PostKeepsOthers(past, id, a.name.value, other, jobs[other].key, jobs[other].attempt);
    }
  }

  lemma DeleteFitsPast(past: Past, id: nat, key: Key, a: Attempt)
    requires Accounted(past, id, key, a) && a.at == AwaitDelete(false)
    ensures Accounted(past, id, key, a.(at := AwaitDelete(true)))
  {
  }

  lemma LedgerDeletes(jobs: Jobs, past: Past, id: nat)
    requires LedgerOk(jobs, past, NoHole) && id in jobs && jobs[id].MutationJob?
    requires jobs[id].attempt.at == AwaitDelete(false) && jobs[id].attempt.name.Some?
    ensures var a := jobs[id].attempt;
      LedgerOk(jobs[id := jobs[id].(attempt := a.(at := AwaitDelete(true)))],
               Append(past, DeleteSubmitted(id, a.name.value)), NoHole)
  {
    var a := jobs[id].attempt;
    var jobs' := jobs[id := jobs[id].(attempt := a.(at := AwaitDelete(true)))];
    DeleteFitsPast(past, id, jobs[id].key, a);
    LedgerIdle(jobs', jobs', past, Append(past, DeleteSubmitted(id, a.name.value)), [DeleteSubmitted(id, a.name.value)], NoHole);
  }

  lemma LedgerWorldMoves(jobs: Jobs, past: Past, id: nat, w: Snapshot)
    requires LedgerOk(jobs, past, NoHole) && id in past.snapshots && WorldMove(past.snapshots[id], w)
    ensures LedgerOk(jobs, past.(snapshots := past.snapshots[id := w]), NoHole)
  {
    if id in jobs && jobs[id].MutationJob? {
      WorldMoveFits(jobs[id].attempt, past.snapshots[id], w);
    }
  }

  // ----- the end of an attempt

  lemma LedgerLeaves(jobs: Jobs, past: Past, id: nat, passed: Passed, h: Hole)
    requires LedgerOk(jobs, past, NoHole) && id in jobs && jobs[id].MutationJob? && ExemptId(h, id)
    requires jobs[id].attempt.id == id
    ensures LedgerOk(jobs - {id}, Pass(past, jobs[id].attempt, passed), h)
  {
    var a := jobs[id].attempt;
    assert Accounted(past, id, jobs[id].key, a);
    PassReports(past, a, passed);
    forall other | other in jobs && jobs[other].MutationJob? && other != id
      ensures Accounted(Pass(past, a, passed), other, jobs[other].key, jobs[other].attempt)
    {
      PassKeepsOthers(past, a, passed, other, jobs[other].key, jobs[other].attempt);
    }
  }

  /** What must be known of an attempt's terminal record for its report to be truthful. */
  predicate Reportable(past: Past, id: nat, record: UpdateRecord) {
    id !in past.reports && Truthful(past, id, record)
  }

  /** The terminal record of a turn may be reported once the turn's own milestones are part of the history. */
  lemma TurnReportable(past: Past, id: nat, key: Key, a: Attempt, record: UpdateRecord, passed: Passed)
    requires Accounted(past, id, key, a) && RecordFits(a, past.snapshots[id], record)
    requires PassedFits(a, passed, a.mutating)
    ensures Reportable(Pass(past, a, passed), id, record)
  {
    CountGrows(past.log, PassedEvents(a, passed), MutationRequested(id));
  }

  lemma ReportableGrows(past: Past, past': Past, es: Log, id: nat, record: UpdateRecord)
    requires Reportable(past, id, record)
    requires past'.log == past.log + es && NeutralAll(es)
    requires id in past'.grants && id in past'.snapshots && past'.snapshots[id] == past.snapshots[id]
    requires id !in past'.reports
    ensures Reportable(past', id, record)
  {
    CountGrows(past.log, es, MutationRequested(id));
  }

  lemma ReportedTruthful(past: Past, id: nat, record: UpdateRecord)
    requires ReportsTruthful(past) && ReportedOnce(past) && Reportable(past, id, record)
    ensures ReportsTruthful(ReportedPast(past, id, record)) && ReportedOnce(ReportedPast(past, id, record))
  {
    var past' := ReportedPast(past, id, record);
    forall i | i in past'.reports ensures Truthful(past', i, past'.reports[i]) {
      CountGrows(past.log, [AttemptReported(id)], MutationRequested(i));
    }
    forall i: nat ensures Count(past'.log, AttemptReported(i)) == One(i in past'.reports) {
      CountGrows(past.log, [AttemptReported(id)], AttemptReported(i));
      assert Count(past.log, AttemptReported(i)) == One(i in past.reports);
    }
  }

  lemma LedgerReports(jobs: Jobs, past: Past, id: nat, record: UpdateRecord)
    requires LedgerOk(jobs, past, Unreported(id)) && Reportable(past, id, record) && id !in jobs
    ensures LedgerOk(jobs, ReportedPast(past, id, record), NoHole)
  {
    ReportedTruthful(past, id, record);
    forall other | other in jobs && jobs[other].MutationJob?
      ensures Accounted(ReportedPast(past, id, record), other, jobs[other].key, jobs[other].attempt)
    {
      CountGrows(past.log, [AttemptReported(id)], MutationRequested(other));
    }
  }

  /** Between setting the record and reporting it, the attempt is known to be about to report. */
  lemma LedgerUnreported(jobs: Jobs, past: Past, kind: MutationKind, key: Key, id: nat)
    requires LedgerOk(jobs, past, Ending(kind, key, id))
    ensures LedgerOk(jobs, past, Unreported(id))
  {
  }
}
