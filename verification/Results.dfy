/**
 What the end of a Scan, Update, Autoremove, Health check or Restore, and a review in between, writes into the records,
 read off them: which result, where, and only where the attempt still owns its target.
 */
module Results {
  import opened Models
  import opened Attempts
  import opened History
  import opened ManagerState
  import opened ManagerMachine
  import opened ManagerInvariant
  import opened Starts

  /** Only these dictionaries of the books may have changed, and only at this target. */
  ghost predicate OnlyRecords(s: State, s': State, key: Key) {
    && s'.books == s.books.(records := s'.books.records)
    && forall k: Key | k != key :: SameAt(s.books.records, s'.books.records, k)
  }

  // ----- Scan

  predicate Scanning(b: Books, key: Key, id: nat) { key in b.records && b.records[key] == ScanRunning(id) }

  /** The outcome of a Scan is stored exactly when the stored record is still the one it started with. */
  lemma ScanStoredExactly(s: State, key: Key, id: nat, outcome: ScanRecord)
    ensures var s' := FinishScan(s, key, id, outcome);
      if Scanning(s.books, key, id) then
        && OnlyRecords(s, s', key) && key in s'.books.records && s'.books.records[key] == outcome
        && s'.tasks == s.tasks.(scans := s.tasks.scans - {key}) && s'.version == s.version + 1
        && s' == s.(books := s'.books, tasks := s'.tasks, version := s'.version)
      else s' == s
  {
  }

  /**
   A cleanup plan becomes evidence exactly when the target is not fenced and the plan is either empty or was presented;
   anything else leaves the target without evidence.
   */
  lemma EvidenceStoredExactly(s: State, key: Key, observed: Option<seq<RemovablePackage>>, begun: nat, presented: bool)
    ensures var s' := PublishCleanup(s, key, observed, begun, presented);
      && (forall k: Key | k != key :: SameAt(s.books.evidence, s'.books.evidence, k))
      && s'.books == s.books.(evidence := s'.books.evidence)
      && s' == s.(books := s'.books, supply := s'.supply, version := s'.version)
      && if key !in s.books.fenced && observed.Some? && (observed.value == [] || presented) then
           && key in s'.books.evidence && s'.books.evidence[key].candidates == observed.value
           && s'.books.evidence[key].observedAt == s.supply && s'.books.evidence[key].begun == begun
           && s'.supply == s.supply + 1 && s'.version == s.version + 1
         else key !in s'.books.evidence && s'.supply == s.supply && s'.version == s.version
  {
  }

  /** Where one wake-up takes a Scan, and what it stores if it ends there. */
  predicate ScanGoesTo(position: ScanPosition, reply: ScanReply, begun: nat, next: ScanPosition) {
    || (position.ScanSlot? && reply.SlotGranted? && next == ScanHelper)
    || (position.ScanHelper? && reply.Scanned? && next == ScanCleanup(reply.packages, begun))
  }

  predicate ScanEndsAs(position: ScanPosition, reply: ScanReply, failure: ScanFailure) {
    || (position.ScanSlot? && !reply.SlotGranted? && failure == ExecutionFailed)
    || (position.ScanHelper? && !reply.Scanned? && failure == if reply.ScanRaised? then reply.failure else ExecutionFailed)
  }

  predicate JobGone(s: State, s': State, id: nat) {
    s'.jobs == s.jobs - {id} && s'.scanSlots == s.scanSlots - {id} && s'.updateSlot == s.updateSlot - {id}
  }

  lemma ScanCancelExactly(s: State, id: nat, presented: bool)
    requires id in s.jobs && s.jobs[id].ScanJob?
    ensures var s' := WakeScan(s, id, ScanCancelled, presented);
      JobGone(s, s', id) && s'.books == s.books && s'.tasks == s.tasks && s'.past == s.past
  {
  }

  /** A Scan goes on exactly with its slot or with its packages. */
  lemma ScanGoesOnExactly(s: State, id: nat, reply: ScanReply, presented: bool, next: ScanPosition)
    requires id in s.jobs && s.jobs[id].ScanJob? && ScanGoesTo(s.jobs[id].position, reply, |s.past.log|, next)
    ensures var s' := WakeScan(s, id, reply, presented);
      && s'.jobs == s.jobs[id := s.jobs[id].(position := next)] && s'.past == s.past && s'.books == s.books
      && s'.scanSlots == (if s.jobs[id].position.ScanSlot? then s.scanSlots + {id} else s.scanSlots)
  {
  }

  /** A failure before it has its packages is stored as it was named, if the Scan still owns its target. */
  lemma ScanFailureExactly(s: State, id: nat, reply: ScanReply, presented: bool, failure: ScanFailure)
    requires id in s.jobs && s.jobs[id].ScanJob? && !reply.ScanCancelled? && ScanEndsAs(s.jobs[id].position, reply, failure)
    ensures var s', key := WakeScan(s, id, reply, presented), s.jobs[id].key;
      && JobGone(s, s', id) && s'.past == s.past
      && if Scanning(s.books, key, id) then
           OnlyRecords(s, s', key) && key in s'.books.records && s'.books.records[key] == ScanFailed(id, failure)
         else s'.books == s.books
  {
    hide FinishScan;
    ScanStoredExactly(EndJob(s, id), s.jobs[id].key, id, ScanFailed(id, failure));
  }

  /** The evidence that goes with a stored scan: what was seen removable, if that may be acted on. */
  predicate EvidenceOf(b: Books, b': Books, key: Key, observed: Option<seq<RemovablePackage>>, begun: nat, presented: bool) {
    && (key in b'.evidence <==> key !in b.fenced && observed.Some? && (observed.value == [] || presented))
    && (key in b'.evidence ==> observed == Some(b'.evidence[key].candidates) && b'.evidence[key].begun == begun)
  }

  /** A Scan that comes to its end stores its packages, unreviewed and under a fresh token, if it still owns its target. */
  lemma ScanResultExactly(s: State, id: nat, reply: ScanReply, presented: bool)
    requires id in s.jobs && s.jobs[id].ScanJob? && s.jobs[id].position.ScanCleanup?
    ensures var s', key, packages := WakeScan(s, id, reply, presented), s.jobs[id].key, s.jobs[id].position.packages;
      && JobGone(s, s', id)
      && if reply.ScanCancelled? || !Scanning(s.books, key, id) then
           s'.books == s.books && s'.tasks == s.tasks && s'.past == s.past
         else
           && key in s'.books.records && s'.books.records[key] == ScanSuccess(id, packages, s.supply, false)
           && s'.past == s.past.(log := s.past.log + [ScanPublished(key, s.supply, packages)])
           && key !in s'.tasks.scans && (forall k: Key | k != key :: SameBooksAt(s.books, s'.books, k))
           && s'.books == s.books.(records := s'.books.records, evidence := s'.books.evidence)
           && EvidenceOf(s.books, s'.books, key, if reply.CleanupPlanned? then Some(reply.removable) else None,
                         s.jobs[id].position.begun, presented)
  {
    hide PublishCleanup, FinishScan;
    var key, packages, begun := s.jobs[id].key, s.jobs[id].position.packages, s.jobs[id].position.begun;
    var observed := if reply.CleanupPlanned? then Some(reply.removable) else None;
    var drawn := EndJob(s, id).(supply := s.supply + 1);
    EvidenceStoredExactly(drawn, key, observed, begun, presented);
    var published := PublishCleanup(drawn, key, observed, begun, presented);
    var noted := published.(past := Append(published.past, ScanPublished(key, s.supply, packages)));
    ScanStoredExactly(noted, key, id, ScanSuccess(id, packages, s.supply, false));
  }

  // ----- Review

  /** The token of the current, successful, non-empty scan. */
  predicate CurrentToken(b: Books, key: Key, token: nat) {
    key in b.records && b.records[key].ScanSuccess? && b.records[key].packages != [] && b.records[key].token == token
  }

  predicate Reviewed(s: State, s': State, key: Key, token: nat)
    requires key in s.books.records && s.books.records[key].ScanSuccess?
  {
    var scan := s.books.records[key];
    && s'.books == s.books.(records := s.books.records[key := ScanSuccess(scan.attempt, scan.packages, scan.token, true)],
                            viewed := s.books.viewed - {key})
    && s'.past == s.past.(log := s.past.log + [ReviewConfirmed(key, token)]) && s'.version == s.version + 1
    && s' == s.(books := s'.books, past := s'.past, version := s'.version)
  }

  /** Nothing but the current token is confirmed, and confirming it marks that scan, and only it, as reviewed. */
  lemma ReviewedExactly(s: State, key: Key, token: nat)
    ensures var s' := ConfirmReview(s, key, token);
      if CurrentToken(s.books, key, token) then Reviewed(s, s', key, token) else s' == s
  {
  }

  lemma ViewedExactly(s: State, key: Key, token: nat)
    ensures var s' := MarkViewed(s, key, token);
      s' == if CurrentToken(s.books, key, token)
            then s.(books := s.books.(viewed := s.books.viewed[key := token]), version := s.version + 1) else s
  {
  }

  /** Approving approves what was last viewed, if that is still the current scan. */
  lemma ApprovedExactly(s: State, key: Key)
    ensures var s' := ConfirmViewed(s, key);
      if key in s.books.viewed && CurrentToken(s.books, key, s.books.viewed[key]) then Reviewed(s, s', key, s.books.viewed[key])
      else s' == s
  {
  }

  // ----- Update and Autoremove

  /** The stored record of this kind reads running and carries this attempt's identity. */
  predicate Owning(b: Books, kind: MutationKind, key: Key, id: nat) {
    if kind == UpdateKind then key in b.updates && b.updates[key].status == Running && b.updates[key].attempt == id
    else key in b.cleanups && b.cleanups[key].status == Running && b.cleanups[key].attempt == id
  }

  /** The result is the stored record of its own kind, the other kind is as it was, and its task is forgotten. */
  predicate Stored(s: State, s': State, kind: MutationKind, key: Key, record: UpdateRecord) {
    if kind == UpdateKind then
      && s'.books.updates == s.books.updates[key := record] && s'.books.cleanups == s.books.cleanups
      && s'.tasks.updates == s.tasks.updates - {key} && s'.tasks.cleanups == s.tasks.cleanups
    else
      && s'.books.cleanups == s.books.cleanups[key := record] && s'.books.updates == s.books.updates
      && s'.tasks.cleanups == s.tasks.cleanups - {key} && s'.tasks.updates == s.tasks.updates
  }

  function Trigger(kind: MutationKind): HealthSource { if kind == UpdateKind then AfterUpdate else AfterAutoremove }

  /** A Health check of this target has been accepted and, if its task could be created, runs. */
  predicate CheckFollows(s: State, s': State, key: Key, source: HealthSource, created: bool) {
    if created then
      && key in s'.books.health && s'.books.health[key] == HealthRunning(s.supply, source)
      && key in s'.tasks.health && s'.tasks.health[key] == s.supply
      && s'.jobs == s.jobs[s.supply := HealthJob(key, false, source)]
    else key !in s'.books.health && s'.tasks.health == s.tasks.health && s'.jobs == s.jobs
  }

  predicate ReportsOnly(past: Past, past': Past, events: Log, id: nat, record: UpdateRecord) {
    past' == past.(log := past.log + events + [AttemptReported(id)], reports := past.reports[id := record])
  }

  /** What finishing leaves as it was. */
  ghost predicate FinishesOnly(s: State, s': State, key: Key) {
    && s'.books == s.books.(updates := s'.books.updates, cleanups := s'.books.cleanups, health := s'.books.health)
    && (forall k: Key | k != key :: SameAt(s.books.health, s'.books.health, k))
    && SameSections(s, s') && s.version < s'.version
  }

  lemma PlainFinish(s: State, kind: MutationKind, key: Key, id: nat, record: UpdateRecord)
    ensures var s' := Report(SetMutationRecord(s.(tasks := ForgetTask(s.tasks, kind, key)), kind, key, record), id, record);
      && Stored(s, s', kind, key, record) && FinishesOnly(s, s', key) && s'.supply == s.supply
      && s'.books.health == s.books.health && s'.tasks.health == s.tasks.health && s'.jobs == s.jobs
      && ReportsOnly(s.past, s'.past, [], id, record)
  {
    assert s.past.log + [] == s.past.log;
  }

  lemma CheckedFinish(s: State, kind: MutationKind, key: Key, id: nat, record: UpdateRecord, created: bool)
    ensures var claimed := ClaimHealth(s.(tasks := ForgetTask(s.tasks, kind, key)), key, SourceOf(kind));
      var s' := LaunchHealth(Report(SetMutationRecord(claimed, kind, key, record), id, record), key, s.supply, SourceOf(kind), created);
      && Stored(s, s', kind, key, record) && FinishesOnly(s, s', key)
      && CheckFollows(s, s', key, Trigger(kind), created) && ReportsOnly(s.past, s'.past, [HealthAccepted(s.supply, key)], id, record)
  {
  }

  /**
   With no listener calling anything, finishing an attempt that owns its target stores and reports exactly its result;
   a Health check follows exactly a success that may claim it. An attempt that does not own its target changes nothing.
   */
  lemma FinishedExactly(
    s: State, kind: MutationKind, key: Key, id: nat, record: UpdateRecord, claimHealth: bool, created: bool)
    ensures var s' := FinishMutation(s, kind, key, id, record, claimHealth, QUIET, created);
      if !Owning(s.books, kind, key, id) then s' == s
      else
        && Stored(s, s', kind, key, record) && FinishesOnly(s, s', key)
        && if claimHealth && record.status == Succeeded && !HealthClaimBlocked(s.books, key.vmid) then
             CheckFollows(s, s', key, Trigger(kind), created) && ReportsOnly(s.past, s'.past, [HealthAccepted(s.supply, key)], id, record)
           else
             && s'.books.health == s.books.health && s'.tasks.health == s.tasks.health && s'.jobs == s.jobs
             && ReportsOnly(s.past, s'.past, [], id, record)
  {
    hide HealthClaimBlocked, ClaimHealth, LaunchHealth, SetMutationRecord, Report, ForgetTask, Stored, FinishesOnly, CheckFollows;
    hide ReportsOnly;
    PlainFinish(s, kind, key, id, record);
    CheckedFinish(s, kind, key, id, record, created);
  }

  // ----- Health

  /** The outcome of a check is stored, under a fresh moment, exactly while its claim stands. */
  lemma CheckStoredExactly(s: State, key: Key, id: nat, outcome: HealthOutcome)
    ensures var s' := FinishHealth(s, key, id, outcome);
      if key in s.books.health && s.books.health[key].HealthRunning? && s.books.health[key].attempt == id then
        && s'.books == s.books.(health := s.books.health[key := HealthCompleted(s.supply, s.books.health[key].source, outcome)])
        && s'.tasks == s.tasks.(health := s.tasks.health - {key})
        && s' == s.(books := s'.books, tasks := s'.tasks, supply := s.supply + 1, version := s.version + 1)
      else s' == s
  {
  }

  lemma CheckWakesExactly(s: State, id: nat, reply: HealthReply)
    requires id in s.jobs && s.jobs[id].HealthJob?
    ensures var s', key := WakeHealth(s, id, reply), s.jobs[id].key;
      && JobGone(s, s', id) && s'.past == s.past
      && if reply.Checked? && key in s.books.health && s.books.health[key].HealthRunning? && s.books.health[key].attempt == id then
           s'.books == s.books.(health := s.books.health[key := HealthCompleted(s.supply, s.books.health[key].source, reply.outcome)])
         else s'.books == s.books
  {
  }

  // ----- Restore

  /** The Restore is over: its task is gone, and the reservation stands exactly if nobody knows what became of it. */
  predicate RestoreOver(s: State, s': State, id: nat, key: Key, uncertain: bool) {
    && JobGone(s, s', id) && s'.past == s.past.(log := s.past.log + [RestoreFinished(id, key, uncertain)])
    && s'.books == s.books.(reserved := if uncertain then s.books.reserved else s.books.reserved - {key})
    && s'.tasks == s.tasks
  }

  /**
   A rollback is submitted only for a target that is still eligible, has no snapshot being created and is reserved. It is
   uncertain from the submission on, until PVE refuses it or its task is seen to end.
   */
  lemma RestoreWakesExactly(s: State, id: nat, reply: RestoreReply)
    requires id in s.jobs && s.jobs[id].RestoreJob?
    ensures var s', key := WakeRestore(s, id, reply), s.jobs[id].key;
      match s.jobs[id].stage
      case Validating =>
        if reply == StillEligible(false) && key in s.books.reserved then
          id in s'.jobs && s'.jobs[id] == s.jobs[id].(stage := Submitting(false)) && Discarded(s'.books, key)
          && s'.past == s.past.(log := s.past.log + [TruthDiscarded(key)]) && s'.books.reserved == s.books.reserved
        else RestoreOver(s, s', id, key, false)
      case Submitting(_) =>
        if reply == TaskAccepted then s' == s.(jobs := s.jobs[id := s.jobs[id].(stage := Watching)])
        else RestoreOver(s, s', id, key, reply != RollbackRefused)
      case Watching => RestoreOver(s, s', id, key, reply != TaskObserved(true))
  {
    assert s.jobs[id].key !in s.books.reserved ==> s.books.reserved - {s.jobs[id].key} == s.books.reserved;
  }

  // ----- what one turn of a run body ends in

  /** Only a success that still owns its target stays, for one last look at what could be removed now. */
  predicate StaysToObserve(s: State, id: nat, turn: Turn)
    requires id in s.jobs && s.jobs[id].MutationJob?
  {
    turn.Settle? && turn.record.status == Succeeded && Owning(s.books, s.jobs[id].attempt.kind, s.jobs[id].key, id)
  }

  lemma ObservesExactly(s: State, id: nat, turn: Turn, presented: bool, l: Listeners, created: bool)
    requires id in s.jobs && s.jobs[id].MutationJob? && StaysToObserve(s, id, turn)
    ensures var s', job := ApplyTurn(s, id, turn, presented, l, created), s.jobs[id];
      && s'.jobs == s.jobs[id := job.(attempt := job.attempt.(at := AwaitObservation(turn.record, |s'.past.log|)))]
      && s'.updateSlot == s.updateSlot - {id} && s.past.log <= s'.past.log
      && s' == s.(jobs := s'.jobs, updateSlot := s'.updateSlot, past := s'.past)
  {
  }

  /** The evidence an ending attempt leaves: what it saw removable, or none; an unfinished Update leaves what there was. */
  predicate LeavesEvidence(b: Books, b': Books, kind: MutationKind, key: Key, turn: Turn, presented: bool, owned: bool) {
    match turn
    case Observed(_, candidates) =>
      && (key in b'.evidence <==> key !in b.fenced && candidates.Some? && (candidates.value == [] || presented))
      && (key in b'.evidence ==> candidates == Some(b'.evidence[key].candidates))
    case Interrupted(_) => owned ==> key !in b'.evidence
    case Settle(_, _) => if kind == CleanupKind then key !in b'.evidence else SameAt(b.evidence, b'.evidence, key)
    case Abort(_) => if kind == CleanupKind && owned then key !in b'.evidence else SameAt(b.evidence, b'.evidence, key)
    case _ => true
  }

  /** Where a Health check follows, it is the running check of this target; elsewhere nothing of Health changes. */
  predicate HealthAfter(s: State, s': State, id: nat, key: Key, source: HealthSource, follows: bool, created: bool) {
    if follows then
      created ==>
        && key in s'.books.health && s'.books.health[key].HealthRunning? && s'.books.health[key].source == source
        && s'.books.health[key].attempt in s'.jobs
        && s'.jobs[s'.books.health[key].attempt] == HealthJob(key, false, source)
    else s'.books.health == s.books.health && s'.jobs == s.jobs - {id}
  }

  /** How the records of an ending attempt's target change, and that no other target's do. */
  ghost predicate EndsAs(s: State, s': State, id: nat, record: UpdateRecord, observed: bool, created: bool)
    requires id in s.jobs && s.jobs[id].MutationJob?
  {
    var kind, key := s.jobs[id].attempt.kind, s.jobs[id].key;
    && (forall k: Key | k != key :: SameBooksAt(s.books, s'.books, k))
    && (if Owning(s.books, kind, key, id) then
          && Stored(s, s', kind, key, record) && id in s'.past.reports && s'.past.reports[id] == record
          && HealthAfter(s, s', id, key, Trigger(kind),
                         observed && record.status == Succeeded && !HealthClaimBlocked(s.books, key.vmid), created)
        else
          && s'.books.updates == s.books.updates && s'.books.cleanups == s.books.cleanups && s'.tasks == s.tasks
          && HealthAfter(s, s', id, key, Trigger(kind), false, created))
  }

  /** The task has ended and at most the evidence of its target has changed. */
  ghost predicate Leaving(s: State, left: State, id: nat, key: Key) {
    && left.jobs == s.jobs - {id} && left.tasks == s.tasks && left.books == s.books.(evidence := left.books.evidence)
    && forall k: Key | k != key :: SameAt(s.books.evidence, left.books.evidence, k)
  }

  lemma LeftOwning(s: State, left: State, id: nat, kind: MutationKind, key: Key)
    requires Leaving(s, left, id, key)
    ensures Owning(left.books, kind, key, id) <==> Owning(s.books, kind, key, id)
    ensures HealthClaimBlocked(left.books, key.vmid) <==> HealthClaimBlocked(s.books, key.vmid)
  {
    hide HealthClaimBlocked;
    ClaimBlockedExactly(left.books, key.vmid);
    ClaimBlockedExactly(s.books, key.vmid);
    assert forall o: Owner, k: Key | o == RestoreOwner || o == ScanOwner || o == HealthOwner ::
      Busy(left.books, o, k) <==> Busy(s.books, o, k);
  }

  lemma OthersAfterFinish(s: State, left: State, s': State, id: nat, kind: MutationKind, key: Key, record: UpdateRecord)
    requires Leaving(s, left, id, key) && Stored(left, s', kind, key, record) && FinishesOnly(left, s', key)
    ensures forall k: Key | k != key :: SameBooksAt(s.books, s'.books, k)
    ensures s'.books.evidence == left.books.evidence && Stored(s, s', kind, key, record)
  {
  }

  lemma HealthAfterFinish(s: State, left: State, s': State, id: nat, key: Key, source: HealthSource, follows: bool, created: bool)
    requires Leaving(s, left, id, key)
    requires if follows then CheckFollows(left, s', key, source, created)
             else s'.books.health == left.books.health && s'.jobs == left.jobs
    ensures HealthAfter(s, s', id, key, source, follows, created)
  {
  }

  lemma LeftAlone(s: State, left: State, id: nat, record: UpdateRecord, observed: bool, created: bool)
    requires id in s.jobs && s.jobs[id].MutationJob? && Leaving(s, left, id, s.jobs[id].key)
    requires !Owning(s.books, s.jobs[id].attempt.kind, s.jobs[id].key, id)
    ensures EndsAs(s, left, id, record, observed, created)
  {
    hide Owning, HealthClaimBlocked;
  }

  lemma FinishesLeft(s: State, left: State, id: nat, record: UpdateRecord, claimHealth: bool, created: bool)
    requires id in s.jobs && s.jobs[id].MutationJob? && Leaving(s, left, id, s.jobs[id].key)
    ensures var kind, key := s.jobs[id].attempt.kind, s.jobs[id].key;
      var s' := FinishMutation(left, kind, key, id, record, claimHealth, QUIET, created);
      s'.books.evidence == left.books.evidence && EndsAs(s, s', id, record, claimHealth, created)
  {
    hide FinishMutation, HealthClaimBlocked, Owning, Stored, FinishesOnly, CheckFollows, HealthAfter, Leaving, SameBooksAt;
    var kind, key := s.jobs[id].attempt.kind, s.jobs[id].key;
    var s' := FinishMutation(left, kind, key, id, record, claimHealth, QUIET, created);
    LeftOwning(s, left, id, kind, key);
    FinishedExactly(left, kind, key, id, record, claimHealth, created);
    if Owning(s.books, kind, key, id) {
      OthersAfterFinish(s, left, s', id, kind, key, record);
      var follows := claimHealth && record.status == Succeeded && !HealthClaimBlocked(left.books, key.vmid);
      HealthAfterFinish(s, left, s', id, key, Trigger(kind), follows, created);
    } else {
      LeftAlone(s, left, id, record, claimHealth, created);
    }
  }

  lemma LeavesUnowned(s: State, left: State, id: nat, record: UpdateRecord, created: bool)
    requires id in s.jobs && s.jobs[id].MutationJob? && Leaving(s, left, id, s.jobs[id].key)
    requires !Owning(s.books, s.jobs[id].attempt.kind, s.jobs[id].key, id)
    ensures var s' := Report(left, id, record);
      EndsAs(s, s', id, record, false, created) && s'.books == left.books && id in s'.past.reports && s'.past.reports[id] == record
  {
    hide Owning;
  }

  /**
   Any other end of a turn removes the task. An attempt that owns its target stores and reports its record, and a Health
   check follows exactly a success whose last look was not interrupted; one that does not own it stores nothing.
   */
  lemma EndsExactly(s: State, id: nat, turn: Turn, presented: bool, created: bool)
    requires id in s.jobs && s.jobs[id].MutationJob? && !turn.Proceed? && !StaysToObserve(s, id, turn)
    requires turn.Abort? ==> turn.record.status == Failed
    ensures var s', a, key := ApplyTurn(s, id, turn, presented, QUIET, created), s.jobs[id].attempt, s.jobs[id].key;
      var owned := Owning(s.books, a.kind, key, id);
      && EndsAs(s, s', id, turn.record, turn.Observed?, created)
      && LeavesEvidence(s.books, s'.books, a.kind, key, turn, presented, owned)
      && (!owned && (turn.Abort? || turn.Interrupted?) ==> id in s'.past.reports && s'.past.reports[id] == turn.record)
  {
    hide FinishMutation, PublishCleanup, HealthClaimBlocked, Pass, Report, EndsAs, Leaving;
    var job := s.jobs[id];
    var key := job.key;
    var ended := EndJob(s, id);
    match turn
    case Settle(record, passed) =>
      var past := ended.(past := Pass(s.past, job.attempt, passed));
      LeavesForgetting(s, past, id, presented);
      FinishesLeft(s, ForgetCandidates(past, job), id, record, true, created);
      FailureChecksNothing(s, ApplyTurn(s, id, turn, presented, QUIET, created), id, record, created);
    case Abort(record) =>
      LeavesForgetting(s, ended, id, presented);
      FinishesLeft(s, ForgetCandidates(ended, job), id, record, true, created);
      FailureChecksNothing(s, ApplyTurn(s, id, turn, presented, QUIET, created), id, record, created);
      LeavesAtOnce(s, ended, id);
      if !Owning(s.books, job.attempt.kind, key, id) {
        LeavesUnowned(s, ended, id, record, created);
      }
    case Observed(record, candidates) =>
      var begun := if job.attempt.at.AwaitObservation? then job.attempt.at.begun else |s.past.log|;
      LeavesLooking(s, ended, id, candidates, begun, presented);
      FinishesLeft(s, PublishCleanup(ended, key, candidates, begun, presented), id, record, true, created);
    case Interrupted(record) =>
      LeavesLooking(s, ended, id, None, |s.past.log|, presented);
      FinishesLeft(s, PublishCleanup(ended, key, None, |s.past.log|, presented), id, record, false, created);
      LeavesAtOnce(s, ended, id);
      if !Owning(s.books, job.attempt.kind, key, id) {
        LeavesUnowned(s, ended, id, record, created);
      }
  }

  lemma LeavesAtOnce(s: State, ended: State, id: nat)
    requires id in s.jobs && ended == EndJob(s, id)
    ensures Leaving(s, ended, id, s.jobs[id].key) && ended.books == s.books
  {
  }

  lemma LeavesForgetting(s: State, ended: State, id: nat, presented: bool)
    requires id in s.jobs && s.jobs[id].MutationJob? && ended.books == s.books && ended.tasks == s.tasks && ended.jobs == s.jobs - {id}
    ensures var left, key := ForgetCandidates(ended, s.jobs[id]), s.jobs[id].key;
      && Leaving(s, left, id, key)
      && (if s.jobs[id].attempt.kind == CleanupKind then key !in left.books.evidence else left.books.evidence == s.books.evidence)
  {
  }

  lemma LeavesLooking(
    s: State, ended: State, id: nat, observed: Option<seq<RemovablePackage>>, begun: nat, presented: bool)
    requires id in s.jobs && s.jobs[id].MutationJob? && ended == EndJob(s, id)
    ensures var left, key := PublishCleanup(ended, s.jobs[id].key, observed, begun, presented), s.jobs[id].key;
      Leaving(s, left, id, key) && EvidenceOf(s.books, left.books, key, observed, begun, presented)
  {
    hide PublishCleanup;
    EvidenceStoredExactly(ended, s.jobs[id].key, observed, begun, presented);
  }

  /** For a failed record it makes no difference whether a success would have been checked. */
  lemma FailureChecksNothing(s: State, s': State, id: nat, record: UpdateRecord, created: bool)
    requires id in s.jobs && s.jobs[id].MutationJob?
    requires record.status != Succeeded || !Owning(s.books, s.jobs[id].attempt.kind, s.jobs[id].key, id)
    ensures EndsAs(s, s', id, record, true, created) <==> EndsAs(s, s', id, record, false, created)
  {
    hide HealthClaimBlocked, Owning;
  }
}
