/**
 What the manager's clients may rely on: the Easy Update button, the LXC Restore button, and the Health
 check that follows a successful Update or Autoremove.
 */
module ClientTheorems {
  import opened Models
  import opened NativeSnapshots
  import opened Attempts
  import opened History
  import opened ManagerState
  import opened ManagerMachine
  import opened ManagerInvariant
  import opened BooksProofs
  import opened LedgerProofs
  import opened ProvenanceProofs
  import opened ListenerProofs
  import opened FinishProofs
  import opened TurnProofs
  import opened ActionProofs
  import opened WakeProofs
  import opened ManagerTheorems
  import opened Starts
  import opened Results

  /** Something is under way on this VMID under another node's key. */
  ghost predicate BusyElsewhere(b: Books, key: Key) {
    exists o: Owner, k: Key :: Busy(b, o, k) && k.vmid == key.vmid && k != key
  }

  // ----- the Easy Update button

  /** Confirming a scan changes who is busy with nothing, and leaves the own key idle if it was. */
  lemma ConfirmedOwners(b: Books, key: Key)
    requires key in b.records && b.records[key].ScanSuccess?
    ensures forall o: Owner, k: Key :: Busy(ReviewBooks(b, key), o, k) <==> Busy(b, o, k)
  {
    forall o: Owner, k: Key ensures Busy(ReviewBooks(b, key), o, k) <==> Busy(b, o, k) {
      match o
      case ScanOwner =>
      case UpdateOwner =>
      case CleanupOwner =>
      case RestoreOwner =>
      case HealthOwner =>
    }
  }

  /** What the button asks for, on the records: a current plan of an idle target the coordinator knows to be running. */
  ghost predicate Offered(s: State, key: Key, expected: Option<nat>, skip: bool, snapshotCreateRunning: bool) {
    && s.coordinator.lastUpdateSuccess && key in s.coordinator.running
    && key in s.books.records && s.books.records[key].ScanSuccess? && s.books.records[key].packages != []
    && (expected == None || expected == Some(s.books.records[key].attempt))
    && (if skip then !snapshotCreateRunning else key.vmid in s.coordinator.snapshotGranted)
    && forall o: Owner :: !Busy(s.books, o, key)
  }

  lemma OfferedExactly(s: State, key: Key, expected: Option<nat>, skip: bool, snapshotCreateRunning: bool)
    ensures EasyUpdatePrechecks(s, key, expected, skip, snapshotCreateRunning)
      <==> Offered(s, key, expected, skip, snapshotCreateRunning)
  {
    if Offered(s, key, expected, skip, snapshotCreateRunning) {
      assert !Busy(s.books, RestoreOwner, key) && !Busy(s.books, UpdateOwner, key) && !Busy(s.books, CleanupOwner, key)
        && !Busy(s.books, HealthOwner, key);
    }
  }

  lemma OfferedScan(s: State, key: Key, expected: Option<nat>, skip: bool, snapshotCreateRunning: bool)
    requires EasyUpdatePrechecks(s, key, expected, skip, snapshotCreateRunning)
    ensures key in s.books.records && s.books.records[key].ScanSuccess? && s.books.records[key].packages != []
  {
  }

  lemma ConfirmedAcceptance(s: State, key: Key, expected: Option<nat>, skip: bool, snapshotCreateRunning: bool)
    requires EasyUpdatePrechecks(s, key, expected, skip, snapshotCreateRunning)
    ensures var confirmed := ConfirmReview(s, key, s.books.records[key].token);
      var refusal := UpdateRefusal(confirmed, key, true, key.vmid in s.coordinator.snapshotGranted, skip);
      refusal.None? <==> s.configured && !BusyElsewhere(s.books, key)
  {
    hide BusyAt;
    var confirmed := ConfirmReview(s, key, s.books.records[key].token);
    BusyMeansOwned(confirmed.books, key.vmid);
    ConfirmedOwners(s.books, key);
    assert forall o: Owner :: !Busy(s.books, o, key);
  }

  predicate EasilyStarted(s: State, s': State, key: Key, skip: bool, follow: bool)
    requires key in s.books.records && s.books.records[key].ScanSuccess?
  {
    var scan := s.books.records[key];
    && s'.past.log == s.past.log + [ReviewConfirmed(key, scan.token),
                                    UpdateAccepted(s.supply, key, scan.token, scan.packages, skip)]
    && OwnsMutation(s'.books, UpdateKind, key, s.supply)
    && s'.followers ==
      (if follow then s.followers[s.supply + 1 := Follower(key, s.supply, false, s'.version)] else s.followers)
  }

  predicate OnlyConfirmed(s: State, s': State, key: Key)
    requires key in s.books.records && s.books.records[key].ScanSuccess?
  {
    && s'.past.log == s.past.log + [ReviewConfirmed(key, s.books.records[key].token)]
    && s'.books.updates == s.books.updates && s'.jobs == s.jobs && s'.followers == s.followers
  }

  /**
   The button's own checks look at one key only; when one of them fails nothing changes. Once they pass, the Update is
   accepted if and only if the manager is configured and nothing is under way on the VMID under another node's key; it
   is accepted for exactly the scan whose token was confirmed, and a continuation is left if one was asked for.
   */
  lemma EasyUpdateAccepted(s: State, key: Key, expected: Option<nat>, skip: bool, snapshotCreateRunning: bool, follow: bool)
    ensures var s' := StartEasyUpdate(s, key, expected, skip, snapshotCreateRunning, follow);
      if !Offered(s, key, expected, skip, snapshotCreateRunning) then s' == s
      else if s.configured && !BusyElsewhere(s.books, key) then EasilyStarted(s, s', key, skip, follow)
      else OnlyConfirmed(s, s', key)
  {
    hide BusyElsewhere, EasyUpdatePrechecks, Offered, EasilyStarted, OnlyConfirmed, UpdateRefusal, StartUpdate, ConfirmReview;
    OfferedExactly(s, key, expected, skip, snapshotCreateRunning);
    if EasyUpdatePrechecks(s, key, expected, skip, snapshotCreateRunning) {
      OfferedScan(s, key, expected, skip, snapshotCreateRunning);
      ConfirmedAcceptance(s, key, expected, skip, snapshotCreateRunning);
      AfterConfirming(s, key, skip, follow);
    }
  }

  lemma AfterConfirming(s: State, key: Key, skip: bool, follow: bool)
    requires key in s.books.records && s.books.records[key].ScanSuccess? && s.books.records[key].packages != []
    ensures var confirmed := ConfirmReview(s, key, s.books.records[key].token);
      && OnlyConfirmed(s, confirmed, key) && confirmed.supply == s.supply
      && ReviewedPlan(confirmed.books, key)
      && forall permission: bool | UpdateRefusal(confirmed, key, true, permission, skip).None? ::
        var started := StartUpdate(confirmed, key, true, permission, skip);
        && EasilyStarted(s, started, key, skip, false)
        && EasilyStarted(s, started.(supply := started.supply + 1,
             followers := s.followers[started.supply := Follower(key, confirmed.supply, false, started.version)]), key, skip, true)
  {
    hide MutationRefusal, PlanTuple, CancelJobs;
  }

  lemma UpdateLogs(s: State, key: Key, skip: bool)
    requires ReviewedPlan(s.books, key)
    ensures var scan := s.books.records[key];
      AcceptUpdate(s, key, skip).past.log == s.past.log + [UpdateAccepted(s.supply, key, scan.token, scan.packages, skip)]
  {
  }

  lemma OthersLogNoUpdate(s: State, call: Call, e: Event)
    requires !call.PressUpdate? && !call.EasyUpdate?
    requires e in Dispatch(s, call).past.log && e !in s.past.log
    ensures !e.UpdateAccepted?
  {
    hide BusyAt, CancelJobs, Reviewable, ShownPlan, RestoreBlocked, OwnsHealth;
  }

  lemma EasyLogs(s: State, key: Key, expected: Option<nat>, skip: bool, snapshotCreateRunning: bool, follow: bool, e: Event)
    requires e in StartEasyUpdate(s, key, expected, skip, snapshotCreateRunning, follow).past.log && e !in s.past.log
    ensures e.UpdateAccepted? ==> e.key == key && e.skip == skip
  {
    hide StartEasyUpdate, Offered, BusyElsewhere;
    EasyUpdateAccepted(s, key, expected, skip, snapshotCreateRunning, follow);
  }

  /** No button takes an Update past its safety snapshot: only an Easy Update that was asked to skip it does. */
  lemma ButtonsNeverSkip(s: State, call: Call, e: Event)
    requires e in Dispatch(s, call).past.log && e !in s.past.log && e.UpdateAccepted? && e.skip
    ensures call.EasyUpdate? && call.skip && call.key == e.key
  {
    hide AcceptUpdate, MutationRefusal, ReviewedPlan, StartEasyUpdate;
    match call
    case PressUpdate(key, targetIsRunning, permission) =>
      if ReviewedPlan(s.books, key) {
        UpdateLogs(s, key, false);
      }
    case EasyUpdate(key, expected, skip, snapshotCreateRunning, follow) =>
      EasyLogs(s, key, expected, skip, snapshotCreateRunning, follow, e);
    case _ => OthersLogNoUpdate(s, call, e);
  }

  // ----- Restore

  predicate AcceptsOn(e: Event, vmid: int) {
    (e.ScanAccepted? || e.UpdateAccepted? || e.CleanupAccepted? || e.HealthAccepted? || e.RestoreAccepted?)
    && e.key.vmid == vmid
  }

  /** After a Restore without a known outcome nothing is ever accepted again on its VMID, in any continuation. */
  lemma StrandedForGood(configured: bool, c: Coordinator, actions: seq<Action>, i: nat, j: nat)
    requires var log := Reached(configured, c, actions).past.log;
      i < j < |log| && log[i].RestoreFinished? && log[i].uncertain
    ensures var log := Reached(configured, c, actions).past.log;
      !AcceptsOn(log[j], log[i].key.vmid)
  {
    hide Reached, TokenUnused, EvidenceUnused, Undisturbed;
    HistoryIsJustified(configured, c, actions, j);
    var log := Reached(configured, c, actions).past.log;
    assert log[i] == log[..j][i] && log[i] in log[..j];
  }

  /** A rollback is submitted only by a Restore that holds its reservation and has discarded the package truth. */
  lemma RollbackIsReserved(s: State, id: nat)
    requires CanEnter(s, id) && s.jobs[id].RestoreJob?
    requires Inv(s, NoHole)
    ensures var key := s.jobs[id].key;
      && key in s.books.reserved && s.past.owners[key] == id && Discarded(s.books, key)
      && RestoreAccepted(id, key) in s.past.log && TruthDiscarded(key) in s.past.log
      && Enter(s, id).past.log == s.past.log + [RollbackSubmitted(id, key)]
      && Enter(s, id).books == s.books
  {
    hide Inv;
    LiveRestore(s, id);
    RollbackPresupposes(s, id);
  }

  lemma FinishKeepsReserved(
    s: State, kind: MutationKind, key: Key, id: nat, record: UpdateRecord, claimHealth: bool, l: Listeners, created: bool)
    ensures s.books.reserved <= FinishMutation(s, kind, key, id, record, claimHealth, l, created).books.reserved
  {
    hide Listen, PastExtends, JobsExtend, OwnsMutation, OwnsHealth, HealthClaimBlocked;
    var claim := claimHealth && record.status.Succeeded? && !HealthClaimBlocked(s.books, key.vmid);
    var forgotten := s.(tasks := ForgetTask(s.tasks, kind, key));
    ListenExtends(ClaimHealth(forgotten, key, SourceOf(kind)), l.claimed);
    var claimed := Claimed(s, kind, key, claim, l.claimed);
    ListenExtends(SetMutationRecord(claimed, kind, key, record), l.published);
    var published := Listen(SetMutationRecord(claimed, kind, key, record), l.published);
    ListenExtends(Report(published, id, record), l.reported);
  }

  lemma TurnKeepsReserved(s: State, id: nat, turn: Turn, presented: bool, l: Listeners, created: bool)
    requires id in s.jobs && s.jobs[id].MutationJob?
    ensures s.books.reserved <= ApplyTurn(s, id, turn, presented, l, created).books.reserved
  {
    hide FinishMutation, OwnsMutation, PublishCleanup, ForgetCandidates;
    var job := s.jobs[id];
    match turn
    case Proceed(_, _) =>
    case Settle(record, passed) =>
      var ended := EndJob(s, id).(past := Pass(s.past, job.attempt, passed));
      ForgetFrame(ended, job);
      FinishKeepsReserved(ForgetCandidates(ended, job), job.attempt.kind, job.key, id, record, true, l, created);
    case Abort(record) =>
      ForgetFrame(EndJob(s, id), job);
      FinishKeepsReserved(ForgetCandidates(EndJob(s, id), job), job.attempt.kind, job.key, id, record, true, l, created);
    case Observed(record, candidates) =>
      var begun := if job.attempt.at.AwaitObservation? then job.attempt.at.begun else |s.past.log|;
      PublishFrame(EndJob(s, id), job.key, candidates, begun, presented);
      var published := PublishCleanup(EndJob(s, id), job.key, candidates, begun, presented);
      FinishKeepsReserved(published, job.attempt.kind, job.key, id, record, true, l, created);
    case Interrupted(record) =>
      PublishFrame(EndJob(s, id), job.key, None, |s.past.log|, presented);
      var published := PublishCleanup(EndJob(s, id), job.key, None, |s.past.log|, presented);
      FinishKeepsReserved(published, job.attempt.kind, job.key, id, record, false, l, created);
  }

  lemma FollowerKeepsReserved(s: State, id: nat)
    requires id in s.followers
    ensures RunFollower(s, id).books.reserved == s.books.reserved
  {
    hide BusyAt, Decide;
  }

  lemma FinishReleases(s: State, id: nat, mine: Key, uncertain: bool, key: Key)
    requires key in s.books.reserved && key !in FinishRestore(s, id, mine, uncertain).books.reserved
    ensures mine == key && !uncertain
    ensures FinishRestore(s, id, mine, uncertain).past.log == s.past.log + [RestoreFinished(id, key, false)]
  {
  }

  lemma RestoreReleases(s: State, id: nat, reply: RestoreReply, key: Key)
    requires id in s.jobs && s.jobs[id].RestoreJob?
    requires key in s.books.reserved && key !in WakeRestore(s, id, reply).books.reserved
    ensures s.jobs[id].key == key
    ensures WakeRestore(s, id, reply).past.log == s.past.log + [RestoreFinished(id, key, false)]
  {
    hide FinishRestore;
    var mine := s.jobs[id].key;
    match s.jobs[id].stage
    case Validating => FinishReleases(s, id, mine, false, key);
    case Submitting(_) => FinishReleases(s, id, mine, !reply.RollbackRefused?, key);
    case Watching => FinishReleases(s, id, mine, !(reply.TaskObserved? && reply.known), key);
  }

  /** A reservation is given back in one way only: its own Restore ends with a known outcome. */
  lemma ReservationReleased(s: State, action: Action, key: Key)
    requires Enabled(s, action)
    requires key in s.books.reserved && key !in Step(s, action).books.reserved
    ensures action.RestoreWakes? && s.jobs[action.id].key == key
    ensures Step(s, action).past.log == s.past.log + [RestoreFinished(action.id, key, false)]
  {
    hide ApplyTurn, Advance, Possible, Dispatch, RunFollower, WakeScan, WakeRestore, PastExtends, JobsExtend;
    match action
    case Press(call) => DispatchExtends(s, call);
    case ScanWakes(id, reply, presented) => ScanFrame(s, id, reply, presented);
    case AttemptWakes(id, reply, generated, presented, l, created) =>
      TurnKeepsReserved(s, id, Advance(s.jobs[id].attempt, reply, generated), presented, l, created);
    case RestoreWakes(id, reply) => RestoreReleases(s, id, reply, key);
    case FollowerWakes(id) => FollowerKeepsReserved(s, id);
    case _ =>
  }

  // ----- the Health hand-off

  /** An attempt that still owns its target is never kept from claiming Health there. */
  lemma ClaimNeverFails(configured: bool, c: Coordinator, actions: seq<Action>, kind: MutationKind, key: Key, id: nat)
    requires OwnsMutation(Reached(configured, c, actions).books, kind, key, id)
    ensures !HealthClaimBlocked(Reached(configured, c, actions).books, key.vmid)
  {
    hide Reached, FenceHolds, NoEvidenceWhileRunning, ViewedIsCurrent, Tethered, SectionsBounded, TraceOk, ClientsOk;
    hide HealthClaimBlocked, Exclusive;
    InvHolds(configured, c, actions);
    ClaimNeverBlocked(Reached(configured, c, actions).books, kind, key);
  }

  /** While a claim is held, no start of package work or Health is accepted on that VMID, under any node's key. */
  lemma HeldRefuses(s: State, key: Key, health: nat, other: Key, targetIsRunning: bool, permission: bool, skip: bool, created: bool)
    requires Held(s, key, health) && other.vmid == key.vmid
    ensures StartScan(s, other, targetIsRunning) == s
    ensures StartUpdate(s, other, targetIsRunning, permission, skip) == s
    ensures StartAutoremove(s, other, targetIsRunning, permission) == s
    ensures StartHealth(s, other, targetIsRunning, created) == s
  {
    assert HealthRunningAt(s.books.health, other.vmid);
  }

  /** However many calls listeners make, the claim stays held, so all of the above keep being refused. */
  lemma ListenersAreRefused(s: State, key: Key, health: nat, calls: seq<Call>)
    requires Held(s, key, health)
    ensures Held(Listen(s, calls), key, health)
  {
    hide Listen, Held;
    ListenExtends(s, calls);
    HeldExtends(s, Listen(s, calls), key, health);
  }

  /**
   The hand-off of a successful attempt: whatever listeners do at the three notifications, the claim is held at
   each of them and becomes the running Health check of that target.
   */
  lemma HealthFollowsSuccess(
    s: State, kind: MutationKind, key: Key, id: nat, record: UpdateRecord, l: Listeners)
    requires OwnsMutation(s.books, kind, key, id) && record.status.Succeeded? && !HealthClaimBlocked(s.books, key.vmid)
    requires s.supply !in s.jobs
    ensures var s' := FinishMutation(s, kind, key, id, record, true, l, true);
      && OwnsHealth(s'.books, key, s.supply) && key in s'.tasks.health && s'.tasks.health[key] == s.supply
      && s.supply in s'.jobs && s'.jobs[s.supply] == HealthJob(key, false, SourceOf(kind))
      && id in s'.past.reports && s'.past.reports[id] == record
    ensures var claimed := Claimed(s, kind, key, true, l.claimed);
      var published := Listen(SetMutationRecord(claimed, kind, key, record), l.published);
      && Held(ClaimHealth(s, key, SourceOf(kind)), key, s.supply)
      && Held(claimed, key, s.supply)
      && Held(published, key, s.supply)
      && Held(Listen(Report(published, id, record), l.reported), key, s.supply)
  {
    hide Listen, HealthClaimBlocked, JobsExtend, BooksExtend, NeutralAll;
    var health := s.supply;
    var first := ClaimHealth(s.(tasks := ForgetTask(s.tasks, kind, key)), key, SourceOf(kind));
    ListenersAreRefused(first, key, health, l.claimed);
    var claimed := Listen(first, l.claimed);
    ListenersAreRefused(SetMutationRecord(claimed, kind, key, record), key, health, l.published);
    var published := Listen(SetMutationRecord(claimed, kind, key, record), l.published);
    ListenersAreRefused(Report(published, id, record), key, health, l.reported);
    ListenExtends(Report(published, id, record), l.reported);
  }

  /**
   In every reachable state, an attempt that succeeded, still owns its target and is resumed after its last look stores
   and reports that success and leaves a running Health check behind, which nothing can have kept it from claiming.
   */
  lemma SuccessIsChecked(configured: bool, c: Coordinator, actions: seq<Action>, wake: Action)
    requires var s := Reached(configured, c, actions);
      && wake.AttemptWakes? && Enabled(s, wake) && wake.listeners == QUIET && wake.created && !wake.reply.Cancelled?
      && s.jobs[wake.id].attempt.at.AwaitObservation?
      && Owning(s.books, s.jobs[wake.id].attempt.kind, s.jobs[wake.id].key, wake.id)
    ensures var s := Reached(configured, c, actions);
      var s', a, key := Step(s, wake), s.jobs[wake.id].attempt, s.jobs[wake.id].key;
      && a.at.success.status == Succeeded && Stored(s, s', a.kind, key, a.at.success)
      && wake.id in s'.past.reports && s'.past.reports[wake.id] == a.at.success
      && HealthAfter(s, s', wake.id, key, Trigger(a.kind), true, true)
  {
    hide Reached, Inv, Possible, ApplyTurn, Consistent, Stored, HealthAfter, OwnSnapshotName, Accounted, HealthClaimBlocked;
    InvHolds(configured, c, actions);
    var s := Reached(configured, c, actions);
    var a, key := s.jobs[wake.id].attempt, s.jobs[wake.id].key;
    LiveAttempt(s, wake.id);
    SuccessWaits(a, s.past.snapshots[wake.id]);
    ClaimNeverFails(configured, c, actions, a.kind, key, wake.id);
    EndsExactly(s, wake.id, Advance(a, wake.reply, wake.generated), wake.presented, true);
  }

  lemma SuccessWaits(a: Attempt, w: Snapshot)
    requires Consistent(a, w) && a.at.AwaitObservation?
    ensures a.at.success.status == Succeeded
  {
  }
}
