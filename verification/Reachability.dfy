/**
 The protocol is not only safe but can be completed: an attempt that has not been told to stop can always still
 succeed and leave no snapshot behind, and from a new manager such an attempt can be reached.
 */
module Reachability {
  import opened Models
  import opened Wire
  import opened NativeSnapshots
  import opened Attempts
  import opened History
  import opened ManagerState
  import opened ManagerMachine
  import opened ManagerInvariant
  import opened TurnProofs
  import opened ManagerTheorems
  import opened Starts
  import opened ClientTheorems
  import opened Followers

  ghost predicate Leads(s: State, s': State) { exists actions: seq<Action> :: Run(s, actions) == s' }

  lemma {:induction false} RunOn(s: State, first: seq<Action>, more: seq<Action>)
    ensures Run(s, first + more) == Run(Run(s, first), more)
    decreases |first|
  {
    hide Do;
    if first == [] {
      assert first + more == more;
    } else {
      assert (first + more)[1..] == first[1..] + more;
      RunOn(Do(s, first[0]), first[1..], more);
    }
  }

  lemma LeadsOn(s1: State, s2: State, s3: State)
    requires Leads(s1, s2) && Leads(s2, s3)
    ensures Leads(s1, s3)
  {
    hide Run;
    var first :| Run(s1, first) == s2;
    var more :| Run(s2, more) == s3;
    RunOn(s1, first, more);
    assert Run(s1, first + more) == s3;
  }

  lemma LeadsStep(s: State, action: Action)
    requires Enabled(s, action)
    requires Inv(s, NoHole)
    ensures Leads(s, Step(s, action)) && Inv(Step(s, action), NoHole)
  {
    hide Inv, Enabled, Step;
    StepKeeps(s, action);
    assert Run(s, [action]) == Step(s, action) by {
      assert [action][1..] == [];
    }
  }

  // ----- one attempt, step by step

  /** The attempt is a live task of the manager that nobody has told to stop, with this much of a snapshot. */
  ghost predicate Stands(s: State, id: nat, key: Key, a: Attempt, w: Snapshot) {
    && Inv(s, NoHole)
    && id in s.jobs && s.jobs[id] == MutationJob(key, false, a)
    && id in s.past.snapshots && s.past.snapshots[id] == w
  }

  /** Only this one attempt has moved: what the manager keeps about its targets is as it was. */
  predicate Calm(s: State, s': State) {
    && s'.configured == s.configured && s'.coordinator == s.coordinator && s'.supply == s.supply && s'.version == s.version
    && s'.books == s.books && s'.tasks == s.tasks && s'.followers == s.followers && s'.jobs.Keys == s.jobs.Keys
  }

  const NAME := "hubinet-preupd-0"

  lemma NameIsOwn()
    ensures OwnSnapshotName(NAME)
  {
    assert NAME[..15] == SNAPSHOT_PREFIX;
    assert forall i | 1 <= i < |NAME| :: NameChar(NAME[i]);
  }

  lemma Resume(s: State, id: nat, key: Key, a: Attempt, w: Snapshot, reply: Reply, next: Attempt, passed: Passed)
    returns (s': State)
    requires Stands(s, id, key, a, w) && Possible(a, w, reply)
    requires Advance(a, reply, NAME) == Proceed(next, passed)
    requires a.at.AwaitSlot? ==> s.updateSlot == {}
    ensures Stands(s', id, key, next, w) && Leads(s, s') && Calm(s, s')
  {
    hide Dispatch, Prune, InvalidateNonRunning, Enter, WakeScan, WakeHealth, WakeRestore, RunFollower;
    hide Inv, Possible, Advance, OwnSnapshotName;
    NameIsOwn();
    var action := AttemptWakes(id, reply, NAME, true, QUIET, true);
    LeadsStep(s, action);
    s' := Step(s, action);
  }

  lemma Entering(s: State, id: nat, key: Key, a: Attempt, w: Snapshot) returns (s': State)
    requires Stands(s, id, key, a, w) && a.name.Some? && (a.at == AwaitPost(false) || a.at == AwaitDelete(false))
    ensures Leads(s, s') && Calm(s, s')
    ensures a.at.AwaitPost? ==>
      Stands(s', id, key, a.(at := AwaitPost(true), submitted := true), Snapshot(a.name.value, true, true, w.present))
    ensures a.at.AwaitDelete? ==> Stands(s', id, key, a.(at := AwaitDelete(true)), w)
  {
    hide Dispatch, Prune, InvalidateNonRunning, WakeScan, ApplyTurn, WakeHealth, WakeRestore, RunFollower;
    hide Inv;
    LeadsStep(s, EnterExecutor(id));
    s' := Step(s, EnterExecutor(id));
  }

  lemma WorldGoesOn(s: State, id: nat, key: Key, a: Attempt, w: Snapshot, w': Snapshot) returns (s': State)
    requires Stands(s, id, key, a, w) && WorldMove(w, w')
    ensures Stands(s', id, key, a, w') && Leads(s, s') && Calm(s, s')
  {
    hide Inv, WorldMove;
    LeadsStep(s, WorldMoves(id, w'));
    s' := Step(s, WorldMoves(id, w'));
  }

  const STOPPED := Object(map["status" := Str("stopped"), "exitstatus" := Str("OK")])
  const RUNNING := Object(map["status" := Str("running")])
  const UPID := Str("UPID:0")
  const EMPTY := List([])

  function Listing(name: string): Json { List([Object(map["name" := Str(name)])]) }

  lemma WireFacts(name: string)
    ensures ParseTaskStatus(STOPPED) == TaskSucceeded && TaskStopped(STOPPED)
    ensures Get(RUNNING, "status") == Str("running") && ValidUpid(UPID)
    ensures WellFormedListing(EMPTY) && SnapshotIsAbsent(EMPTY, name)
    ensures SnapshotIsComplete(Listing(name), name)
  {
    var row := Object(map["name" := Str(name)]);
    assert Get(row, "name") == Str(name);
    assert Matches([row], name) == [row] by {
      assert [row][1..] == [];
    }
  }

  /** The plan request comes back with the accepted rows. */
  lemma SamePlan(s: State, id: nat, key: Key, a: Attempt, w: Snapshot) returns (reply: Reply)
    requires Stands(s, id, key, a, w)
    ensures PlanReply(reply) == Some(a.plan)
  {
    hide StateOk, ClientsOk, Supplied, ReportsTruthful, ReportedOnce, NoneLost, ProvenanceOk, Consistent, Evidenced;
    assert Accounted(s.past, id, key, a);
    match s.past.grants[id]
    case UpdateAccepted(_, _, _, packages, _) => reply := UpgradePlanned(packages);
    case CleanupAccepted(_, _, evidence) => reply := RemovalPlanned(evidence.candidates);
  }

  lemma StandingFacts(s: State, id: nat, key: Key, a: Attempt, w: Snapshot)
    requires Stands(s, id, key, a, w)
    ensures Consistent(a, w) && a.id == id && OwnsMutation(s.books, a.kind, key, id)
  {
    hide Inv, Consistent, Accounted, OwnsMutation;
    LiveAttempt(s, id);
  }

  // ----- the phases

  lemma TakeSnapshot(s: State, id: nat, key: Key, a: Attempt, w: Snapshot) returns (s': State, ready: Attempt, w': Snapshot)
    requires Stands(s, id, key, a, w) && a.at.AwaitListing? && !a.skip
    ensures Stands(s', id, key, ready, w') && Leads(s, s') && Calm(s, s')
    ensures ready.at.AwaitMutation? && ready.kind == a.kind && ready.skip == a.skip && ready.name == Some(NAME)
    ensures w'.name == NAME && !w'.creating
  {
    hide Stands, Leads, SnapshotIsAbsent, SnapshotIsComplete, ValidUpid, TaskStopped, ParseTaskStatus, WellFormedListing;
    WireFacts(NAME);
    var a1 := a.(at := AwaitPost(false), name := Some(NAME));
    var s1 := Resume(s, id, key, a, w, Listed(EMPTY), a1, Nothing);
    var s2 := Entering(s1, id, key, a1, w);
    var a2, w2 := a1.(at := AwaitPost(true), submitted := true), Snapshot(NAME, true, true, w.present);
    LeadsOn(s, s1, s2);
    var a3 := a2.(at := AwaitStatus(Creating, 0));
    var s3 := Resume(s2, id, key, a2, w2, Returned(UPID), a3, Nothing);
    LeadsOn(s, s2, s3);
    w' := Snapshot(NAME, true, false, true);
    var s4 := WorldGoesOn(s3, id, key, a3, w2, w');
    LeadsOn(s, s3, s4);
    var a5 := a3.(at := AwaitConfirm);
    var s5 := Resume(s4, id, key, a3, w', Status(STOPPED), a5, Nothing);
    LeadsOn(s, s4, s5);
    ready := a5.(at := AwaitMutation, ready := true, mutating := true);
    s' := Resume(s5, id, key, a5, w', Listed(Listing(NAME)), ready, ConfirmedThenMutates(NAME));
    LeadsOn(s, s5, s');
  }

  lemma Mutate(s: State, id: nat, key: Key, a: Attempt, w: Snapshot) returns (s': State, pinged: Attempt)
    requires Stands(s, id, key, a, w) && a.at.AwaitMutation?
    ensures Stands(s', id, key, pinged, w) && Leads(s, s') && Calm(s, s')
    ensures pinged == a.(at := AwaitPing(false), changed := Some(ChangedCount(map[], map[])))
  {
    hide Stands, Leads, ChangedCount;
    WireFacts(NAME);
    var a1 := a.(at := AwaitNative, changed := Some(ChangedCount(map[], map[])));
    var s1 := Resume(s, id, key, a, w, Mutated(map[], map[]), a1, Nothing);
    pinged := a1.(at := AwaitPing(false));
    s' := Resume(s1, id, key, a1, w, Status(RUNNING), pinged, Nothing);
    LeadsOn(s, s1, s');
  }

  lemma RemoveSnapshot(s: State, id: nat, key: Key, a: Attempt, w: Snapshot) returns (s': State, last: Attempt, w': Snapshot)
    requires Stands(s, id, key, a, w) && a.at == AwaitPing(false) && !a.skip && a.name == Some(NAME)
    requires w.name == NAME && !w.creating
    ensures Stands(s', id, key, last, w') && Leads(s, s') && Calm(s, s')
    ensures last == a.(at := AwaitAbsence) && !MayExist(w')
  {
    hide Stands, Leads, SnapshotIsAbsent, SnapshotIsComplete, ValidUpid, TaskStopped, ParseTaskStatus, WellFormedListing;
    WireFacts(NAME);
    var a1 := a.(at := AwaitDelete(false));
    var s1 := Resume(s, id, key, a, w, Pong, a1, GuestAnswered);
    var s2 := Entering(s1, id, key, a1, w);
    LeadsOn(s, s1, s2);
    var a2 := a1.(at := AwaitDelete(true));
    var a3 := a2.(at := AwaitStatus(Removing, 0));
    var s3 := Resume(s2, id, key, a2, w, Returned(UPID), a3, Nothing);
    LeadsOn(s, s2, s3);
    last := a3.(at := AwaitAbsence);
    var s4 := Resume(s3, id, key, a3, w, Status(STOPPED), last, Nothing);
    LeadsOn(s, s3, s4);
    w' := w.(present := false);
    s' := WorldGoesOn(s4, id, key, last, w, w');
    LeadsOn(s, s4, s');
  }

  // ----- the end

  predicate Completed(s: State, id: nat) {
    && id in s.past.reports && s.past.reports[id].status.Succeeded? && !s.past.reports[id].snapshotRetained
    && id in s.past.snapshots && !MayExist(s.past.snapshots[id])
  }

  /** A wake-up that settles in success leaves the attempt one observation from its report. */
  lemma Settled(s: State, id: nat, key: Key, a: Attempt, w: Snapshot, reply: Reply, passed: Passed) returns (s': State, o: Attempt)
    requires Stands(s, id, key, a, w) && Possible(a, w, reply) && !a.at.AwaitSlot?
    requires Advance(a, reply, NAME) == Settle(SuccessRecord(a), passed)
    ensures Stands(s', id, key, o, w) && Leads(s, s') && Calm(s, s')
    ensures o.at.AwaitObservation? && o.at.success == SuccessRecord(a) && o.kind == a.kind
  {
    hide Dispatch, Prune, InvalidateNonRunning, Enter, WakeScan, WakeHealth, WakeRestore, RunFollower;
    hide Inv, Possible, Advance, OwnSnapshotName, OwnsMutation, Consistent;
    NameIsOwn();
    StandingFacts(s, id, key, a, w);
    var action := AttemptWakes(id, reply, NAME, true, QUIET, true);
    LeadsStep(s, action);
    s' := Step(s, action);
    o := s'.jobs[id].attempt;
  }

  lemma FinishReports(s: State, kind: MutationKind, key: Key, id: nat, record: UpdateRecord)
    requires OwnsMutation(s.books, kind, key, id) && record.status.Succeeded?
    ensures var s' := FinishMutation(s, kind, key, id, record, true, QUIET, true);
      id in s'.past.reports && s'.past.reports[id] == record && s'.past.snapshots == s.past.snapshots
  {
    hide HealthClaimBlocked;
  }

  lemma Observe(s: State, id: nat, key: Key, o: Attempt, w: Snapshot) returns (s': State)
    requires Stands(s, id, key, o, w) && o.at.AwaitObservation? && o.at.success.status.Succeeded?
    requires !o.at.success.snapshotRetained && !MayExist(w)
    ensures Leads(s, s') && Inv(s', NoHole) && Completed(s', id)
  {
    hide Dispatch, Prune, InvalidateNonRunning, Enter, WakeScan, WakeHealth, WakeRestore, RunFollower;
    hide Inv, OwnSnapshotName, OwnsMutation, Consistent, FinishMutation;
    NameIsOwn();
    StandingFacts(s, id, key, o, w);
    var action := AttemptWakes(id, RemovalPlanned([]), NAME, true, QUIET, true);
    LeadsStep(s, action);
    s' := Step(s, action);
    var published := PublishCleanup(EndJob(s, id), key, Some([]), o.at.begun, true);
    assert OwnsMutation(published.books, o.kind, key, id) by { StillOwned(s, o.kind, key, id, o.at.begun); }
    FinishReports(published, o.kind, key, id, o.at.success);
  }

  lemma StillOwned(s: State, kind: MutationKind, key: Key, id: nat, begun: nat)
    requires OwnsMutation(s.books, kind, key, id)
    ensures OwnsMutation(PublishCleanup(EndJob(s, id), key, Some([]), begun, true).books, kind, key, id)
  {
  }

  /** An attempt that waits for the free mutation section can come to where only its last observation is missing. */
  lemma ComesToSuccess(s: State, id: nat, key: Key, a: Attempt, w: Snapshot) returns (s': State, o: Attempt, w': Snapshot)
    requires Stands(s, id, key, a, w) && a.at.AwaitSlot? && s.updateSlot == {}
    ensures Stands(s', id, key, o, w') && Leads(s, s') && Calm(s, s') && !MayExist(w')
    ensures o.at.AwaitObservation? && o.at.success.status.Succeeded? && !o.at.success.snapshotRetained && o.kind == a.kind
  {
    hide Stands, Leads, ChangedCount, PlanReply, Possible, SnapshotIsAbsent, WellFormedListing, Consistent;
    var reply := SamePlan(s, id, key, a, w);
    StandingFacts(s, id, key, a, w);
    SlotFacts(a, w);
    var a1 := a.(at := AwaitPlan);
    var s1 := Resume(s, id, key, a, w, Granted, a1, Nothing);
    PlanPossible(a1, w, reply);
    if a.skip {
      var a2 := a1.(at := AwaitMutation, mutating := true);
      var s2 := Resume(s1, id, key, a1, w, reply, a2, PlanUnchangedThenMutates);
      LeadsOn(s, s1, s2);
      var s3, a3 := Mutate(s2, id, key, a2, w);
      LeadsOn(s, s2, s3);
      PongPossible(a3, w);
      w' := w;
      s', o := Settled(s3, id, key, a3, w, Pong, GuestAnswered);
      LeadsOn(s, s3, s');
    } else {
      var a2 := a1.(at := AwaitListing, started := true);
      var s2 := Resume(s1, id, key, a1, w, reply, a2, PlanUnchanged);
      LeadsOn(s, s1, s2);
      var s3, a3, w3 := TakeSnapshot(s2, id, key, a2, w);
      LeadsOn(s, s2, s3);
      var s4, a4 := Mutate(s3, id, key, a3, w3);
      LeadsOn(s, s3, s4);
      var s5, a5, w5 := RemoveSnapshot(s4, id, key, a4, w3);
      LeadsOn(s, s4, s5);
      WireFacts(NAME);
      AbsencePossible(a5, w5);
      w' := w5;
      s', o := Settled(s5, id, key, a5, w5, Listed(EMPTY), Nothing);
      LeadsOn(s, s5, s');
    }
  }

  /**
   However the run came to this point, an attempt that waits for the free mutation section and was not told to stop
   can still succeed without leaving a snapshot behind.
   */
  lemma CanStillSucceed(s: State, id: nat, key: Key, a: Attempt, w: Snapshot) returns (s': State)
    requires Stands(s, id, key, a, w) && a.at.AwaitSlot? && s.updateSlot == {}
    ensures Leads(s, s') && Inv(s', NoHole) && Completed(s', id)
  {
    hide Stands, Leads, Inv, Completed, MayExist;
    var s1, o, w1 := ComesToSuccess(s, id, key, a, w);
    s' := Observe(s1, id, key, o, w1);
    LeadsOn(s, s1, s');
  }

  lemma SlotFacts(a: Attempt, w: Snapshot)
    requires Consistent(a, w) && a.at.AwaitSlot?
    ensures !MayExist(w) && Possible(a, w, Granted)
  {
  }

  lemma PlanPossible(a: Attempt, w: Snapshot, reply: Reply)
    requires a.at.AwaitPlan? && PlanReply(reply) == Some(a.plan)
    ensures Possible(a, w, reply) && !reply.Refused?
    ensures Advance(a, reply, NAME) ==
      if a.skip then Proceed(a.(at := AwaitMutation, mutating := true), PlanUnchangedThenMutates)
      else Proceed(a.(at := AwaitListing, started := true), PlanUnchanged)
  {
  }

  lemma PongPossible(a: Attempt, w: Snapshot)
    requires a.at.AwaitPing? && a.skip
    ensures Possible(a, w, Pong) && Advance(a, Pong, NAME) == Settle(SuccessRecord(a), GuestAnswered)
  {
  }

  lemma AbsencePossible(a: Attempt, w: Snapshot)
    requires a.at.AwaitAbsence? && a.name == Some(NAME) && !MayExist(w)
    ensures Possible(a, w, Listed(EMPTY)) && Advance(a, Listed(EMPTY), NAME) == Settle(SuccessRecord(a), Nothing)
  {
    WireFacts(NAME);
  }

  // ----- from a new manager

  const GUEST := Key("pve", 100)
  const PENDING := PendingPackage("p", "amd64", "1", "2", None, None)
  const SEEN := Coordinator(true, {GUEST}, {100})

  /** Nothing but one scan record and the tasks given is there. */
  predicate Quiet(s: State, record: ScanRecord, jobs: Jobs) {
    && s.configured && s.coordinator == SEEN
    && s.books.records == map[GUEST := record] && s.books.updates == map[] && s.books.cleanups == map[]
    && s.books.health == map[] && s.books.reserved == {} && s.books.fenced == {}
    && s.jobs == jobs && s.updateSlot == {} && |s.scanSlots| <= 1
  }

  lemma ScanAccepts() returns (s: State)
    ensures Leads(Fresh(true, SEEN), s) && Inv(s, NoHole)
    ensures Quiet(s, ScanRunning(0), map[0 := ScanJob(GUEST, false, ScanSlot)]) && s.scanSlots == {}
  {
    hide Prune, InvalidateNonRunning, Enter, WakeScan, ApplyTurn, WakeHealth, WakeRestore, RunFollower;
    hide Inv;
    var fresh' := Fresh(true, SEEN);
    FreshKeeps(true, SEEN);
    LeadsStep(fresh', Press(PressScan(GUEST, true)));
    s := Step(fresh', Press(PressScan(GUEST, true)));
  }

  lemma ScanMoves(s: State, position: ScanPosition, reply: ScanReply, next: ScanPosition) returns (s': State)
    requires Inv(s, NoHole) && Quiet(s, ScanRunning(0), map[0 := ScanJob(GUEST, false, position)])
    requires (position.ScanSlot? && reply.SlotGranted? && next == ScanHelper && s.scanSlots == {})
      || (position.ScanHelper? && reply.Scanned? && next == ScanCleanup(reply.packages, |s.past.log|))
    ensures Leads(s, s') && Inv(s', NoHole)
    ensures Quiet(s', ScanRunning(0), map[0 := ScanJob(GUEST, false, next)])
  {
    hide Dispatch, Prune, InvalidateNonRunning, Enter, ApplyTurn, WakeHealth, WakeRestore, RunFollower;
    hide Inv;
    LeadsStep(s, ScanWakes(0, reply, true));
    s' := Step(s, ScanWakes(0, reply, true));
  }

  lemma ScanEnds(s: State, begun: nat) returns (s': State, token: nat)
    requires Inv(s, NoHole) && Quiet(s, ScanRunning(0), map[0 := ScanJob(GUEST, false, ScanCleanup([PENDING], begun))])
    ensures Leads(s, s') && Inv(s', NoHole)
    ensures Quiet(s', ScanSuccess(0, [PENDING], token, false), map[])
  {
    hide Dispatch, Prune, InvalidateNonRunning, Enter, ApplyTurn, WakeHealth, WakeRestore, RunFollower;
    hide Inv;
    LeadsStep(s, ScanWakes(0, CleanupUnavailable, true));
    s' := Step(s, ScanWakes(0, CleanupUnavailable, true));
    token := s.supply;
  }

  lemma UpdateAccepts(s: State, token: nat) returns (s': State, a: Attempt)
    requires Inv(s, NoHole) && Quiet(s, ScanSuccess(0, [PENDING], token, false), map[])
    ensures Leads(s, s') && Stands(s', s.supply, GUEST, a, NO_SNAPSHOT) && a.at.AwaitSlot? && !a.skip
    ensures s'.updateSlot == {}
  {
    hide Prune, InvalidateNonRunning, Enter, WakeScan, ApplyTurn, WakeHealth, WakeRestore, RunFollower;
    hide Inv;
    var action := Press(EasyUpdate(GUEST, None, false, false, false));
    LeadsStep(s, action);
    s' := Step(s, action);
    NothingBusy(s.books);
    NothingBusy(ReviewBooks(s.books, GUEST));
    a := s'.jobs[s.supply].attempt;
  }

  lemma NothingBusy(b: Books)
    requires b.updates == map[] && b.cleanups == map[] && b.health == map[] && b.reserved == {}
    requires forall k | k in b.records :: !b.records[k].ScanRunning?
    ensures !BusyAt(b, 100)
  {
  }

  /** From a new manager a run leads to a successful Update that took its safety snapshot and removed it again. */
  lemma SuccessIsReachable()
    ensures exists actions, id :: Completed(Reached(true, SEEN, actions), id)
  {
    hide Inv, Quiet, Stands, Completed, Run;
    var s1 := ScanAccepts();
    var s2 := ScanMoves(s1, ScanSlot, SlotGranted, ScanHelper);
    LeadsOn(Fresh(true, SEEN), s1, s2);
    var s3 := ScanMoves(s2, ScanHelper, Scanned([PENDING]), ScanCleanup([PENDING], |s2.past.log|));
    LeadsOn(Fresh(true, SEEN), s2, s3);
    var s4, token := ScanEnds(s3, |s2.past.log|);
    LeadsOn(Fresh(true, SEEN), s3, s4);
    var s5, a := UpdateAccepts(s4, token);
    LeadsOn(Fresh(true, SEEN), s4, s5);
    var s6 := CanStillSucceed(s5, s4.supply, GUEST, a, NO_SNAPSHOT);
    LeadsOn(Fresh(true, SEEN), s5, s6);
    var actions :| Run(Fresh(true, SEEN), actions) == s6;
    assert Completed(Reached(true, SEEN, actions), s4.supply);
  }

  // ----- Easy Update with a continuation

  const LEFTOVER := RemovablePackage("q", "amd64", "1")
  const HEALTHY := HealthOutcome(Some(Healthy), None, None)

  /** Nothing is known of any other target, and a continuation of this attempt is there. */
  predicate Awaited(s: State, id: nat, follower: nat) {
    && s.configured && s.coordinator == SEEN
    && s.books.records == map[GUEST := ScanNever] && s.books.updates.Keys == {GUEST} && s.books.cleanups == map[]
    && s.books.reserved == {} && s.books.fenced == {}
    && s.books.updates[GUEST].attempt == id < s.supply
    && follower in s.followers && s.followers[follower].key == GUEST && s.followers[follower].attempt == id
    && !s.followers[follower].parked
  }

  lemma EasyUpdateLeaves(s: State, token: nat)
    requires Quiet(s, ScanSuccess(0, [PENDING], token, false), map[])
    ensures var s' := StartEasyUpdate(s, GUEST, None, false, false, true);
      && s.supply in s'.jobs && s'.jobs[s.supply].MutationJob? && s'.jobs[s.supply].key == GUEST
      && !s'.jobs[s.supply].cancelled && s'.jobs[s.supply].attempt.at.AwaitSlot? && s'.jobs[s.supply].attempt.kind.UpdateKind?
      && s.supply in s'.past.snapshots && s'.past.snapshots[s.supply] == NO_SNAPSHOT
      && s'.updateSlot == {} && Awaited(s', s.supply, s.supply + 1) && s'.books.health == map[]
  {
    hide BusyAt, PlanTuple, CancelJobs, AcceptUpdate, UpdateBooks;
    NothingBusy(s.books);
    NothingBusy(ReviewBooks(s.books, GUEST));
    AcceptsConfirmed(ConfirmReview(s, GUEST, token), token);
    BooksConfirmed(ConfirmReview(s, GUEST, token).books, token, s.supply);
  }

  lemma AcceptsConfirmed(s: State, token: nat)
    requires s.books.records == map[GUEST := ScanSuccess(0, [PENDING], token, true)]
    ensures var s' := AcceptUpdate(s, GUEST, false);
      && s.supply in s'.jobs && s'.jobs[s.supply] == MutationJob(GUEST, false, s'.jobs[s.supply].attempt)
      && s'.jobs[s.supply].attempt.at.AwaitSlot? && s'.jobs[s.supply].attempt.kind.UpdateKind?
      && s.supply in s'.past.snapshots && s'.past.snapshots[s.supply] == NO_SNAPSHOT
      && s'.supply == s.supply + 1 && SameSections(s, s')
      && s'.books == UpdateBooks(s.books, GUEST, s.supply, false)
  {
    hide CancelJobs, PlanTuple, UpdateBooks;
  }

  lemma BooksConfirmed(b: Books, token: nat, id: nat)
    requires b.records == map[GUEST := ScanSuccess(0, [PENDING], token, true)]
    requires b.updates == map[] && b.cleanups == map[] && b.health == map[] && b.reserved == {} && b.fenced == {}
    ensures var b' := UpdateBooks(b, GUEST, id, false);
      && b'.records == map[GUEST := ScanNever] && b'.updates == map[GUEST := RunningRecord(id, false)]
      && b'.cleanups == map[] && b'.health == map[] && b'.reserved == {} && b'.fenced == {}
  {
  }

  lemma EasyUpdateAccepts(s: State, token: nat) returns (s': State, a: Attempt)
    requires Inv(s, NoHole) && Quiet(s, ScanSuccess(0, [PENDING], token, false), map[])
    ensures Leads(s, s') && Stands(s', s.supply, GUEST, a, NO_SNAPSHOT) && a.at.AwaitSlot? && a.kind.UpdateKind?
    ensures s'.updateSlot == {} && Awaited(s', s.supply, s.supply + 1) && s'.books.health == map[]
  {
    hide Inv, Leads, Awaited, Quiet, StartEasyUpdate;
    var action := Press(EasyUpdate(GUEST, None, false, false, true));
    LeadsStep(s, action);
    s' := Step(s, action);
    EasyUpdateLeaves(s, token);
    a := s'.jobs[s.supply].attempt;
  }

  /** What finishing a success makes of the records when no listener calls anything. */
  lemma QuietFinish(s: State, key: Key, id: nat, record: UpdateRecord)
    requires OwnsMutation(s.books, UpdateKind, key, id) && record.status.Succeeded? && !HealthClaimBlocked(s.books, key.vmid)
    ensures var s' := FinishMutation(s, UpdateKind, key, id, record, true, QUIET, true);
      && s'.books == s.books.(updates := s.books.updates[key := record],
                             health := s.books.health[key := HealthRunning(s.supply, AfterUpdate)])
      && s'.jobs == s.jobs[s.supply := HealthJob(key, false, AfterUpdate)] && s'.supply == s.supply + 1
      && s'.followers == s.followers && s'.configured == s.configured && s'.coordinator == s.coordinator
  {
    hide HealthClaimBlocked;
  }

  /** The cleanup plan is there for the continuation, and only the Health check after the Update still runs. */
  predicate Checking(s: State, id: nat, follower: nat, health: nat) {
    && Awaited(s, id, follower) && s.books.updates[GUEST].status.Succeeded?
    && GUEST in s.books.evidence && s.books.evidence[GUEST].candidates == [LEFTOVER] && id <= s.books.evidence[GUEST].observedAt
    && s.books.health == map[GUEST := HealthRunning(health, AfterUpdate)]
    && health in s.jobs && s.jobs[health] == HealthJob(GUEST, false, AfterUpdate)
  }

  lemma ObservesLeftover(s: State, id: nat, o: Attempt, w: Snapshot, follower: nat) returns (s': State, health: nat)
    requires Stands(s, id, GUEST, o, w) && o.at.AwaitObservation? && o.at.success.status.Succeeded? && o.kind.UpdateKind?
    requires o.at.success.attempt == id && Awaited(s, id, follower) && s.books.health == map[]
    ensures Leads(s, s') && Inv(s', NoHole) && Checking(s', id, follower, health)
  {
    hide Inv, Leads, OwnSnapshotName, Consistent, FinishMutation, OwnsMutation, Checking, Awaited, PublishCleanup, EndJob;
    NameIsOwn();
    StandingFacts(s, id, GUEST, o, w);
    var action := AttemptWakes(id, RemovalPlanned([LEFTOVER]), NAME, true, QUIET, true);
    LeadsStep(s, action);
    s' := Step(s, action);
    health := s.supply + 1;
    FinishesWithLeftover(s, id, follower, o);
  }

  lemma FinishesWithLeftover(s: State, id: nat, follower: nat, o: Attempt)
    requires OwnsMutation(s.books, UpdateKind, GUEST, id) && o.at.AwaitObservation?
    requires o.at.success.status.Succeeded? && o.at.success.attempt == id && Awaited(s, id, follower) && s.books.health == map[]
    ensures var published := PublishCleanup(EndJob(s, id), GUEST, Some([LEFTOVER]), o.at.begun, true);
      Checking(FinishMutation(published, UpdateKind, GUEST, id, o.at.success, true, QUIET, true), id, follower, s.supply + 1)
  {
    hide FinishMutation, OwnsMutation;
    var published := PublishCleanup(EndJob(s, id), GUEST, Some([LEFTOVER]), o.at.begun, true);
    StillOwnedWith(s, id, [LEFTOVER], o.at.begun);
    assert !HealthClaimBlocked(published.books, 100);
    QuietFinish(published, GUEST, id, o.at.success);
  }

  lemma StillOwnedWith(s: State, id: nat, candidates: seq<RemovablePackage>, begun: nat)
    requires OwnsMutation(s.books, UpdateKind, GUEST, id)
    ensures OwnsMutation(PublishCleanup(EndJob(s, id), GUEST, Some(candidates), begun, true).books, UpdateKind, GUEST, id)
  {
  }

  lemma HealthEnds(s: State, id: nat, follower: nat, health: nat) returns (s': State)
    requires Inv(s, NoHole) && Checking(s, id, follower, health)
    ensures Leads(s, s') && Inv(s', NoHole) && follower in s'.followers && MayFollow(s', s'.followers[follower])
    ensures !s'.followers[follower].parked
  {
    hide Dispatch, Prune, InvalidateNonRunning, Enter, WakeScan, ApplyTurn, WakeRestore, RunFollower;
    hide Inv;
    LeadsStep(s, HealthWakes(health, Checked(HEALTHY)));
    s' := Step(s, HealthWakes(health, Checked(HEALTHY)));
    forall o: Owner, k: Key ensures !(Busy(s'.books, o, k) && k.vmid == 100 && k != GUEST) {
    }
  }

  lemma FollowerStarts(s: State, follower: nat) returns (s': State)
    requires Inv(s, NoHole) && follower in s.followers && MayFollow(s, s.followers[follower]) && !s.followers[follower].parked
    ensures Leads(s, s') && |s'.past.log| > 0
    ensures s'.past.log[|s'.past.log| - 1] == AutoremoveFollowed(follower, s.followers[follower].attempt, s.supply)
  {
    hide Inv, RunFollower, BusyElsewhere, OthersSame, AutoremoveStarted;
    LeadsStep(s, FollowerWakes(follower));
    s' := Step(s, FollowerWakes(follower));
    FollowerExactly(s, follower);
  }

  /** From a new manager one press of Easy Update leads through the Update and its Health check to the Autoremove. */
  lemma FollowingIsReachable()
    ensures exists actions, follower, update, cleanup ::
      AutoremoveFollowed(follower, update, cleanup) in Reached(true, SEEN, actions).past.log
  {
    hide Inv, Quiet, Stands, Run, Awaited, Checking, MayFollow;
    var s1 := ScanAccepts();
    var s2 := ScanMoves(s1, ScanSlot, SlotGranted, ScanHelper);
    LeadsOn(Fresh(true, SEEN), s1, s2);
    var s3 := ScanMoves(s2, ScanHelper, Scanned([PENDING]), ScanCleanup([PENDING], |s2.past.log|));
    LeadsOn(Fresh(true, SEEN), s2, s3);
    var s4, token := ScanEnds(s3, |s2.past.log|);
    LeadsOn(Fresh(true, SEEN), s3, s4);
    var id, follower := s4.supply, s4.supply + 1;
    var s5, a := EasyUpdateAccepts(s4, token);
    LeadsOn(Fresh(true, SEEN), s4, s5);
    var s6, o, w := ComesToSuccess(s5, id, GUEST, a, NO_SNAPSHOT);
    LeadsOn(Fresh(true, SEEN), s5, s6);
    StillAwaited(s5, s6, id, follower);
    SuccessIsItsOwn(s6, id, o, w);
    var s7, health := ObservesLeftover(s6, id, o, w, follower);
    LeadsOn(Fresh(true, SEEN), s6, s7);
    var s8 := HealthEnds(s7, id, follower, health);
    LeadsOn(Fresh(true, SEEN), s7, s8);
    var s9 := FollowerStarts(s8, follower);
    LeadsOn(Fresh(true, SEEN), s8, s9);
    var actions :| Run(Fresh(true, SEEN), actions) == s9;
    assert AutoremoveFollowed(follower, s8.followers[follower].attempt, s8.supply) in Reached(true, SEEN, actions).past.log;
  }

  lemma StillAwaited(s: State, s': State, id: nat, follower: nat)
    requires Awaited(s, id, follower) && Calm(s, s')
    ensures Awaited(s', id, follower)
  {
  }

  lemma SuccessIsItsOwn(s: State, id: nat, o: Attempt, w: Snapshot)
    requires Stands(s, id, GUEST, o, w) && o.at.AwaitObservation?
    ensures o.at.success.attempt == id
  {
    hide Inv, OwnsMutation, OwnSnapshotName;
    StandingFacts(s, id, GUEST, o, w);
  }
}
