/**
 The package manager as the object it is: the dictionaries are fields that its callbacks update in place. Every
 method is proved against the function of the same name, and the invariant of the state machine is the class
 invariant.
 */
module PackageManagers {
  import opened Models
  import opened NativeSnapshots
  import opened Attempts
  import opened History
  import opened ManagerState
  import opened ManagerMachine
  import opened ManagerInvariant
  import Spec = ManagerState
  import Machine = ManagerMachine
  import opened ManagerTheorems
  import opened LiveRecords
  import opened Starts
  import opened Forgetting
  import opened ClientTheorems
  import opened Followers

  class PackageManager {
    const configured: bool
    var coordinator: Coordinator
    var supply: nat
    var version: nat
    var books: Books
    var tasks: Tasks
    var jobs: Jobs
    var scanSlots: set<nat>
    var updateSlot: set<nat>
    var followers: map<nat, Follower>
    var past: Past

    function View(): State
      reads this
    {
      State(configured, coordinator, supply, version, books, tasks, jobs, scanSlots, updateSlot, followers, past)
    }

    ghost predicate Valid()
      reads this
    {
      Inv(View(), NoHole)
    }

    constructor (configured: bool, coordinator: Coordinator)
      ensures View() == Fresh(configured, coordinator) && Valid()
    {
      this.configured, this.coordinator, supply, version := configured, coordinator, 0, 0;
      books, tasks := EMPTY_BOOKS, Tasks(map[], map[], map[], map[]);
      jobs, scanSlots, updateSlot, followers := map[], {}, {}, map[];
      past := Past([], map[], map[], map[], map[]);
      new;
      FreshKeeps(configured, coordinator);
    }

    // ----- who is busy

    method RestoreOwns(vmid: int) returns (owns: bool)
      ensures owns == ReservedAt(books.reserved, vmid)
    {
      var rest := books.reserved;
      while rest != {}
        invariant rest <= books.reserved
        invariant forall k | k in books.reserved && k !in rest :: k.vmid != vmid
        decreases rest
      {
        var key :| key in rest;
        if key.vmid == vmid {
          return true;
        }
        rest := rest - {key};
      }
      return false;
    }

    method ScanRunningOn(vmid: int) returns (running: bool)
      ensures running == ScanRunningAt(books.records, vmid)
    {
      var rest := books.records.Keys;
      while rest != {}
        invariant rest <= books.records.Keys
        invariant forall k | k in books.records && k !in rest :: k.vmid != vmid || !books.records[k].ScanRunning?
        decreases rest
      {
        var key :| key in rest;
        if key.vmid == vmid && books.records[key].ScanRunning? {
          return true;
        }
        rest := rest - {key};
      }
      return false;
    }

    method MutationRunningOn(kind: MutationKind, vmid: int) returns (running: bool)
      ensures running == MutationRunningAt(MutationRecords(books, kind), vmid)
    {
      var owned := if kind.UpdateKind? then books.updates else books.cleanups;
      var rest := owned.Keys;
      while rest != {}
        invariant rest <= owned.Keys
        invariant forall k | k in owned && k !in rest :: k.vmid != vmid || !owned[k].status.Running?
        decreases rest
      {
        var key :| key in rest;
        if key.vmid == vmid && owned[key].status.Running? {
          return true;
        }
        rest := rest - {key};
      }
      return false;
    }

    method HealthRunningOn(vmid: int) returns (running: bool)
      ensures running == HealthRunningAt(books.health, vmid)
    {
      var rest := books.health.Keys;
      while rest != {}
        invariant rest <= books.health.Keys
        invariant forall k | k in books.health && k !in rest :: k.vmid != vmid || !books.health[k].HealthRunning?
        decreases rest
      {
        var key :| key in rest;
        if key.vmid == vmid && books.health[key].HealthRunning? {
          return true;
        }
        rest := rest - {key};
      }
      return false;
    }

    method PackageWork(vmid: int) returns (running: bool)
      ensures running == PackageWorkAt(books, vmid)
    {
      running := ScanRunningOn(vmid);
      if !running {
        running := MutationRunningOn(UpdateKind, vmid);
      }
      if !running {
        running := MutationRunningOn(CleanupKind, vmid);
      }
    }

    method Busy(vmid: int) returns (busy: bool)
      ensures busy == BusyAt(books, vmid)
    {
      busy := RestoreOwns(vmid);
      if !busy {
        busy := PackageWork(vmid);
      }
      if !busy {
        busy := HealthRunningOn(vmid);
      }
    }

    // ----- small shared steps

    method StateChanged()
      modifies this`version
      ensures version == old(version) + 1
    {
      version := version + 1;
    }

    /** The next identity: the moment, and the record object, of one attempt. */
    method Draw() returns (id: nat)
      modifies this`supply
      ensures id == old(supply) && supply == old(supply) + 1
    {
      id := supply;
      supply := supply + 1;
    }

    method Cancel(ids: set<nat>)
      modifies this`jobs
      ensures jobs == CancelJobs(old(jobs), ids)
    {
      jobs := CancelJobs(jobs, ids);
    }

    method InvalidateCleanup(key: Key)
      modifies this`books, this`version
      ensures books == old(books).(evidence := old(books).evidence - {key})
      ensures version == old(version) + One(key in old(books).evidence)
    {
      var removed := key in books.evidence;
      books := books.(evidence := books.evidence - {key});
      if removed {
        StateChanged();
      }
    }

    method InvalidateHealth(key: Key) returns (had: bool)
      modifies this`books, this`tasks, this`jobs
      ensures books == old(books).(health := old(books).health - {key})
      ensures tasks == old(tasks).(health := old(tasks).health - {key})
      ensures jobs == CancelJobs(old(jobs), TaskOf(old(tasks).health, key))
      ensures had <==> key in old(books).health || key in old(tasks).health
    {
      had := key in books.health || key in tasks.health;
      books := books.(health := books.health - {key});
      Cancel(TaskOf(tasks.health, key));
      tasks := tasks.(health := tasks.health - {key});
    }

    // ----- Scan

    method StartScan(key: Key, targetIsRunning: bool) returns (refusal: Option<ScanFailure>)
      modifies this
      ensures refusal == ScanRefusal(old(View()), key, targetIsRunning)
      ensures View() == Spec.StartScan(old(View()), key, targetIsRunning)
    {
      hide BusyAt, Spec.AcceptScan;
      if !configured {
        return Some(ExecutionFailed);
      }
      if !targetIsRunning {
        return Some(ScanGuestUnavailable);
      }
      var busy := Busy(key.vmid);
      if busy {
        return Some(ScanManagerBusy);
      }
      AcceptScan(key);
      return None;
    }

    method AcceptScan(key: Key)
      modifies this
      ensures View() == Spec.AcceptScan(old(View()), key)
    {
      books := books.(fenced := books.fenced - {key});
      var id := Draw();
      books := books.(viewed := books.viewed - {key});
      InvalidateCleanup(key);
      books := books.(records := books.records[key := ScanRunning(id)]);
      StateChanged();
      jobs := jobs[id := ScanJob(key, false, ScanSlot)];
      tasks := tasks.(scans := tasks.scans[key := id]);
      past := Append(past, ScanAccepted(id, key));
    }

    method FinishScan(key: Key, id: nat, outcome: ScanRecord)
      modifies this
      ensures View() == Spec.FinishScan(old(View()), key, id, outcome)
    {
      if OwnsScan(books, key, id) {
        tasks := tasks.(scans := tasks.scans - {key});
        books := books.(records := books.records[key := outcome]);
        StateChanged();
      }
    }

    method PublishCleanup(key: Key, observed: Option<seq<RemovablePackage>>, begun: nat, presented: bool)
      modifies this
      ensures View() == Spec.PublishCleanup(old(View()), key, observed, begun, presented)
    {
      var candidates := if key in books.fenced then None else observed;
      books := books.(evidence := books.evidence - {key});
      if candidates.Some? && (candidates.value == [] || presented) {
        var now := Draw();
        books := books.(evidence := books.evidence[key := CleanupEvidence(candidates.value, now, begun)]);
        StateChanged();
      }
    }

    // ----- Review

    method ConfirmReview(key: Key, token: nat) returns (confirmed: bool)
      modifies this
      ensures confirmed == Reviewable(old(books), key, token)
      ensures View() == Spec.ConfirmReview(old(View()), key, token)
    {
      if !Reviewable(books, key, token) {
        return false;
      }
      books := books.(records := books.records[key := books.records[key].(reviewed := true)]);
      StateChanged();
      books := books.(viewed := books.viewed - {key});
      past := Append(past, ReviewConfirmed(key, token));
      return true;
    }

    method MarkViewed(key: Key, token: nat) returns (marked: bool)
      modifies this
      ensures marked == Reviewable(old(books), key, token)
      ensures View() == Spec.MarkViewed(old(View()), key, token)
    {
      if !Reviewable(books, key, token) {
        return false;
      }
      books := books.(viewed := books.viewed[key := token]);
      StateChanged();
      return true;
    }

    method ConfirmViewed(key: Key) returns (confirmed: bool)
      modifies this
      ensures confirmed <==> key in old(books).viewed && Reviewable(old(books), key, old(books).viewed[key])
      ensures View() == Spec.ConfirmViewed(old(View()), key)
    {
      if key !in books.viewed {
        return false;
      }
      confirmed := ConfirmReview(key, books.viewed[key]);
    }

    // ----- Update and Autoremove

    method Refusal(vmid: int, targetIsRunning: bool, permitted: bool) returns (refusal: Option<UpdateOutcome>)
      ensures refusal == MutationRefusal(View(), vmid, targetIsRunning, permitted)
    {
      if !configured {
        return Some(HelperOutdated);
      }
      if !targetIsRunning {
        return Some(GuestUnavailable);
      }
      if !permitted {
        return Some(SnapshotFailed);
      }
      var busy := Busy(vmid);
      return if busy then Some(PackageManagerBusy) else None;
    }

    method AcceptUpdate(key: Key, skip: bool)
      requires ReviewedPlan(books, key)
      modifies this
      ensures View() == Spec.AcceptUpdate(old(View()), key, skip)
    {
      hide CancelJobs;
      var reviewed := books.records[key];
      var id := Draw();
      books := books.(viewed := books.viewed - {key});
      InvalidateCleanup(key);
      var _ := InvalidateHealth(key);
      books := books.(records := books.records[key := ScanNever]);
      StateChanged();
      books := books.(updates := books.updates[key := RunningRecord(id, skip)]);
      StateChanged();
      jobs := jobs[id := MutationJob(key, false, Begin(UpdateKind, id, skip, Upgrade(PlanTuple(reviewed.packages))))];
      tasks := tasks.(updates := tasks.updates[key := id]);
      past := Admit(past, id, UpdateAccepted(id, key, reviewed.token, reviewed.packages, skip));
    }

    method StartUpdate(key: Key, targetIsRunning: bool, permission: bool, skip: bool)
      returns (refusal: Option<UpdateOutcome>)
      modifies this
      ensures refusal == UpdateRefusal(old(View()), key, targetIsRunning, permission, skip)
      ensures View() == Spec.StartUpdate(old(View()), key, targetIsRunning, permission, skip)
      ensures refusal.None? <==>
        configured && targetIsRunning && (skip || permission) && GuestIdle(old(books), key.vmid) && Confirmed(old(books), key)
      ensures if refusal.None? then UpdateStarted(old(View()), View(), key, skip) && OthersSame(old(View()), View(), key)
              else View() == old(View())
    {
      hide BusyAt, ReviewedPlan, Spec.AcceptUpdate, GuestIdle, Confirmed, UpdateStarted, OthersSame;
      UpdateStartsExactly(View(), key, targetIsRunning, permission, skip);
      refusal := Refusal(key.vmid, targetIsRunning, skip || permission);
      if refusal.Some? {
        return;
      }
      if !ReviewedPlan(books, key) {
        return Some(PlanFailed);
      }
      AcceptUpdate(key, skip);
    }

    method StartAutoremove(key: Key, targetIsRunning: bool, permission: bool) returns (refusal: Option<UpdateOutcome>)
      modifies this
      ensures refusal == AutoremoveRefusal(old(View()), key, targetIsRunning, permission)
      ensures View() == Spec.StartAutoremove(old(View()), key, targetIsRunning, permission)
      ensures refusal.None? <==>
        configured && targetIsRunning && permission && GuestIdle(old(books), key.vmid) && Displayed(old(books), key)
      ensures if refusal.None? then AutoremoveStarted(old(View()), View(), key) && OthersSame(old(View()), View(), key)
              else View() == old(View())
    {
      hide BusyAt, ShownPlan, Spec.AcceptAutoremove, GuestIdle, Displayed, AutoremoveStarted, OthersSame;
      AutoremoveStartsExactly(View(), key, targetIsRunning, permission);
      refusal := Refusal(key.vmid, targetIsRunning, permission);
      if refusal.Some? {
        return;
      }
      if !ShownPlan(books, key) {
        return Some(PlanFailed);
      }
      AcceptAutoremove(key);
    }

    method AcceptAutoremove(key: Key)
      requires ShownPlan(books, key)
      modifies this
      ensures View() == Spec.AcceptAutoremove(old(View()), key)
    {
      hide CancelJobs;
      var shown := books.evidence[key];
      var id := Draw();
      InvalidateCleanup(key);
      var _ := InvalidateHealth(key);
      books := books.(cleanups := books.cleanups[key := RunningRecord(id, false)]);
      StateChanged();
      jobs := jobs[id := MutationJob(key, false, Begin(CleanupKind, id, false, Removal(CleanupTuple(shown.candidates))))];
      tasks := tasks.(cleanups := tasks.cleanups[key := id]);
      past := Admit(past, id, CleanupAccepted(id, key, shown));
    }

    method SetMutationRecord(kind: MutationKind, key: Key, record: UpdateRecord)
      modifies this
      ensures View() == Spec.SetMutationRecord(old(View()), kind, key, record)
    {
      if kind.UpdateKind? {
        books := books.(updates := books.updates[key := record]);
      } else {
        books := books.(cleanups := books.cleanups[key := record]);
      }
      StateChanged();
    }

    method ForgetTask(kind: MutationKind, key: Key)
      modifies this`tasks
      ensures View() == old(View()).(tasks := Spec.ForgetTask(old(View()).tasks, kind, key))
    {
      if kind.UpdateKind? {
        tasks := tasks.(updates := tasks.updates - {key});
      } else {
        tasks := tasks.(cleanups := tasks.cleanups - {key});
      }
    }

    method Report(id: nat, record: UpdateRecord)
      modifies this`past
      ensures View() == Spec.Report(old(View()), id, record)
    {
      past := ReportedPast(past, id, record);
    }

    /** Publish a terminal result; `l` is what listeners call at each notification of this path. */
    method FinishMutation(kind: MutationKind, key: Key, id: nat, record: UpdateRecord, claimHealth: bool, l: Listeners, created: bool)
      modifies this
      ensures View() == Machine.FinishMutation(old(View()), kind, key, id, record, claimHealth, l, created)
    {
      if !OwnsMutation(books, kind, key, id) {
        return;
      }
      var health := supply;
      ForgetTask(kind, key);
      var claim := false;
      if claimHealth && record.status.Succeeded? {
        var blocked := HealthClaimBlocked(key.vmid);
        claim := !blocked;
        if claim {
          ClaimHealth(key, SourceOf(kind));
          NotifyListeners(l.claimed);
        }
      }
      SetMutationRecord(kind, key, record);
      NotifyListeners(l.published);
      Report(id, record);
      NotifyListeners(l.reported);
      if claim {
        LaunchHealth(key, health, SourceOf(kind), created);
      }
    }

    // ----- Health

    method HealthClaimBlocked(vmid: int) returns (blocked: bool)
      ensures blocked == Spec.HealthClaimBlocked(books, vmid)
    {
      blocked := RestoreOwns(vmid);
      if !blocked {
        blocked := ScanRunningOn(vmid);
      }
      if !blocked {
        blocked := HealthRunningOn(vmid);
      }
    }

    method ClaimHealth(key: Key, source: HealthSource)
      modifies this
      ensures View() == Spec.ClaimHealth(old(View()), key, source)
    {
      var id := Draw();
      books := books.(health := books.health[key := HealthRunning(id, source)]);
      StateChanged();
      past := Append(past, HealthAccepted(id, key));
    }

    method LaunchHealth(key: Key, id: nat, source: HealthSource, created: bool)
      modifies this
      ensures View() == Spec.LaunchHealth(old(View()), key, id, source, created)
    {
      if !OwnsHealth(books, key, id) {
        return;
      }
      if !created {
        books := books.(health := books.health - {key});
        StateChanged();
        return;
      }
      jobs := jobs[id := HealthJob(key, false, source)];
      tasks := tasks.(health := tasks.health[key := id]);
    }

    method StartHealth(key: Key, targetIsRunning: bool, created: bool) returns (refusal: Option<ScanFailure>)
      modifies this
      ensures refusal.None? ==> created && ScanRefusal(old(View()), key, targetIsRunning).None?
      ensures View() == Spec.StartHealth(old(View()), key, targetIsRunning, created)
    {
      if !configured {
        return Some(ExecutionFailed);
      }
      if !targetIsRunning {
        return Some(ScanGuestUnavailable);
      }
      var busy := Busy(key.vmid);
      if busy {
        return Some(ScanManagerBusy);
      }
      var id := supply;
      ClaimHealth(key, FromButton);
      LaunchHealth(key, id, FromButton, created);
      return if created then None else Some(ExecutionFailed);
    }

    method FinishHealth(key: Key, id: nat, outcome: HealthOutcome)
      modifies this
      ensures View() == Spec.FinishHealth(old(View()), key, id, outcome)
    {
      if !OwnsHealth(books, key, id) {
        return;
      }
      tasks := tasks.(health := tasks.health - {key});
      var now := Draw();
      books := books.(health := books.health[key := HealthCompleted(now, books.health[key].source, outcome)]);
      StateChanged();
    }

    // ----- Restore

    method BeginRestore(key: Key) returns (refused: bool)
      modifies this
      ensures refused == RestoreBlocked(old(books), key.vmid)
      ensures View() == Spec.BeginRestore(old(View()), key)
    {
      refused := RestoreOwns(key.vmid);
      if !refused {
        refused := PackageWork(key.vmid);
      }
      if !refused {
        books := books.(reserved := books.reserved + {key});
        StateChanged();
      }
    }

    method EndRestore(key: Key)
      modifies this
      ensures View() == Spec.EndRestore(old(View()), key)
    {
      if key in books.reserved {
        books := books.(reserved := books.reserved - {key});
        StateChanged();
      }
    }

    method PressRestore(key: Key, created: bool) returns (refused: bool)
      modifies this
      ensures refused == RestoreBlocked(old(books), key.vmid)
      ensures View() == Spec.PressRestore(old(View()), key, created)
    {
      refused := BeginRestore(key);
      if refused {
        return;
      }
      if !created {
        EndRestore(key);
        return;
      }
      var id := Draw();
      jobs := jobs[id := RestoreJob(key, false, Validating)];
      past := past.(log := past.log + [RestoreAccepted(id, key)], owners := past.owners[key := id]);
    }

    method InvalidateRestoreTarget(key: Key)
      modifies this
      ensures View() == Spec.InvalidateRestoreTarget(old(View()), key)
    {
      books := books.(fenced := books.fenced + {key});
      books := books.(records := books.records - {key});
      books := books.(viewed := books.viewed - {key});
      books := books.(evidence := books.evidence - {key});
      var _ := InvalidateHealth(key);
      StateChanged();
      past := Append(past, TruthDiscarded(key));
    }

    // ----- Easy Update

    method StartEasyUpdate(key: Key, expected: Option<nat>, skip: bool, snapshotCreateRunning: bool, follow: bool)
      modifies this
      ensures View() == Machine.StartEasyUpdate(old(View()), key, expected, skip, snapshotCreateRunning, follow)
    {
      hide GuestIdle, Confirmed, UpdateStarted, OthersSame, CancelJobs, PlanTuple, UpdateBooks;
      if !EasyUpdatePrechecks(View(), key, expected, skip, snapshotCreateRunning) {
        return;
      }
      var permission := key.vmid in coordinator.snapshotGranted;
      var _ := ConfirmReview(key, books.records[key].token);
      var attempt := supply;
      var refusal := StartUpdate(key, true, permission, skip);
      if refusal.None? && follow {
        var id := Draw();
        followers := followers[id := Follower(key, attempt, false, version)];
      }
    }

    /** One turn of a continuation: decide, then park, leave, or start its Autoremove and leave. */
    method RunFollower(id: nat)
      requires id in followers
      modifies this
      ensures View() == Machine.RunFollower(old(View()), id)
      ensures var s, f := old(View()), old(followers)[id];
        if MustWait(s, f) then View() == s.(followers := s.followers[id := f.(parked := true, seen := s.version)])
        else if MayFollow(s, f) then Followed(s, View(), id)
        else View() == s.(followers := s.followers - {id})
    {
      hide MustWait, MayFollow, Followed, OthersSame, Decide;
      FollowerExactly(View(), id);
      var f := followers[id];
      var decision := Decide(coordinator, books, f);
      if decision.None? {
        followers := followers[id := f.(parked := true, seen := version)];
        return;
      }
      followers := followers - {id};
      if decision.value {
        var attempt := supply;
        var refusal := StartAutoremove(f.key, true, true);
        if refusal.None? {
          past := Append(past, AutoremoveFollowed(id, f.attempt, attempt));
        }
      }
    }

    // ----- calls from users and listeners

    method Dispatch(call: Call)
      modifies this
      ensures View() == Machine.Dispatch(old(View()), call)
    {
      match call
      case PressScan(key, targetIsRunning) => var _ := StartScan(key, targetIsRunning);
      case PressUpdate(key, targetIsRunning, permission) => var _ := StartUpdate(key, targetIsRunning, permission, false);
      case PressAutoremove(key, targetIsRunning, permission) => var _ := StartAutoremove(key, targetIsRunning, permission);
      case PressHealth(key, targetIsRunning, created) => var _ := StartHealth(key, targetIsRunning, created);
      case PressReview(key, token) => var _ := MarkViewed(key, token);
      case PressApprove(key) => var _ := ConfirmViewed(key);
      case PressRestoreButton(key, created) => var _ := PressRestore(key, created);
      case EasyUpdate(key, expected, skip, snapshotCreateRunning, follow) =>
        StartEasyUpdate(key, expected, skip, snapshotCreateRunning, follow);
    }

    method NotifyListeners(calls: seq<Call>)
      modifies this
      ensures View() == Listen(old(View()), calls)
    {
      for i := 0 to |calls|
        invariant Listen(View(), calls[i..]) == Listen(old(View()), calls)
      {
        Dispatch(calls[i]);
        assert calls[i..][1..] == calls[i + 1..];
      }
    }

    // ----- targets that vanished or stopped

    /** Take one target out of every dictionary and stop its tasks. */
    method PruneTarget(key: Key)
      modifies this
      ensures View() == Pruned(old(View()), {key})
    {
      hide CancelJobs;
      ghost var t, j := tasks, jobs;
      books := books.(records := books.records - {key});
      books := books.(updates := books.updates - {key});
      books := books.(evidence := books.evidence - {key});
      books := books.(fenced := books.fenced - {key});
      books := books.(cleanups := books.cleanups - {key});
      books := books.(viewed := books.viewed - {key});
      var _ := InvalidateHealth(key);
      Cancel(TaskOf(tasks.scans, key));
      tasks := tasks.(scans := tasks.scans - {key});
      Cancel(TaskOf(tasks.updates, key));
      tasks := tasks.(updates := tasks.updates - {key});
      Cancel(TaskOf(tasks.cleanups, key));
      tasks := tasks.(cleanups := tasks.cleanups - {key});
      OneTargetsTasks(j, t, key);
    }

    /** Take these targets out, one after the other. */
    method PruneEach(stale: set<Key>)
      modifies this
      ensures View() == Pruned(old(View()), stale)
    {
      hide CancelJobs, PruneBooks, PruneTasks, PrunedIds;
      ghost var was := View();
      var rest := stale;
      NothingPruned(was);
      assert stale - rest == {};
      while rest != {}
        invariant rest <= stale
        invariant View() == Pruned(was, stale - rest)
        decreases rest
      {
        var key :| key in rest;
        PruneTarget(key);
        PrunedFurther(was, stale - rest, key);
        assert stale - (rest - {key}) == stale - rest + {key};
        rest := rest - {key};
      }
      assert stale - rest == stale;
    }

    method PruneMissing(current: set<Key>)
      modifies this
      ensures View() == Prune(old(View()), current)
      ensures old(Valid()) ==> PrunedBooks(old(books), books, current)
    {
      hide Inv, PruneTargets, CancelJobs, PruneBooks, PruneTasks, PrunedIds, PrunedBooks;
      if Valid() {
        PrunesBooks(View(), current);
      }
      var stale := PruneTargets(books, current);
      PruneEach(stale);
      if stale != {} {
        StateChanged();
      }
      past := Append(past, TargetsPruned(current));
    }

    /** Fence one stopped target and drop what was known about it while it ran. */
    method StopTarget(key: Key) returns (had: bool)
      modifies this
      ensures View() == Stopped(old(View()), {key})
      ensures had <==> HadEvidence(old(books), old(tasks), key)
    {
      hide CancelJobs;
      ghost var t, j := tasks, jobs;
      books := books.(fenced := books.fenced + {key});
      had := key in books.records || key in books.viewed || key in books.evidence || key in tasks.scans;
      books := books.(records := books.records - {key});
      books := books.(viewed := books.viewed - {key});
      books := books.(evidence := books.evidence - {key});
      var health := InvalidateHealth(key);
      had := had || health;
      Cancel(TaskOf(tasks.scans, key));
      tasks := tasks.(scans := tasks.scans - {key});
      OneStoppedTasks(j, t, key);
    }

    method ObserveRunning(running: set<Key>)
      modifies this
      ensures View() == InvalidateNonRunning(old(View()), running)
    {
      hide StoppedTargets, HadEvidence, CancelJobs, StopBooks, TasksOf;
      ghost var was := View();
      var stale := StoppedTargets(books, tasks, running);
      var rest, changed := stale, false;
      NothingStopped(was);
      assert stale - rest == {};
      while rest != {}
        invariant rest <= stale
        invariant View() == Stopped(was, stale - rest)
        invariant changed <==> exists k | k in stale - rest :: HadEvidence(was.books, was.tasks, k)
        decreases rest
      {
        var key :| key in rest;
        StillHad(was, stale - rest, key);
        var had := StopTarget(key);
        StoppedFurther(was, stale - rest, key);
        assert stale - (rest - {key}) == stale - rest + {key};
        changed := changed || had;
        rest := rest - {key};
      }
      assert stale - rest == stale;
      if changed {
        StateChanged();
      }
      past := Append(past, TargetsObserved(running));
    }

    // ----- wake-ups of the background tasks

    method EndTask(id: nat)
      modifies this`jobs, this`scanSlots, this`updateSlot
      ensures View() == EndJob(old(View()), id)
    {
      jobs := jobs - {id};
      scanSlots := scanSlots - {id};
      updateSlot := updateSlot - {id};
    }

    /** The plan of a successful scan, preceded by what was observed about the cleanup plan. */
    method PassScan(key: Key, id: nat, packages: seq<PendingPackage>, observed: Option<seq<RemovablePackage>>, begun: nat, presented: bool)
      modifies this
      ensures var s := old(View());
        var published := Spec.PublishCleanup(s.(supply := s.supply + 1), key, observed, begun, presented);
        View() == Spec.FinishScan(published.(past := Append(published.past, ScanPublished(key, s.supply, packages))), key, id,
                                  ScanSuccess(id, packages, s.supply, false))
    {
      hide Spec.PublishCleanup, Spec.FinishScan;
      var token := Draw();
      PublishCleanup(key, observed, begun, presented);
      past := Append(past, ScanPublished(key, token, packages));
      FinishScan(key, id, ScanSuccess(id, packages, token, false));
    }

    method ResumeScan(id: nat, reply: ScanReply, presented: bool)
      requires id in jobs && jobs[id].ScanJob?
      modifies this
      ensures View() == WakeScan(old(View()), id, reply, presented)
    {
      hide Spec.PublishCleanup, Spec.FinishScan, OwnsScan;
      var job := jobs[id];
      if reply.ScanCancelled? {
        EndTask(id);
        return;
      }
      match job.position
      case ScanSlot =>
        if reply.SlotGranted? {
          jobs := jobs[id := job.(position := ScanHelper)];
          scanSlots := scanSlots + {id};
        } else {
          EndTask(id);
          FinishScan(job.key, id, ScanFailed(id, ExecutionFailed));
        }
      case ScanHelper =>
        if reply.Scanned? {
          jobs := jobs[id := job.(position := ScanCleanup(reply.packages, |past.log|))];
        } else {
          EndTask(id);
          FinishScan(job.key, id, ScanFailed(id, if reply.ScanRaised? then reply.failure else ExecutionFailed));
        }
      case ScanCleanup(packages, begun) =>
        EndTask(id);
        if OwnsScan(books, job.key, id) {
          PassScan(job.key, id, packages, if reply.CleanupPlanned? then Some(reply.removable) else None, begun, presented);
        }
    }

    /** Autoremove leaves the cleanup state unknown wherever it observes nothing more. */
    method ForgetOwnCandidates(job: Job)
      requires job.MutationJob?
      modifies this
      ensures View() == ForgetCandidates(old(View()), job)
    {
      if job.attempt.kind.CleanupKind? {
        PublishCleanup(job.key, None, |past.log|, true);
      }
    }

    /** Carry out one turn of a run body. */
    method TakeTurn(id: nat, turn: Turn, presented: bool, l: Listeners, created: bool)
      requires id in jobs && jobs[id].MutationJob?
      modifies this
      ensures View() == ApplyTurn(old(View()), id, turn, presented, l, created)
    {
      var job := jobs[id];
      var a := job.attempt;
      var owned := OwnsMutation(books, a.kind, job.key, id);
      match turn
      case Proceed(next, passed) =>
        jobs := jobs[id := job.(attempt := next)];
        if a.at.AwaitSlot? {
          updateSlot := updateSlot + {id};
        }
        past := Pass(past, a, passed);
      case Settle(record, passed) =>
        past := Pass(past, a, passed);
        if record.status.Succeeded? && owned {
          jobs := jobs[id := job.(attempt := a.(at := AwaitObservation(record, |past.log|)))];
          updateSlot := updateSlot - {id};
        } else {
          EndTask(id);
          ForgetOwnCandidates(job);
          FinishMutation(a.kind, job.key, id, record, true, l, created);
        }
      case Abort(record) =>
        EndTask(id);
        if owned {
          ForgetOwnCandidates(job);
          FinishMutation(a.kind, job.key, id, record, true, l, created);
        } else {
          Report(id, record);
        }
      case Observed(record, candidates) =>
        EndTask(id);
        PublishCleanup(job.key, candidates, if a.at.AwaitObservation? then a.at.begun else |past.log|, presented);
        FinishMutation(a.kind, job.key, id, record, true, l, created);
      case Interrupted(record) =>
        EndTask(id);
        if owned {
          PublishCleanup(job.key, None, |past.log|, presented);
          FinishMutation(a.kind, job.key, id, record, false, l, created);
        } else {
          Report(id, record);
        }
    }

    method ResumeHealth(id: nat, reply: HealthReply)
      requires id in jobs && jobs[id].HealthJob?
      modifies this
      ensures View() == WakeHealth(old(View()), id, reply)
    {
      var key := jobs[id].key;
      EndTask(id);
      if reply.Checked? {
        FinishHealth(key, id, reply.outcome);
      }
    }

    method EndRestoreTask(id: nat, key: Key, uncertain: bool)
      modifies this
      ensures View() == FinishRestore(old(View()), id, key, uncertain)
    {
      EndTask(id);
      past := Append(past, RestoreFinished(id, key, uncertain));
      if !uncertain {
        EndRestore(key);
      }
    }

    method ResumeRestore(id: nat, reply: RestoreReply)
      requires id in jobs && jobs[id].RestoreJob?
      modifies this
      ensures View() == WakeRestore(old(View()), id, reply)
    {
      var job := jobs[id];
      match job.stage
      case Validating =>
        if reply.StillEligible? && !reply.createRunning && job.key in books.reserved {
          InvalidateRestoreTarget(job.key);
          jobs := jobs[id := job.(stage := Submitting(false))];
        } else {
          EndRestoreTask(id, job.key, false);
        }
      case Submitting(_) =>
        if reply.TaskAccepted? {
          jobs := jobs[id := job.(stage := Watching)];
        } else {
          EndRestoreTask(id, job.key, !reply.RollbackRefused?);
        }
      case Watching =>
        EndRestoreTask(id, job.key, !(reply.TaskObserved? && reply.known));
    }

    /** A worker thread enters the executor job a task is waiting for. */
    method EnterExecutor(id: nat)
      requires CanEnter(View(), id)
      modifies this`jobs, this`past
      ensures View() == Enter(old(View()), id)
    {
      var job := jobs[id];
      if job.RestoreJob? {
        jobs := jobs[id := job.(stage := Submitting(true))];
        past := Append(past, RollbackSubmitted(id, job.key));
        return;
      }
      var a := job.attempt;
      var name := a.name.value;
      if a.at.AwaitPost? {
        jobs := jobs[id := job.(attempt := a.(at := AwaitPost(true), submitted := true))];
        past := PostedPast(past, id, name);
      } else {
        jobs := jobs[id := job.(attempt := a.(at := AwaitDelete(true)))];
        past := Append(past, DeleteSubmitted(id, name));
      }
    }

    // ----- any action, any run

    /** Every action refines its step of the state machine, and the class invariant survives it. */
    method Handle(action: Action)
      requires Valid() && Enabled(View(), action)
      modifies this
      ensures Valid() && View() == Step(old(View()), action)
    {
      hide Inv, Possible, WorldMove, Machine.Dispatch, Prune, InvalidateNonRunning, Enter, WakeScan, ApplyTurn, WakeHealth;
      hide WakeRestore, Machine.RunFollower, Advance;
      StepKeeps(View(), action);
      match action
      case Press(call) => Dispatch(call);
      case Refresh(fresh') =>
        coordinator := fresh';
        StateChanged();
      case PruneMissing(current) => PruneMissing(current);
      case ObserveRunning(running) => ObserveRunning(running);
      case CancelTask(id) => jobs := jobs[id := jobs[id].(cancelled := true)];
      case WorldMoves(id, snapshot) => past := past.(snapshots := past.snapshots[id := snapshot]);
      case EnterExecutor(id) => EnterExecutor(id);
      case ScanWakes(id, reply, presented) => ResumeScan(id, reply, presented);
      case AttemptWakes(id, reply, generated, presented, l, created) =>
        TakeTurn(id, Advance(jobs[id].attempt, reply, generated), presented, l, created);
      case HealthWakes(id, reply) => ResumeHealth(id, reply);
      case RestoreWakes(id, reply) => ResumeRestore(id, reply);
      case FollowerWakes(id) => RunFollower(id);
      case FollowerEnds(id) => followers := followers - {id};
    }

    /** A whole run of the object is the run of the state machine, so all that is proved of runs is true of it. */
    method HandleAll(actions: seq<Action>)
      requires Valid()
      modifies this
      ensures Valid() && View() == Run(old(View()), actions)
    {
      hide Inv, Enabled, Step;
      for i := 0 to |actions|
        invariant Valid() && Run(View(), actions[i..]) == Run(old(View()), actions)
      {
        assert actions[i..][1..] == actions[i + 1..];
        if Enabled(View(), actions[i]) {
          Handle(actions[i]);
        }
      }
    }
  }

  lemma PrunesBooks(s: State, current: set<Key>)
    requires Inv(s, NoHole)
    ensures PrunedBooks(s.books, Prune(s, current).books, current)
  {
    hide Exclusive, FenceHolds, NoEvidenceWhileRunning, ViewedIsCurrent, Tethered, EndingOwned, SectionsBounded, TraceOk, ClientsOk;
    hide Prune, PrunedBooks;
    PrunedBooksExactly(s, current);
  }

  // ----- one target at a time

  /** The state once these targets have been taken out of every dictionary. */
  function Pruned(s: State, done: set<Key>): State {
    s.(books := PruneBooks(s.books, done), tasks := PruneTasks(s.tasks, done),
       jobs := CancelJobs(s.jobs, PrunedIds(s.tasks, done)))
  }

  /** The state once these targets have been fenced off. */
  function Stopped(s: State, done: set<Key>): State {
    s.(books := StopBooks(s.books, done),
       tasks := s.tasks.(scans := s.tasks.scans - done, health := s.tasks.health - done),
       jobs := CancelJobs(s.jobs, TasksOf(s.tasks.scans, done) + TasksOf(s.tasks.health, done)))
  }

  lemma CancelFurther(jobs: Jobs, ids: set<nat>, more: set<nat>)
    ensures CancelJobs(CancelJobs(jobs, ids), more) == CancelJobs(jobs, ids + more)
    ensures CancelJobs(jobs, {}) == jobs
  {
  }

  lemma OneTask(tasks: map<Key, nat>, key: Key)
    ensures TasksOf(tasks, {key}) == TaskOf(tasks, key)
  {
  }

  lemma OneTargetsTasks(jobs: Jobs, t: Tasks, key: Key)
    ensures CancelJobs(
      CancelJobs(CancelJobs(CancelJobs(jobs, TaskOf(t.health, key)), TaskOf(t.scans, key)), TaskOf(t.updates, key)),
      TaskOf(t.cleanups, key)) == CancelJobs(jobs, PrunedIds(t, {key}))
  {
    hide CancelJobs;
    var health, scans, updates := TaskOf(t.health, key), TaskOf(t.scans, key), TaskOf(t.updates, key);
    OneTask(t.health, key);
    OneTask(t.scans, key);
    OneTask(t.updates, key);
    OneTask(t.cleanups, key);
    CancelFurther(jobs, health, scans);
    CancelFurther(jobs, health + scans, updates);
    CancelFurther(jobs, health + scans + updates, TaskOf(t.cleanups, key));
    assert health + scans + updates + TaskOf(t.cleanups, key) == PrunedIds(t, {key});
  }

  lemma OneStoppedTasks(jobs: Jobs, t: Tasks, key: Key)
    ensures CancelJobs(CancelJobs(jobs, TaskOf(t.health, key)), TaskOf(t.scans, key))
      == CancelJobs(jobs, TasksOf(t.scans, {key}) + TasksOf(t.health, {key}))
  {
    hide CancelJobs;
    OneTask(t.health, key);
    OneTask(t.scans, key);
    CancelFurther(jobs, TaskOf(t.health, key), TaskOf(t.scans, key));
    assert TaskOf(t.health, key) + TaskOf(t.scans, key) == TasksOf(t.scans, {key}) + TasksOf(t.health, {key});
  }

  lemma DropFurther<V>(m: map<Key, V>, done: set<Key>, key: Key)
    ensures m - done - {key} == m - (done + {key})
    ensures m - {} == m
  {
  }

  lemma TasksOfFurther(tasks: map<Key, nat>, done: set<Key>, key: Key)
    requires key !in done
    ensures TasksOf(tasks, done) + TasksOf(tasks - done, {key}) == TasksOf(tasks, done + {key})
  {
    assert key in tasks ==> key in tasks - done;
  }

  lemma PruneBooksFurther(b: Books, done: set<Key>, key: Key)
    ensures PruneBooks(PruneBooks(b, done), {key}) == PruneBooks(b, done + {key})
    ensures PruneBooks(b, {}) == b
  {
    DropFurther(b.records, done, key);
    DropFurther(b.updates, done, key);
    DropFurther(b.cleanups, done, key);
    DropFurther(b.evidence, done, key);
    DropFurther(b.viewed, done, key);
    DropFurther(b.health, done, key);
    assert b.fenced - done - {key} == b.fenced - (done + {key});
  }

  lemma PruneTasksFurther(t: Tasks, done: set<Key>, key: Key)
    requires key !in done
    ensures PruneTasks(PruneTasks(t, done), {key}) == PruneTasks(t, done + {key})
    ensures PrunedIds(t, done) + PrunedIds(PruneTasks(t, done), {key}) == PrunedIds(t, done + {key})
  {
    DropFurther(t.scans, done, key);
    DropFurther(t.updates, done, key);
    DropFurther(t.cleanups, done, key);
    DropFurther(t.health, done, key);
    TasksOfFurther(t.scans, done, key);
    TasksOfFurther(t.updates, done, key);
    TasksOfFurther(t.cleanups, done, key);
    TasksOfFurther(t.health, done, key);
  }

  lemma PrunedFurther(s: State, done: set<Key>, key: Key)
    requires key !in done
    ensures Pruned(Pruned(s, done), {key}) == Pruned(s, done + {key})
  {
    hide CancelJobs, PruneBooks, PruneTasks, PrunedIds;
    PruneBooksFurther(s.books, done, key);
    PruneTasksFurther(s.tasks, done, key);
    CancelFurther(s.jobs, PrunedIds(s.tasks, done), PrunedIds(PruneTasks(s.tasks, done), {key}));
  }

  lemma NothingPruned(s: State)
    ensures Pruned(s, {}) == s
  {
    DropFurther(s.books.records, {}, Key("", 0));
    DropFurther(s.books.updates, {}, Key("", 0));
    DropFurther(s.books.cleanups, {}, Key("", 0));
    DropFurther(s.books.evidence, {}, Key("", 0));
    DropFurther(s.books.viewed, {}, Key("", 0));
    DropFurther(s.books.health, {}, Key("", 0));
    DropFurther(s.tasks.scans, {}, Key("", 0));
    DropFurther(s.tasks.updates, {}, Key("", 0));
    DropFurther(s.tasks.cleanups, {}, Key("", 0));
    DropFurther(s.tasks.health, {}, Key("", 0));
    CancelFurther(s.jobs, {}, {});
    assert PrunedIds(s.tasks, {}) == {};
  }

  lemma StopBooksFurther(b: Books, done: set<Key>, key: Key)
    ensures StopBooks(StopBooks(b, done), {key}) == StopBooks(b, done + {key})
  {
    DropFurther(b.records, done, key);
    DropFurther(b.evidence, done, key);
    DropFurther(b.viewed, done, key);
    DropFurther(b.health, done, key);
    assert b.fenced + done + {key} == b.fenced + (done + {key});
  }

  lemma StoppedFurther(s: State, done: set<Key>, key: Key)
    requires key !in done
    ensures Stopped(Stopped(s, done), {key}) == Stopped(s, done + {key})
  {
    hide CancelJobs, StopBooks;
    var t := s.tasks;
    var ids, more := TasksOf(t.scans, done) + TasksOf(t.health, done), TasksOf(t.scans - done, {key}) + TasksOf(t.health - done, {key});
    StopBooksFurther(s.books, done, key);
    DropFurther(t.scans, done, key);
    DropFurther(t.health, done, key);
    TasksOfFurther(t.scans, done, key);
    TasksOfFurther(t.health, done, key);
    CancelFurther(s.jobs, ids, more);
    assert ids + more == TasksOf(t.scans, done + {key}) + TasksOf(t.health, done + {key});
  }

  lemma NothingStopped(s: State)
    ensures Stopped(s, {}) == s
  {
    DropFurther(s.books.records, {}, Key("", 0));
    DropFurther(s.books.evidence, {}, Key("", 0));
    DropFurther(s.books.viewed, {}, Key("", 0));
    DropFurther(s.books.health, {}, Key("", 0));
    DropFurther(s.tasks.scans, {}, Key("", 0));
    DropFurther(s.tasks.health, {}, Key("", 0));
    CancelFurther(s.jobs, {}, {});
    assert TasksOf(s.tasks.scans, {}) + TasksOf(s.tasks.health, {}) == {};
  }

  /** Stopping other targets first does not change whether this one had anything to lose. */
  lemma StillHad(s: State, done: set<Key>, key: Key)
    requires key !in done
    ensures HadEvidence(Stopped(s, done).books, Stopped(s, done).tasks, key) <==> HadEvidence(s.books, s.tasks, key)
  {
  }
}
