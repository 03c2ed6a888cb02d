/**
 The Easy Update continuation (easy_update.py): when it waits, when it starts its Autoremove and when it gives up, read
 off the records, and that it never sleeps through the moment that decides.
 */
module Followers {
  import opened Models
  import opened Attempts
  import opened History
  import opened ManagerState
  import opened ManagerMachine
  import opened ManagerInvariant
  import opened ManagerTheorems
  import opened Starts
  import opened ClientTheorems

  // ----- one turn of a continuation

  /** The stored Update is the very attempt the continuation was left by, and this is how it stands. */
  predicate OwnUpdate(b: Books, f: Follower, status: UpdateStatus) {
    f.key in b.updates && b.updates[f.key].attempt == f.attempt && b.updates[f.key].status == status
  }

  /** There is something to remove, seen no earlier than the Update was accepted. */
  predicate FreshPlan(b: Books, f: Follower) {
    f.key in b.evidence && b.evidence[f.key].candidates != [] && f.attempt <= b.evidence[f.key].observedAt
  }

  /** What a successful Update still has to wait for on its own target. */
  predicate Occupied(b: Books, key: Key) {
    Busy(b, HealthOwner, key) || Busy(b, ScanOwner, key) || Busy(b, CleanupOwner, key)
  }

  predicate Worthwhile(s: State, f: Follower) {
    s.coordinator.lastUpdateSuccess && OwnUpdate(s.books, f, Succeeded) && FreshPlan(s.books, f) && f.key !in s.books.reserved
  }

  /** Its Update still runs, or succeeded with something to remove while the target is still occupied. */
  predicate MustWait(s: State, f: Follower) {
    (s.coordinator.lastUpdateSuccess && OwnUpdate(s.books, f, Running)) || (Worthwhile(s, f) && Occupied(s.books, f.key))
  }

  ghost predicate MayFollow(s: State, f: Follower) {
    && Worthwhile(s, f) && !Occupied(s.books, f.key) && !BusyElsewhere(s.books, f.key)
    && f.key in s.coordinator.running && f.key.vmid in s.coordinator.snapshotGranted && s.configured
  }

  lemma WaitsExactly(s: State, f: Follower)
    ensures Decide(s.coordinator, s.books, f).None? <==> MustWait(s, f)
    ensures Decide(s.coordinator, s.books, f) == Some(true) <==>
      Worthwhile(s, f) && !Occupied(s.books, f.key)
      && f.key in s.coordinator.running && f.key.vmid in s.coordinator.snapshotGranted
  {
  }

  /** With its own key idle, a target is idle unless another node's key of the VMID is busy. */
  lemma IdleUnlessElsewhere(s: State, f: Follower)
    requires Worthwhile(s, f) && !Occupied(s.books, f.key)
    ensures GuestIdle(s.books, f.key.vmid) <==> !BusyElsewhere(s.books, f.key)
  {
    forall o: Owner ensures !Busy(s.books, o, f.key) {
    }
  }

  /** The Autoremove is started as the button would start it, and the history says for whom. */
  predicate Followed(s: State, s': State, id: nat)
    requires id in s.followers && s.followers[id].key in s.books.evidence
  {
    var f := s.followers[id];
    var left := s.(followers := s.followers - {id});
    var accepted := CleanupAccepted(s.supply, f.key, s.books.evidence[f.key]);
    && s'.past.log == s.past.log + [accepted] + [AutoremoveFollowed(id, f.attempt, s.supply)]
    && AutoremoveStarted(left, s'.(past := s'.past.(log := s.past.log + [accepted])), f.key)
    && SameSections(left, s')
  }

  /**
   A continuation that is resumed goes on waiting exactly while its Update runs, or has succeeded with a fresh plan
   while Health, a Scan or an Autoremove still occupies the target; it starts its Autoremove exactly when the target is
   idle, running and may be snapshotted; and in every other case it leaves without having done anything.
   */
  lemma FollowerExactly(s: State, id: nat)
    requires id in s.followers
    ensures var s', f := RunFollower(s, id), s.followers[id];
      if MustWait(s, f) then s' == s.(followers := s.followers[id := f.(parked := true, seen := s.version)])
      else if MayFollow(s, f) then Followed(s, s', id) && OthersSame(s, s', f.key)
      else s' == s.(followers := s.followers - {id})
  {
    hide MustWait, Worthwhile, Occupied, Decide, StartAutoremove, GuestIdle, BusyElsewhere, AutoremoveRefusal, AutoremoveStarted;
    hide AcceptAutoremove, OthersSame;
    var f := s.followers[id];
    var left := s.(followers := s.followers - {id});
    WaitsExactly(s, f);
    WorthRemoving(s, f);
    AutoremoveStartsExactly(s, f.key, true, true);
    AutoremoveStartsExactly(left, f.key, true, true);
    if Worthwhile(s, f) && !Occupied(s.books, f.key) {
      IdleUnlessElsewhere(s, f);
    }
    if AutoremoveRefusal(s, f.key, true, true).None? {
      FollowsAsStarted(s, id);
    }
  }

  lemma WorthRemoving(s: State, f: Follower)
    ensures Worthwhile(s, f) ==> Displayed(s.books, f.key)
  {
  }

  lemma FollowsAsStarted(s: State, id: nat)
    requires id in s.followers && ShownPlan(s.books, s.followers[id].key)
    ensures var f := s.followers[id];
      var started := AcceptAutoremove(s.(followers := s.followers - {id}), f.key);
      var s' := started.(past := Append(started.past, AutoremoveFollowed(id, f.attempt, s.supply)));
      Followed(s, s', id) && OthersSame(s, s', f.key)
  {
    hide AutoremoveStarted, SameBooksAt, SameTasksAt;
    var f := s.followers[id];
    var left := s.(followers := s.followers - {id});
    AutoremoveAcceptedExactly(left, f.key);
    var started := AcceptAutoremove(left, f.key);
    var s' := started.(past := Append(started.past, AutoremoveFollowed(id, f.attempt, s.supply)));
    assert s'.(past := s'.past.(log := s.past.log + [CleanupAccepted(s.supply, f.key, s.books.evidence[f.key])])) == started;
  }

  // ----- over whole runs

  /**
   No lost wake-up: in no reachable state is a continuation parked on an unset wake event unless its Update still runs,
   or has succeeded with a fresh plan while its target is occupied. So whatever ends the wait also sets the event.
   */
  lemma NoWakeUpIsLost(configured: bool, c: Coordinator, actions: seq<Action>, id: nat)
    requires id in Reached(configured, c, actions).followers
    requires var s := Reached(configured, c, actions);
      s.followers[id].parked && s.followers[id].seen == s.version
    ensures var s := Reached(configured, c, actions);
      MustWait(s, s.followers[id])
  {
    hide Reached, StateOk, TraceOk, RestoresSafe, StoredReported, Decide, MustWait;
    InvHolds(configured, c, actions);
    var s := Reached(configured, c, actions);
    assert Watches(s.followers[id], s.version, s.coordinator, s.books);
    WaitsExactly(s, s.followers[id]);
  }

  /** A continuation that has nothing left to wait for is refused only for another node's key of the same VMID. */
  lemma DecisionAccepted(s: State, f: Follower)
    requires Worthwhile(s, f) && !Occupied(s.books, f.key)
    ensures AutoremoveRefusal(s, f.key, true, true).None? <==> s.configured && !BusyElsewhere(s.books, f.key)
  {
    hide AutoremoveRefusal, GuestIdle, BusyElsewhere, Worthwhile;
    AutoremoveStartsExactly(s, f.key, true, true);
    IdleUnlessElsewhere(s, f);
    WorthRemoving(s, f);
  }

  /**
   A continuation starts an Autoremove only when its own Update attempt is the stored one and succeeded, with
   evidence observed after it was accepted; and it leaves as it does so.
   */
  lemma FollowsOnlyItsUpdate(s: State, id: nat)
    requires id in s.followers
    ensures var s', f := RunFollower(s, id), s.followers[id];
      s'.past.log == s.past.log
      || (&& f.key in s.books.updates && s.books.updates[f.key].attempt == f.attempt
          && s.books.updates[f.key].status.Succeeded?
          && f.key in s.books.evidence && f.attempt <= s.books.evidence[f.key].observedAt
          && s'.past.log == s.past.log + [CleanupAccepted(s.supply, f.key, s.books.evidence[f.key]),
                                          AutoremoveFollowed(id, f.attempt, s.supply)]
          && id !in s'.followers)
  {
    hide BusyAt;
  }

  /** One continuation starts at most one Autoremove in a whole run, and only after its Update was reported. */
  lemma FollowsAtMostOnce(configured: bool, c: Coordinator, actions: seq<Action>, i: nat, j: nat)
    requires var log := Reached(configured, c, actions).past.log;
      i < j < |log| && log[i].AutoremoveFollowed? && log[j].AutoremoveFollowed?
    ensures var log := Reached(configured, c, actions).past.log;
      log[i].follower != log[j].follower && AttemptReported(log[j].update) in log[..j]
  {
    hide Reached;
    HistoryIsJustified(configured, c, actions, j);
    var log := Reached(configured, c, actions).past.log;
    assert log[i] == log[..j][i] && log[i] in log[..j];
  }
}
