/**
 What is forgotten when targets vanish, stop or are about to be rolled back, and which tasks are told to stop: all of
 the target's own and none of anybody else's.
 */
module Forgetting {
  import opened Models
  import opened Attempts
  import opened History
  import opened ManagerState
  import opened ManagerMachine
  import opened ManagerInvariant
  import opened ActionProofs
  import opened ManagerTheorems
  import opened LiveRecords
  import opened Starts

  /** No dictionary knows anything of this target. */
  predicate Unknown(b: Books, k: Key) {
    k !in b.records && k !in b.updates && k !in b.cleanups && k !in b.evidence && k !in b.fenced && k !in b.viewed
    && k !in b.health
  }

  predicate Undisputed(s: State, s': State) {
    SameSections(s, s') && s'.supply == s.supply && s'.books.reserved == s.books.reserved
  }

  function ToldToStop(job: Job): Job { job.(cancelled := true) }

  // ----- targets that vanished

  predicate Survives(job: Job, current: set<Key>) { job.RestoreJob? || job.key in current }

  ghost predicate PrunedBooks(b: Books, b': Books, current: set<Key>) {
    && (forall k: Key | k !in current :: Unknown(b', k))
    && (forall k: Key | k in current :: SameBooksAt(b, b', k))
  }

  predicate PrunedJobs(jobs: Jobs, jobs': Jobs, current: set<Key>) {
    jobs'.Keys == jobs.Keys
    && forall id | id in jobs :: jobs'[id] == if Survives(jobs[id], current) then jobs[id] else ToldToStop(jobs[id])
  }

  lemma PrunedBooksExactly(s: State, current: set<Key>)
    requires ViewedIsCurrent(s.books)
    ensures PrunedBooks(s.books, Prune(s, current).books, current)
    ensures forall k: Key | k in current :: SameTasksAt(s.tasks, Prune(s, current).tasks, k)
    ensures Undisputed(s, Prune(s, current)) && Prune(s, current).past == s.past.(log := s.past.log + [TargetsPruned(current)])
  {
  }

  lemma PrunedJobsExactly(s: State, current: set<Key>)
    requires Filed(s) && Tethered(s.jobs, s.tasks, s.books, s.past.owners)
    ensures PrunedJobs(s.jobs, Prune(s, current).jobs, current)
  {
    hide PruneBooks, PruneTasks, CancelJobs;
    var stale := PruneTargets(s.books, current);
    var ids := PrunedIds(s.tasks, stale);
    forall id | id in s.jobs ensures id in ids ==> !Survives(s.jobs[id], current) {
    }
    forall id | id in s.jobs ensures !Survives(s.jobs[id], current) ==> s.jobs[id].cancelled || id in ids {
      assert Tied(s.jobs[id], id, s.tasks, s.books, s.past.owners);
    }
  }

  /** Anybody is told exactly when something was known of a target that is gone. */
  lemma PruneNotifies(s: State, current: set<Key>)
    requires ViewedIsCurrent(s.books)
    ensures Prune(s, current).version == s.version + One(exists k: Key :: k !in current && !Unknown(s.books, k))
  {
    var stale := PruneTargets(s.books, current);
    forall k: Key ensures k in stale <==> k !in current && !Unknown(s.books, k) {
    }
    if k :| k in stale {
      assert k !in current && !Unknown(s.books, k);
    }
    if k: Key :| k !in current && !Unknown(s.books, k) {
      assert k in stale;
    }
  }

  /**
   A prune leaves nothing known of any target outside the current ones, tells exactly their tasks to stop, save those
   of a Restore, and leaves every current target and every reservation alone.
   */
  lemma PruneForgetsExactly(configured: bool, c: Coordinator, actions: seq<Action>, current: set<Key>)
    ensures var s := Reached(configured, c, actions);
      var s' := Prune(s, current);
      && PrunedBooks(s.books, s'.books, current) && PrunedJobs(s.jobs, s'.jobs, current) && Undisputed(s, s')
      && (forall k: Key | k in current :: SameTasksAt(s.tasks, s'.tasks, k))
      && (forall kind, key: Key, id: nat | key !in current :: !OwnsMutation(s'.books, kind, key, id))
      && s'.version == s.version + One(exists k: Key :: k !in current && !Unknown(s.books, k))
      && s'.past == s.past.(log := s.past.log + [TargetsPruned(current)])
  {
    hide Reached, Prune, TraceOk, ClientsOk, Exclusive, FenceHolds, NoEvidenceWhileRunning, ViewedIsCurrent, Filed;
    hide Tethered, EndingOwned, SectionsBounded, PrunedJobs, Undisputed, SameBooksAt, SameTasksAt, Backed;
    InvHolds(configured, c, actions);
    OrderHolds(configured, c, actions);
    var s := Reached(configured, c, actions);
    PrunedBooksExactly(s, current);
    PrunedJobsExactly(s, current);
    PruneNotifies(s, current);
  }

  /** So the next wake-up of an attempt whose target vanished reports it and writes nothing of the target back. */
  lemma PrunedNeverReturns(configured: bool, c: Coordinator, actions: seq<Action>, current: set<Key>, wake: Action)
    requires var s := Prune(Reached(configured, c, actions), current);
      wake.AttemptWakes? && Enabled(s, wake) && s.jobs[wake.id].key !in current
    ensures var s := Prune(Reached(configured, c, actions), current);
      && s.jobs[wake.id].cancelled
      && Step(s, wake).books == s.books && Step(s, wake).tasks == s.tasks
      && wake.id in Step(s, wake).past.reports && wake.id !in Step(s, wake).jobs
  {
    hide Reached, Prune, Inv, Enabled, Step, Survives, Undisputed, PrunedBooks, SameTasksAt, OwnsMutation;
    var s := Reached(configured, c, actions);
    InvHolds(configured, c, actions);
    PruneKeeps(s, current);
    PruneForgetsExactly(configured, c, actions, current);
    WakesAttempt(Prune(s, current), wake);
    assert !Survives(s.jobs[wake.id], current) by {
      NotSurviving(s.jobs[wake.id], Prune(s, current).jobs[wake.id], current);
    }
    NoResurrection(Prune(s, current), wake);
  }

  lemma WakesAttempt(s: State, wake: Action)
    requires wake.AttemptWakes? && Enabled(s, wake)
    ensures wake.id in s.jobs && s.jobs[wake.id].MutationJob?
  {
  }

  lemma NotSurviving(job: Job, job': Job, current: set<Key>)
    requires job'.MutationJob? && job'.key !in current && (job' == job || job' == ToldToStop(job))
    ensures !Survives(job, current)
  {
  }

  // ----- targets that stopped

  /** A target of which any package record or task exists. */
  predicate Tracked(s: State, k: Key) {
    || k in s.books.records || k in s.books.evidence || k in s.books.viewed || k in s.books.health
    || k in s.tasks.scans || k in s.tasks.updates || k in s.tasks.cleanups
  }

  predicate Fenced(s: State, s': State, k: Key) {
    && Discarded(s'.books, k) && k in s'.books.fenced
    && SameAt(s.books.updates, s'.books.updates, k) && SameAt(s.books.cleanups, s'.books.cleanups, k)
    && k !in s'.tasks.scans && k !in s'.tasks.health
    && SameAt(s.tasks.updates, s'.tasks.updates, k) && SameAt(s.tasks.cleanups, s'.tasks.cleanups, k)
  }

  predicate Observes(job: Job) { job.ScanJob? || job.HealthJob? }

  predicate StoppedJobs(jobs: Jobs, jobs': Jobs, running: set<Key>) {
    jobs'.Keys == jobs.Keys
    && forall id | id in jobs ::
      jobs'[id] == if Observes(jobs[id]) && jobs[id].key !in running then ToldToStop(jobs[id]) else jobs[id]
  }

  lemma StoppedBooksExactly(s: State, running: set<Key>)
    ensures var s' := InvalidateNonRunning(s, running);
      forall k: Key ::
        if k !in running && Tracked(s, k) then Fenced(s, s', k)
        else SameBooksAt(s.books, s'.books, k) && SameTasksAt(s.tasks, s'.tasks, k)
  {
    hide CancelJobs, TasksOf;
    var stale := StoppedTargets(s.books, s.tasks, running);
    forall k: Key ensures k in stale <==> k !in running && Tracked(s, k) {
    }
  }

  lemma StoppedJobsExactly(s: State, running: set<Key>)
    requires Filed(s) && Tethered(s.jobs, s.tasks, s.books, s.past.owners)
    ensures StoppedJobs(s.jobs, InvalidateNonRunning(s, running).jobs, running)
  {
    hide CancelJobs, HadEvidence;
    var stale := StoppedTargets(s.books, s.tasks, running);
    var ids := TasksOf(s.tasks.scans, stale) + TasksOf(s.tasks.health, stale);
    forall id | id in s.jobs ensures id in ids ==> Observes(s.jobs[id]) && s.jobs[id].key !in running {
    }
    forall id | id in s.jobs && Observes(s.jobs[id]) && s.jobs[id].key !in running ensures s.jobs[id].cancelled || id in ids {
      assert Tied(s.jobs[id], id, s.tasks, s.books, s.past.owners);
    }
  }

  /**
   Seeing targets not running fences each one anything is recorded of, drops what was observed of it, and tells its
   Scan and Health check to stop; a mutation under way keeps its record and its task, and running targets keep all.
   */
  lemma StopForgetsExactly(configured: bool, c: Coordinator, actions: seq<Action>, running: set<Key>)
    ensures var s := Reached(configured, c, actions);
      var s' := InvalidateNonRunning(s, running);
      && (forall k: Key ::
        if k !in running && Tracked(s, k) then Fenced(s, s', k)
        else SameBooksAt(s.books, s'.books, k) && SameTasksAt(s.tasks, s'.tasks, k))
      && StoppedJobs(s.jobs, s'.jobs, running) && Undisputed(s, s')
      && s'.past == s.past.(log := s.past.log + [TargetsObserved(running)])
  {
    hide Reached, InvalidateNonRunning, TraceOk, ClientsOk, BooksOk, Filed, Tethered, EndingOwned, SectionsBounded;
    hide StoppedJobs, Undisputed, SameBooksAt, SameTasksAt, Backed, Fenced, Tracked;
    InvHolds(configured, c, actions);
    OrderHolds(configured, c, actions);
    var s := Reached(configured, c, actions);
    StoppedBooksExactly(s, running);
    StoppedJobsExactly(s, running);
    StoppedRest(s, running);
  }

  lemma StoppedRest(s: State, running: set<Key>)
    ensures Undisputed(s, InvalidateNonRunning(s, running))
    ensures InvalidateNonRunning(s, running).past == s.past.(log := s.past.log + [TargetsObserved(running)])
  {
  }

  /** Anybody is told exactly when a stopped target loses something an entity shows. */
  lemma StopNotifies(s: State, running: set<Key>)
    ensures InvalidateNonRunning(s, running).version == s.version + One(exists k: Key ::
      k !in running && Tracked(s, k)
      && (!Discarded(s.books, k) || k in s.tasks.scans || k in s.tasks.health))
  {
    hide CancelJobs, TasksOf, StopBooks;
    var stale := StoppedTargets(s.books, s.tasks, running);
    forall k: Key
      ensures k in stale && HadEvidence(s.books, s.tasks, k) <==>
        k !in running && Tracked(s, k) && (!Discarded(s.books, k) || k in s.tasks.scans || k in s.tasks.health)
    {
    }
  }

  // ----- a target about to be rolled back

  /** Right before a rollback is submitted its target is fenced and forgotten, and its Health check told to stop. */
  lemma DiscardForgetsExactly(s: State, key: Key)
    ensures var s' := InvalidateRestoreTarget(s, key);
      && Discarded(s'.books, key) && key in s'.books.fenced && key !in s'.tasks.health
      && SameAt(s.books.updates, s'.books.updates, key) && SameAt(s.books.cleanups, s'.books.cleanups, key)
      && s'.tasks == s.tasks.(health := s'.tasks.health)
      && OthersSame(s, s', key) && Undisputed(s, s') && s'.version == s.version + 1
      && s'.past == s.past.(log := s.past.log + [TruthDiscarded(key)])
      && s'.jobs.Keys == s.jobs.Keys
      && forall id | id in s.jobs ::
        s'.jobs[id] == if key in s.tasks.health && s.tasks.health[key] == id then ToldToStop(s.jobs[id]) else s.jobs[id]
  {
  }
}
