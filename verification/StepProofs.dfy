/** What carries the remaining parts of the invariant from one state to the next. */
module StepProofs {
  import opened Models
  import opened Attempts
  import opened History
  import opened ManagerState
  import opened ManagerMachine
  import opened ManagerInvariant
  import opened BooksProofs
  import opened TetherProofs
  import opened LedgerProofs
  import opened ProvenanceProofs

  // ----- identities

  lemma DatedLater(e: Event, supply: nat, supply': nat)
    requires Dated(e, supply) && supply <= supply'
    ensures Dated(e, supply')
  {
  }

  lemma LogDatedGrows(log: Log, es: Log, supply: nat, supply': nat)
    requires LogDated(log, supply) && supply <= supply' && LogDated(es, supply')
    ensures LogDated(log + es, supply')
  {
    forall e | e in log ensures Dated(e, supply') {
      DatedLater(e, supply, supply');
    }
  }

  /** Whatever is new is younger than the new supply. */
  lemma SuppliedGrows(
    supply: nat, supply': nat, jobs: Jobs, jobs': Jobs, followers: map<nat, Follower>, followers': map<nat, Follower>,
    b: Books, b': Books, past: Past, past': Past, es: Log)
    requires Supplied(supply, jobs, followers, b, past) && supply <= supply'
    requires past'.log == past.log + es && LogDated(es, supply')
    requires forall id | id in jobs' :: id in jobs || id < supply'
    requires forall id | id in followers' :: id in followers || id < supply'
    requires past.snapshots.Keys <= past'.snapshots.Keys
    requires forall id | id in past'.grants :: id in past.grants || (id < supply' && id in past'.snapshots)
    requires forall k | k in b'.evidence ::
      (k in b.evidence && b.evidence[k] == b'.evidence[k]) || b'.evidence[k].observedAt < supply'
    requires forall k | k in b'.records && b'.records[k].ScanSuccess? ::
      (k in b.records && b.records[k].ScanSuccess? && b.records[k].token == b'.records[k].token)
      || b'.records[k].token < supply'
    requires forall k | k in b'.updates ::
      (k in b.updates && b.updates[k].attempt == b'.updates[k].attempt) || b'.updates[k].attempt < supply'
    requires forall k | k in b'.cleanups ::
      (k in b.cleanups && b.cleanups[k].attempt == b'.cleanups[k].attempt) || b'.cleanups[k].attempt < supply'
    ensures Supplied(supply', jobs', followers', b', past')
  {
    LogDatedGrows(past.log, es, supply, supply');
  }

  // ----- Restore

  /** Reserved targets that hold nothing still hold nothing. */
  ghost predicate ReservedStayEmpty(b: Books, b': Books) {
    forall k | k in b.reserved && Discarded(b, k) :: Discarded(b', k)
  }

  /** Live Restores are where they were. */
  ghost predicate SameRestores(jobs: Jobs, jobs': Jobs) {
    forall id | id in jobs' && jobs'[id].RestoreJob? ::
      id in jobs && jobs[id].RestoreJob? && jobs'[id].key == jobs[id].key
      && (jobs'[id].stage.Validating? <==> jobs[id].stage.Validating?)
  }

  predicate NoRestoreEnds(es: Log) { forall e | e in es :: !e.RestoreFinished? }

  lemma RestoresStay(jobs: Jobs, jobs': Jobs, t: Tasks, b: Books, b': Books, past: Past, past': Past, es: Log)
    requires RestoresSafe(jobs, b, past) && Tethered(jobs, t, b, past.owners) && SameRestores(jobs, jobs')
    requires b.reserved <= b'.reserved && ReservedStayEmpty(b, b')
    requires past'.log == past.log + es && NoRestoreEnds(es)
    requires forall k | k in b.reserved && k in past.owners :: k in past'.owners && past'.owners[k] == past.owners[k]
    ensures RestoresSafe(jobs', b', past')
  {
    forall id | id in jobs' && jobs'[id].RestoreJob?
      ensures RestoreSafe(id, jobs'[id].key, jobs'[id].stage, b', past'.log)
    {
      assert Tied(jobs[id], id, t, b, past.owners);
      assert RestoreSafe(id, jobs[id].key, jobs[id].stage, b, past.log);
    }
    forall e | e in past'.log && e.RestoreFinished? && e.uncertain
      ensures StrandedSafe(e.id, e.key, jobs', b', past'.owners)
    {
      assert e in past.log;
      assert StrandedSafe(e.id, e.key, jobs, b, past.owners);
    }
  }

  /** A target that something other than Restore is working on is not reserved. */
  lemma WorkedOnNotReserved(b: Books, o: Owner, key: Key)
    requires WorkExclusive(b) && Busy(b, o, key) && o != HealthOwner && o != RestoreOwner
    ensures key !in b.reserved
  {
    assert key in b.reserved ==> Busy(b, RestoreOwner, key);
  }

  // ----- continuations

  /** Nothing a continuation decides on has changed without a notification. */
  predicate Announced(s: State, s': State) {
    || s.version < s'.version
    || (s.version == s'.version && s.coordinator == s'.coordinator
        && s.books.updates == s'.books.updates && s.books.evidence == s'.books.evidence
        && s.books.reserved == s'.books.reserved && s.books.health == s'.books.health
        && s.books.records == s'.books.records && s.books.cleanups == s'.books.cleanups)
  }

  lemma SameDecision(c: Coordinator, b: Books, b': Books, f: Follower)
    requires b.updates == b'.updates && b.evidence == b'.evidence && b.reserved == b'.reserved
    requires b.health == b'.health && b.records == b'.records && b.cleanups == b'.cleanups
    ensures Decide(c, b, f) == Decide(c, b', f)
  {
  }

  lemma FollowersStay(s: State, s': State, es: Log)
    requires FollowersWatch(s) && Announced(s, s')
    requires forall id | id in s'.followers :: (id in s.followers && s'.followers[id] == s.followers[id])
    requires s'.past.log == s.past.log + es && forall e | e in es :: !e.AutoremoveFollowed?
    ensures FollowersWatch(s')
  {
    forall id | id in s'.followers ensures Watches(s'.followers[id], s'.version, s'.coordinator, s'.books) {
      assert Watches(s.followers[id], s.version, s.coordinator, s.books);
      if s.version == s'.version {
        SameDecision(s.coordinator, s.books, s'.books, s.followers[id]);
      }
    }
  }

  // ----- stored terminal records

  lemma ReportsStay(b: Books, b': Books, past: Past, past': Past, h: Hole)
    requires StoredReported(b, past, h)
    requires forall k | k in b'.updates && !b'.updates[k].status.Running? ::
      (k in b.updates && b.updates[k] == b'.updates[k]) || ExemptId(h, b'.updates[k].attempt)
    requires past.reports.Keys <= past'.reports.Keys
    ensures StoredReported(b', past', h)
  {
  }

  /** An attempt that is being finished keeps its record through whatever listeners do elsewhere. */
  lemma EndingStays(jobs: Jobs, jobs': Jobs, b: Books, b': Books, h: Hole)
    requires EndingOwned(jobs, b, h) && !h.ScanEnding?
    requires h.Ending? && h.id in jobs' ==> h.id in jobs
    requires h.Ending? && OwnsMutation(b, h.kind, h.key, h.id) ==> OwnsMutation(b', h.kind, h.key, h.id)
    ensures EndingOwned(jobs', b', h)
  {
  }
}
