/** Every change the callbacks make to the dictionaries keeps the exclusion, evidence and review rules. */
module BooksProofs {
  import opened Models
  import opened ManagerState
  import opened ManagerInvariant

  lemma IdleMeansNotBusy(b: Books, vmid: int)
    requires !BusyAt(b, vmid)
    ensures forall o: Owner, k: Key :: Busy(b, o, k) ==> k.vmid != vmid
  {
  }

  lemma BusyMeansOwned(b: Books, vmid: int)
    ensures BusyAt(b, vmid) <==> exists o: Owner, k: Key :: Busy(b, o, k) && k.vmid == vmid
  {
    if ReservedAt(b.reserved, vmid) {
      var k :| k in b.reserved && k.vmid == vmid;
      assert Busy(b, RestoreOwner, k);
    }
    if ScanRunningAt(b.records, vmid) {
      var k :| k in b.records && k.vmid == vmid && b.records[k].ScanRunning?;
      assert Busy(b, ScanOwner, k);
    }
    if MutationRunningAt(b.updates, vmid) {
      var k :| k in b.updates && k.vmid == vmid && b.updates[k].status.Running?;
      assert Busy(b, UpdateOwner, k);
    }
    if MutationRunningAt(b.cleanups, vmid) {
      var k :| k in b.cleanups && k.vmid == vmid && b.cleanups[k].status.Running?;
      assert Busy(b, CleanupOwner, k);
    }
    if HealthRunningAt(b.health, vmid) {
      var k :| k in b.health && k.vmid == vmid && b.health[k].HealthRunning?;
      assert Busy(b, HealthOwner, k);
    }
  }

  lemma ReleaseKeepsExclusive(b: Books, b': Books, h: Hole)
    requires Exclusive(b, h)
    requires forall o: Owner, k: Key :: Busy(b', o, k) ==> Busy(b, o, k)
    ensures Exclusive(b', h)
  {
  }

  /** A new owner may join a VMID where nothing is busy that it would have to exclude. */
  lemma GrantKeepsExclusive(b: Books, b': Books, h: Hole, owner: Owner, key: Key)
    requires Exclusive(b, h)
    requires forall o: Owner, k: Key :: Busy(b', o, k) ==> Busy(b, o, k) || (o == owner && k == key)
    requires forall o: Owner, k: Key :: Busy(b, o, k) && k.vmid == key.vmid ==>
      if owner == HealthOwner then o == RestoreOwner || (ClaimedBy(h, o, k) && k == key)
      else owner == RestoreOwner && o == HealthOwner
    ensures Exclusive(b', h)
  {
  }

  lemma ScanBooksOk(b: Books, h: Hole, key: Key, id: nat)
    requires BooksOk(b, h) && !BusyAt(b, key.vmid)
    ensures BooksOk(ScanBooks(b, key, id), h)
  {
    IdleMeansNotBusy(b, key.vmid);
    var b' := ScanBooks(b, key, id);
    GrantKeepsExclusive(b, b', h, ScanOwner, key);
    forall k | k in b'.evidence && RunsPackageWork(b', k) ensures ExemptKey(h, k) {
      assert RunsPackageWork(b, k);
    }
  }

  lemma UpdateBooksOk(b: Books, h: Hole, key: Key, id: nat, skip: bool)
    requires BooksOk(b, h) && !BusyAt(b, key.vmid)
    ensures BooksOk(UpdateBooks(b, key, id, skip), h)
  {
    IdleMeansNotBusy(b, key.vmid);
    var b' := UpdateBooks(b, key, id, skip);
    GrantKeepsExclusive(b, b', h, UpdateOwner, key);
    forall k | k in b'.evidence && RunsPackageWork(b', k) ensures ExemptKey(h, k) {
      assert RunsPackageWork(b, k);
    }
  }

  lemma CleanupBooksOk(b: Books, h: Hole, key: Key, id: nat)
    requires BooksOk(b, h) && !BusyAt(b, key.vmid)
    ensures BooksOk(CleanupBooks(b, key, id), h)
  {
    IdleMeansNotBusy(b, key.vmid);
    var b' := CleanupBooks(b, key, id);
    GrantKeepsExclusive(b, b', h, CleanupOwner, key);
    forall k | k in b'.evidence && RunsPackageWork(b', k) ensures ExemptKey(h, k) {
      assert RunsPackageWork(b, k);
    }
  }

  lemma ReviewBooksOk(b: Books, h: Hole, key: Key)
    requires BooksOk(b, h) && key in b.records && b.records[key].ScanSuccess?
    ensures BooksOk(ReviewBooks(b, key), h)
  {
    ReleaseKeepsExclusive(b, ReviewBooks(b, key), h);
  }

  lemma ViewedBooksOk(b: Books, h: Hole, key: Key, token: nat)
    requires BooksOk(b, h) && Reviewable(b, key, token)
    ensures BooksOk(b.(viewed := b.viewed[key := token]), h)
  {
    ReleaseKeepsExclusive(b, b.(viewed := b.viewed[key := token]), h);
  }

  lemma OnlyOwner(b: Books, owner: Owner, key: Key)
    requires WorkExclusive(b) && Busy(b, owner, key) && owner != HealthOwner
    ensures forall o: Owner, k: Key :: Busy(b, o, k) && k.vmid == key.vmid && o != HealthOwner ==> o == owner && k == key
  {
  }

  lemma ScanEndsBooksOk(b: Books, key: Key, outcome: ScanRecord)
    requires BooksOk(b, ScanEnding(key)) && Busy(b, ScanOwner, key) && !outcome.ScanRunning?
    ensures BooksOk(b.(records := b.records[key := outcome]), NoHole)
  {
    var b' := b.(records := b.records[key := outcome]);
    OnlyOwner(b, ScanOwner, key);
    ReleaseKeepsExclusive(b, b', ScanEnding(key));
    assert forall k | k in b'.evidence :: RunsPackageWork(b', k) ==> RunsPackageWork(b, k) && k != key;
  }

  /** A terminal record gives up exactly the ownership of its own attempt. */
  lemma EndedOwner(b: Books, kind: MutationKind, key: Key, record: UpdateRecord, o: Owner, k: Key)
    requires !record.status.Running? && Busy(PutMutation(b, kind, key, record), o, k)
    ensures Busy(b, o, k) && !(o == OwnerOf(kind) && k == key)
  {
  }

  lemma MutationEndsExclusive(b: Books, kind: MutationKind, key: Key, id: nat, record: UpdateRecord)
    requires Exclusive(b, Ending(kind, key, id)) && Busy(b, OwnerOf(kind), key) && !record.status.Running?
    ensures Exclusive(PutMutation(b, kind, key, record), Unreported(id))
  {
    var b' := PutMutation(b, kind, key, record);
    forall o: Owner, k: Key | Busy(b', o, k) ensures Busy(b, o, k) && !(o == OwnerOf(kind) && k == key) {
      EndedOwner(b, kind, key, record, o, k);
    }
  }

  lemma MutationEndsEvidence(b: Books, kind: MutationKind, key: Key, id: nat, record: UpdateRecord, k: Key)
    requires BooksOk(b, Ending(kind, key, id)) && Busy(b, OwnerOf(kind), key) && !record.status.Running?
    requires k in b.evidence
    ensures !RunsPackageWork(PutMutation(b, kind, key, record), k)
  {
    var b' := PutMutation(b, kind, key, record);
    OnlyOwner(b, OwnerOf(kind), key);
    assert RunsPackageWork(b, k) ==> k == key;
    assert Busy(b', ScanOwner, k) ==> Busy(b, ScanOwner, k);
    assert Busy(b', UpdateOwner, k) ==> Busy(b, UpdateOwner, k);
    assert Busy(b', CleanupOwner, k) ==> Busy(b, CleanupOwner, k);
  }

  lemma MutationEndsBooksOk(b: Books, kind: MutationKind, key: Key, id: nat, record: UpdateRecord)
    requires BooksOk(b, Ending(kind, key, id)) && Busy(b, OwnerOf(kind), key) && !record.status.Running?
    ensures BooksOk(PutMutation(b, kind, key, record), Unreported(id))
  {
    var b' := PutMutation(b, kind, key, record);
    MutationEndsExclusive(b, kind, key, id, record);
    forall k | k in b'.evidence ensures !RunsPackageWork(b', k) {
      MutationEndsEvidence(b, kind, key, id, record, k);
    }
  }

  lemma EvidenceBooksOk(b: Books, h: Hole, key: Key, evidence: CleanupEvidence)
    requires BooksOk(b, h) && key !in b.fenced && ExemptKey(h, key)
    ensures BooksOk(b.(evidence := b.evidence[key := evidence]), h)
  {
    var b' := b.(evidence := b.evidence[key := evidence]);
    ReleaseKeepsExclusive(b, b', h);
    forall k | k in b'.evidence && RunsPackageWork(b', k) ensures ExemptKey(h, k) {
      assert RunsPackageWork(b, k);
    }
  }

  lemma ForgetEvidenceBooksOk(b: Books, h: Hole, key: Key)
    requires BooksOk(b, h)
    ensures BooksOk(b.(evidence := b.evidence - {key}), h)
  {
    var b' := b.(evidence := b.evidence - {key});
    ReleaseKeepsExclusive(b, b', h);
    forall k | k in b'.evidence && RunsPackageWork(b', k) ensures ExemptKey(h, k) {
      assert RunsPackageWork(b, k);
    }
  }

  /** Health is claimed on an idle VMID, or by the attempt that is finishing there. */
  lemma ClaimBooksOk(b: Books, h: Hole, key: Key, id: nat, source: HealthSource)
    requires BooksOk(b, h)
    requires forall o: Owner, k: Key :: Busy(b, o, k) && k.vmid == key.vmid ==> ClaimedBy(h, o, k) && k == key
    ensures BooksOk(b.(health := b.health[key := HealthRunning(id, source)]), h)
  {
    GrantKeepsExclusive(b, b.(health := b.health[key := HealthRunning(id, source)]), h, HealthOwner, key);
  }

  lemma HealthBooksOk(b: Books, h: Hole, health: map<Key, HealthRecord>)
    requires BooksOk(b, h)
    requires forall k | k in health && health[k].HealthRunning? :: k in b.health && b.health[k].HealthRunning?
    ensures BooksOk(b.(health := health), h)
  {
    ReleaseKeepsExclusive(b, b.(health := health), h);
  }

  lemma ReserveBooksOk(b: Books, h: Hole, key: Key)
    requires BooksOk(b, h) && !RestoreBlocked(b, key.vmid)
    ensures BooksOk(b.(reserved := b.reserved + {key}), h)
  {
    GrantKeepsExclusive(b, b.(reserved := b.reserved + {key}), h, RestoreOwner, key);
  }

  lemma ReleaseBooksOk(b: Books, h: Hole, key: Key)
    requires BooksOk(b, h)
    ensures BooksOk(b.(reserved := b.reserved - {key}), h)
  {
    ReleaseKeepsExclusive(b, b.(reserved := b.reserved - {key}), h);
  }

  lemma DiscardBooksOk(b: Books, h: Hole, key: Key)
    requires BooksOk(b, h)
    ensures BooksOk(DiscardBooks(b, key), h)
  {
    var b' := DiscardBooks(b, key);
    ReleaseKeepsExclusive(b, b', h);
    forall k | k in b'.evidence && RunsPackageWork(b', k) ensures ExemptKey(h, k) {
      assert RunsPackageWork(b, k);
    }
  }

  lemma PruneBooksOk(b: Books, stale: set<Key>)
    requires BooksOk(b, NoHole)
    ensures BooksOk(PruneBooks(b, stale), NoHole)
  {
    var b' := PruneBooks(b, stale);
    ReleaseKeepsExclusive(b, b', NoHole);
    forall k | k in b'.evidence && RunsPackageWork(b', k) ensures false {
      assert RunsPackageWork(b, k);
    }
  }

  lemma StopBooksOk(b: Books, stale: set<Key>)
    requires BooksOk(b, NoHole)
    ensures BooksOk(StopBooks(b, stale), NoHole)
  {
    var b' := StopBooks(b, stale);
    ReleaseKeepsExclusive(b, b', NoHole);
    forall k | k in b'.evidence && RunsPackageWork(b', k) ensures false {
      assert RunsPackageWork(b, k);
    }
  }

  /** An attempt that still owns its target is alone on the VMID, so its Health claim cannot be blocked. */
  lemma ClaimNeverBlocked(b: Books, kind: MutationKind, key: Key)
    requires Exclusive(b, NoHole) && Busy(b, OwnerOf(kind), key)
    ensures !HealthClaimBlocked(b, key.vmid)
  {
    OnlyOwner(b, OwnerOf(kind), key);
    assert forall k: Key :: k.vmid == key.vmid ==>
      !Busy(b, RestoreOwner, k) && !Busy(b, ScanOwner, k) && !Busy(b, HealthOwner, k);
  }

  /** Opening a hole only weakens what is asked. */
  lemma OpenHole(b: Books, h: Hole)
    requires BooksOk(b, NoHole)
    ensures BooksOk(b, h)
  {
  }

  /** Closing the report hole asks nothing more of the dictionaries. */
  lemma CloseReportHole(b: Books, id: nat)
    requires BooksOk(b, Unreported(id))
    ensures BooksOk(b, NoHole)
  {
  }
}
