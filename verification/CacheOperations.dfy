/** Every operation of the cache keeps the invariant, and the ledger bounds the bytes on disk. */
module CacheOperations {
  import opened Sums
  import opened Options
  import opened Fingerprint
  import opened CacheModel
  import opened CacheProofs

  // ----- Lookup and handle release -----

  /** A handle is given only for a live entry that is not retired, not expired and whole on disk. */
  lemma LookupKeeps(w: World, key: Key, now: int, unreadable: Unreadable, faults: Faults)
    requires Inv(w)
    ensures Inv(Lookup(w, key, now, unreadable, faults).0)
    ensures Lookup(w, key, now, unreadable, faults).1 <==>
            && key in w.cache.entries && !w.cache.closed
            && !w.cache.entries[key].retired && !Expired(w.cache.entries[key], now)
            && PagesReadable(unreadable, w.cache.entries[key]) && PagesOnDisk(w.disk, w.cache.entries[key])
  {
    hide Ledger, Covered, PinnedIntact, FreshDirs, Remove, Calm, Expired;
    if Lookup(w, key, now, unreadable, faults).1 {
      HitKeeps(w, key, w.cache.entries[key].(active := w.cache.entries[key].active + 1, lastUsed := now));
    } else {
      CalmRefl(w);
      RemoveCalm(w, key, faults);
      CalmKeeps(w, Lookup(w, key, now, unreadable, faults).0);
    }
  }

  lemma HitKeeps(w: World, key: Key, e: Entry)
    requires Inv(w) && key in w.cache.entries && PagesOnDisk(w.disk, w.cache.entries[key])
    requires e == w.cache.entries[key].(active := w.cache.entries[key].active + 1, lastUsed := e.lastUsed)
    ensures Inv(w.(cache := w.cache.(entries := w.cache.entries[key := e])))
  {
    assert SoundEntry(w.cache, key, w.cache.entries[key]);
    PagesStay(w.disk, w.disk, w.cache.entries[key], e);
    EntryUpdated(w, key, e);
  }

  /** Changing an entry's handle count and time of use. */
  lemma EntryUpdated(w: World, key: Key, e: Entry)
    requires Inv(w) && key in w.cache.entries
    requires e == w.cache.entries[key].(active := e.active, lastUsed := e.lastUsed) && e.active >= 0
    requires e.active > 0 ==> PagesOnDisk(w.disk, e)
    ensures Inv(w.(cache := w.cache.(entries := w.cache.entries[key := e])))
  {
    var c := w.cache;
    var c' := c.(entries := c.entries[key := e]);
    RetireTotals(c.entries, key, e);
    forall k | k in c'.entries ensures SoundEntry(c', k, c'.entries[k]) {
      assert SoundEntry(c, k, c.entries[k]);
    }
    forall p | p in w.disk && p.root == c'.root ensures Charged(c', p, DirBytes(w.disk[p])) {
      assert Charged(c, p, DirBytes(w.disk[p]));
      assert Lent(c, p, DirBytes(w.disk[p])) ==> Lent(c', p, DirBytes(w.disk[p]));
    }
  }

  lemma UnpinKeeps(w: World, key: Key)
    requires Inv(w)
    ensures Inv(Unpin(w, key))
  {
    if key in w.cache.entries && w.cache.entries[key].active > 0 {
      var e := w.cache.entries[key];
      PagesStay(w.disk, w.disk, e, e.(active := e.active - 1));
      EntryUpdated(w, key, e.(active := e.active - 1));
    }
  }

  // ----- Reservations -----

  lemma SweepKeeps(w: World, ranges: Ranges, now: int, faults: Faults)
    requires Inv(w)
    ensures Inv(Sweep(w, ranges, now, faults)) && Calm(w, Sweep(w, ranges, now, faults))
  {
    SweepCalm(w, ranges, now, faults);
    CalmKeeps(w, Sweep(w, ranges, now, faults));
  }

  lemma EvictKeeps(w: World, victims: seq<Key>, faults: Faults)
    requires Inv(w)
    ensures Inv(Evict(w, victims, faults)) && Calm(w, Evict(w, victims, faults))
  {
    EvictCalm(w, victims, faults);
    CalmKeeps(w, Evict(w, victims, faults));
  }

  /** Before it decides, reserve only takes away. */
  lemma ReserveStateKeeps(w: World, bytes: int, now: int, ranges: Ranges, victims: seq<Key>, faults: Faults)
    requires Inv(w)
    ensures var w' := ReserveState(w, bytes, now, ranges, victims, faults);
            Inv(w') && Calm(w, w')
  {
    hide Calm, Inv, Sweep, Evict;
    CalmRefl(w);
    if InRange(w.cache, bytes) && !w.cache.closed {
      var swept := Sweep(w, ranges, now, faults);
      SweepKeeps(w, ranges, now, faults);
      if |swept.cache.pending| < MAX_PENDING_CLEANUP {
        EvictKeeps(swept, victims, faults);
        CalmTrans(w, swept, Evict(swept, victims, faults));
      }
    }
  }

  /** Reserve is a step that takes away, then a decision. */
  lemma ReserveCases(w: World, id: nat, bytes: int, now: int, ranges: Ranges, victims: seq<Key>, faults: Faults)
    returns (w': World, granted: bool)
    requires Inv(w)
    ensures Calm(w, w') && Inv(w') && granted == Grants(w'.cache, bytes)
    ensures Reserve(w, id, bytes, now, ranges, victims, faults) ==
            (if granted then w'.(cache := AddLoan(w'.cache, id, bytes)) else w', granted)
  {
    w' := ReserveState(w, bytes, now, ranges, victims, faults);
    ReserveStateKeeps(w, bytes, now, ranges, victims, faults);
    granted := Grants(w'.cache, bytes);
  }

  lemma ReserveKeeps(w: World, id: nat, bytes: int, now: int, ranges: Ranges, victims: seq<Key>, faults: Faults)
    requires Inv(w) && id !in w.cache.loans
    ensures Inv(Reserve(w, id, bytes, now, ranges, victims, faults).0)
  {
    var w' := ReserveState(w, bytes, now, ranges, victims, faults);
    ReserveStateKeeps(w, bytes, now, ranges, victims, faults);
    if Grants(w'.cache, bytes) {
      LoanAdded(w', id, bytes);
    }
  }

  lemma LoanAdded(w: World, id: nat, bytes: int)
    requires Inv(w) && id !in w.cache.loans && bytes >= 0 && Fits(w.cache, bytes)
    ensures Inv(w.(cache := AddLoan(w.cache, id, bytes)))
  {
    var c, c' := w.cache, AddLoan(w.cache, id, bytes);
    assert LoanBytes(c'.loans) == LoanBytes(c.loans)[id := bytes];
    SumUpdate(LoanBytes(c.loans), id, bytes);
    SameEntries(c, c');
    forall p | p in w.disk && p.root == c'.root ensures Charged(c', p, DirBytes(w.disk[p])) {
      assert Charged(c, p, DirBytes(w.disk[p]));
      if Lent(c, p, DirBytes(w.disk[p])) {
        var i :| i in c.loans && c.loans[i].dir == Some(p) && DirBytes(w.disk[p]) <= c.loans[i].bytes;
        assert i in c'.loans && c'.loans[i] == c.loans[i];
      }
    }
  }

  lemma SameEntries(c: Cache, c': Cache)
    requires Ledger(c) && c'.entries == c.entries && c'.root == c.root
    ensures forall k :: k in c'.entries ==> SoundEntry(c', k, c'.entries[k])
  {
    forall k | k in c'.entries ensures SoundEntry(c', k, c'.entries[k]) {
      assert SoundEntry(c, k, c.entries[k]);
    }
  }

  /** MkdirTemp makes a directory that was not there, and the job records it. */
  lemma JobDirKeeps(w: World, id: nat, p: Path)
    requires Inv(w) && id in w.cache.loans && w.cache.loans[id].dir == None
    requires p !in w.disk && p !in w.cache.pending && p.kind == JobDir
    requires forall i :: i in w.cache.loans ==> w.cache.loans[i].dir != Some(p)
    ensures Inv(SetJobDir(w.(disk := w.disk[p := map[]]), id, p))
  {
    hide Covered, PinnedIntact;
    var w' := SetJobDir(w.(disk := w.disk[p := map[]]), id, p);
    var c, c' := w.cache, w'.cache;
    assert LoanBytes(c'.loans) == LoanBytes(c.loans);
    SameEntries(c, c');
    JobDirCovers(w, id, p, w');
    PinnedStay(w, w');
  }

  lemma JobDirCovers(w: World, id: nat, p: Path, w': World)
    requires Ledger(w.cache) && Covered(w) && id in w.cache.loans && w.cache.loans[id].dir == None
    requires p !in w.disk && p.kind == JobDir && w' == SetJobDir(w.(disk := w.disk[p := map[]]), id, p)
    ensures Covered(w')
  {
    var c, c' := w.cache, w'.cache;
    forall q | q in w'.disk && q.root == c'.root ensures Charged(c', q, DirBytes(w'.disk[q])) {
      if q == p {
        assert c'.loans[id].dir == Some(p) && DirBytes(map[]) == 0;
        assert Lent(c', p, 0);
      } else {
        assert Charged(c, q, DirBytes(w.disk[q]));
        if Lent(c, q, DirBytes(w.disk[q])) {
          var i :| i in c.loans && c.loans[i].dir == Some(q) && DirBytes(w.disk[q]) <= c.loans[i].bytes;
          assert i != id && c'.loans[i] == c.loans[i];
        }
      }
    }
  }

  /** Pinned pages stay whole when entries and entry directories stay. */
  lemma PinnedStay(w: World, w': World)
    requires Ledger(w.cache) && PinnedIntact(w) && w'.cache.entries == w.cache.entries
    requires forall q :: q in w.disk && q.kind == EntryDir ==> q in w'.disk && w'.disk[q] == w.disk[q]
    ensures PinnedIntact(w')
  {
    hide PagesOnDisk;
    forall k | k in w'.cache.entries && w'.cache.entries[k].active > 0
      ensures PagesOnDisk(w'.disk, w'.cache.entries[k]) {
      assert SoundEntry(w.cache, k, w.cache.entries[k]);
      PagesStay(w.disk, w'.disk, w.cache.entries[k], w'.cache.entries[k]);
    }
  }

  /** A job writes in its directory within what its reservation still charges. */
  lemma JobWriteKeeps(w: World, id: nat, d: Dir)
    requires Inv(w) && id in w.cache.loans && w.cache.loans[id].dir.Some?
    requires w.cache.loans[id].dir.value.kind == JobDir && DirBytes(d) <= w.cache.loans[id].bytes
    ensures Inv(w.(disk := w.disk[w.cache.loans[id].dir.value := d]))
  {
    var c, p := w.cache, w.cache.loans[id].dir.value;
    var disk := w.disk[p := d];
    forall q | q in disk && q.root == c.root ensures Charged(c, q, DirBytes(disk[q])) {
      if q == p {
        assert Lent(c, p, DirBytes(d));
      } else {
        assert Charged(c, q, DirBytes(w.disk[q]));
      }
    }
    forall k | k in c.entries && c.entries[k].active > 0 ensures PagesOnDisk(disk, c.entries[k]) {
      assert SoundEntry(c, k, c.entries[k]);
      PagesStay(w.disk, disk, c.entries[k], c.entries[k]);
    }
  }

  lemma LoanRemoved(c: Cache, id: nat)
    requires id in c.loans
    ensures Sum(LoanBytes(c.loans - {id})) == Sum(LoanBytes(c.loans)) - c.loans[id].bytes
  {
    assert LoanBytes(c.loans - {id}) == LoanBytes(c.loans) - {id};
    SumRemove(LoanBytes(c.loans), id);
  }

  lemma SettleFresh(c: Cache, id: nat, deleted: bool)
    requires FreshDirs(c)
    ensures FreshDirs(Settle(c, id, deleted))
  {
  }

  /** The books after a release: the charge is freed with the directory, or stays as pending. */
  lemma SettleLedger(c: Cache, id: nat, deleted: bool)
    requires Ledger(c) && FreshDirs(c)
    ensures Ledger(Settle(c, id, deleted))
  {
    hide SoundEntry, Sum;
    if id in c.loans {
      LoanRemoved(c, id);
      SameEntries(c, Settle(c, id, deleted));
      if !deleted && c.loans[id].dir.Some? {
        SumUpdate(c.pending, c.loans[id].dir.value, c.loans[id].bytes);
      }
    }
  }

  lemma ReleaseKeeps(w: World, id: nat, faults: Faults)
    requires Inv(w)
    ensures Inv(Release(w, id, faults))
  {
    hide Ledger, Covered, PinnedIntact, FreshDirs;
    if id in w.cache.loans {
      var c, w' := w.cache, Release(w, id, faults);
      SettleLedger(c, id, Deletable(c, c.loans[id].dir, faults));
      SettleFresh(c, id, Deletable(c, c.loans[id].dir, faults));
      ReleaseCovers(w, id, faults);
      PinnedStay(w, w');
    }
  }

  lemma ReleaseCovers(w: World, id: nat, faults: Faults)
    requires Covered(w) && FreshDirs(w.cache) && id in w.cache.loans
    ensures Covered(Release(w, id, faults))
  {
    var c, w' := w.cache, Release(w, id, faults);
    if c.loans[id].dir.Some? {
      RemoveDirShrinks(w.disk, c.loans[id].dir.value, faults);
    }
    forall p | p in w'.disk && p.root == c.root ensures Charged(w'.cache, p, DirBytes(w'.disk[p])) {
      SettleCharges(c, id, Deletable(c, c.loans[id].dir, faults), p, DirBytes(w.disk[p]));
    }
  }

  /** A directory other than a deleted one stays charged. */
  lemma SettleCharges(c: Cache, id: nat, deleted: bool, p: Path, bytes: int)
    requires Charged(c, p, bytes) && FreshDirs(c) && id in c.loans
    requires deleted && p.kind == JobDir ==> c.loans[id].dir != Some(p)
    ensures Charged(Settle(c, id, deleted), p, bytes)
  {
    var c' := Settle(c, id, deleted);
    if p.kind == JobDir && Lent(c, p, bytes) {
      var i :| i in c.loans && c.loans[i].dir == Some(p) && bytes <= c.loans[i].bytes;
      if i != id {
        assert c'.loans[i] == c.loans[i];
        assert Lent(c', p, bytes);
      }
    }
  }

  /**
   Why job directories must be fresh: releasing a reservation whose directory cannot be deleted
   keeps the books exactly when that directory was not already charged for something.
   */
  lemma ReleaseConservesIff(w: World, id: nat, faults: Faults)
    requires Ledger(w.cache) && id in w.cache.loans && w.cache.loans[id].dir.Some?
    requires Owned(w.cache, w.cache.loans[id].dir.value, JobDir) ==> w.cache.loans[id].dir.value in faults
    ensures var c, c', p := w.cache, Release(w, id, faults).cache, w.cache.loans[id].dir.value;
            c'.reserved == Sum(LoanBytes(c'.loans)) + Sum(c'.pending) <==> p !in c.pending || c.pending[p] == 0
  {
    var c, c' := w.cache, Release(w, id, faults).cache;
    LoanRemoved(c, id);
    SumUpdate(c.pending, c.loans[id].dir.value, c.loans[id].bytes);
  }

  // ----- Commit -----

  /** The pages list every output file of d once, with its size. */
  ghost predicate OutputsExact(d: Dir, pages: seq<PageRef>) {
    && (forall i, j :: 0 <= i < j < |pages| ==> pages[i].file != pages[j].file)
    && (forall i :: 0 <= i < |pages| ==> pages[i].file in Outputs(d) && d[pages[i].file] == pages[i].size)
    && (forall f :: f in Outputs(d) ==> exists i :: 0 <= i < |pages| && pages[i].file == f)
  }

  /** What the first pages list, as a directory. */
  ghost function Listed(d: Dir, pages: seq<PageRef>, n: nat): Dir
    requires n <= |pages| && forall i :: 0 <= i < |pages| ==> pages[i].file in d
  {
    if n == 0 then map[] else Listed(d, pages, n - 1)[pages[n - 1].file := d[pages[n - 1].file]]
  }

  lemma {:induction false} ListedFrom(d: Dir, pages: seq<PageRef>, n: nat, f: FileName) returns (i: nat)
    requires n <= |pages| && (forall i :: 0 <= i < |pages| ==> pages[i].file in d) && f in Listed(d, pages, n)
    ensures i < n && pages[i].file == f && f in d && Listed(d, pages, n)[f] == d[f]
  {
    if pages[n - 1].file == f {
      i := n - 1;
    } else {
      i := ListedFrom(d, pages, n - 1, f);
    }
  }

  lemma {:induction false} ListedHas(d: Dir, pages: seq<PageRef>, n: nat, i: nat)
    requires i < n <= |pages| && forall i :: 0 <= i < |pages| ==> pages[i].file in d
    ensures pages[i].file in Listed(d, pages, n)
  {
    if i < n - 1 {
      ListedHas(d, pages, n - 1, i);
    }
  }

  lemma {:induction false} ListedBytes(d: Dir, pages: seq<PageRef>, n: nat)
    requires n <= |pages| && forall i :: 0 <= i < |pages| ==> pages[i].file in d && d[pages[i].file] == pages[i].size
    requires forall i, j :: 0 <= i < j < |pages| ==> pages[i].file != pages[j].file
    ensures DirBytes(Listed(d, pages, n)) == Sizes(pages[..n])
  {
    if n > 0 {
      ListedBytes(d, pages, n - 1);
      assert pages[..n][..n - 1] == pages[..n - 1];
      if pages[n - 1].file in Listed(d, pages, n - 1) {
        var i := ListedFrom(d, pages, n - 1, pages[n - 1].file);
      }
      SumUpdate(Listed(d, pages, n - 1), pages[n - 1].file, d[pages[n - 1].file]);
    }
  }

  lemma ListedAll(d: Dir, pages: seq<PageRef>)
    requires OutputsExact(d, pages)
    ensures Listed(d, pages, |pages|) == Outputs(d)
  {
    forall f | f in Listed(d, pages, |pages|) ensures f in Outputs(d) && Listed(d, pages, |pages|)[f] == d[f] {
      var i := ListedFrom(d, pages, |pages|, f);
    }
    forall f | f in Outputs(d) ensures f in Listed(d, pages, |pages|) {
      var i :| 0 <= i < |pages| && pages[i].file == f;
      ListedHas(d, pages, |pages|, i);
    }
  }

  /** An exact listing adds up to the bytes of the output files. */
  lemma ExactListing(d: Dir, pages: seq<PageRef>)
    requires OutputsExact(d, pages)
    ensures DirBytes(Outputs(d)) == Sizes(pages)
    ensures DirBytes(d) == DirBytes(Inputs(d)) + Sizes(pages)
  {
    ListedBytes(d, pages, |pages|);
    assert pages[..|pages|] == pages;
    ListedAll(d, pages);
    SumParts(d, Inputs(d), Outputs(d));
  }

  /** Moving a charge from a reservation to a new entry keeps the books and their total. */
  lemma MoveCharge(c: Cache, id: nat, key: Key, e: Entry)
    requires Ledger(c) && id in c.loans && key !in c.entries && WellFormedKey(key.text)
    requires e.root == EntryRoot(c, key) && 0 <= e.total <= c.loans[id].bytes && e.active == 0
    ensures Ledger(WithEntry(c, id, key, e))
    ensures WithEntry(c, id, key, e).usedBytes + WithEntry(c, id, key, e).reserved == c.usedBytes + c.reserved
  {
    hide WellFormedKey, Sum;
    var c' := WithEntry(c, id, key, e);
    assert Totals(c'.entries) == Totals(c.entries)[key := e.total];
    SumUpdate(Totals(c.entries), key, e.total);
    assert LoanBytes(c'.loans) == LoanBytes(c.loans)[id := c.loans[id].bytes - e.total];
    SumUpdate(LoanBytes(c.loans), id, c.loans[id].bytes - e.total);
    SoundWithEntry(c, id, key, e);
  }

  lemma SoundWithEntry(c: Cache, id: nat, key: Key, e: Entry)
    requires (forall k :: k in c.entries ==> SoundEntry(c, k, c.entries[k])) && SoundEntry(c, key, e)
    ensures var c' := WithEntry(c, id, key, e);
            forall k :: k in c'.entries ==> SoundEntry(c', k, c'.entries[k])
  {
    var c' := WithEntry(c, id, key, e);
    forall k | k in c'.entries ensures SoundEntry(c', k, c'.entries[k]) {
      if k != key && k in c.entries {
        assert SoundEntry(c, k, c.entries[k]);
      }
    }
  }

  lemma {:induction false} AcceptedPages(disk: Disk, outputDir: Path, pages: seq<PageRef>, stats: nat)
    requires CheckPages(disk, outputDir, pages, stats) == Committed
    ensures forall i :: 0 <= i < |pages| ==> PageAcceptable(disk, outputDir, pages[i])
    ensures 0 <= Sizes(pages) <= MAX_TOTAL_BYTES
  {
    if pages != [] {
      AcceptedPages(disk, outputDir, pages[..|pages| - 1], stats);
    }
  }

  /** What was charged stays charged when the charge of p moves to a new entry. */
  lemma PublishCharges(c: Cache, id: nat, key: Key, e: Entry, q: Path, bytes: int)
    requires Charged(c, q, bytes) && id in c.loans && c.loans[id].dir != Some(q) && key !in c.entries
    ensures Charged(WithEntry(c, id, key, e), q, bytes)
  {
    var c' := WithEntry(c, id, key, e);
    if q.kind == JobDir && Lent(c, q, bytes) {
      var i :| i in c.loans && c.loans[i].dir == Some(q) && bytes <= c.loans[i].bytes;
      assert i != id && c'.loans[i] == c.loans[i];
    }
  }

  /** Publishing: the output files become the entry, the input stays with the reservation. */
  lemma PublishKeeps(w: World, id: nat, key: Key, e: Entry, pages: seq<PageRef>)
    requires Inv(w) && id in w.cache.loans && key !in w.cache.entries && WellFormedKey(key.text)
    requires w.cache.loans[id].dir.Some? && w.cache.loans[id].dir.value in w.disk
    requires var p := w.cache.loans[id].dir.value;
             p.kind == JobDir && OutputsExact(w.disk[p], pages) && DirBytes(w.disk[p]) <= w.cache.loans[id].bytes
    requires e.root == EntryRoot(w.cache, key) && e.total == Sizes(pages) && e.active == 0
    requires 0 <= e.total <= w.cache.loans[id].bytes
    ensures Inv(World(WithEntry(w.cache, id, key, e), Publish(w.disk, w.cache.loans[id].dir.value, e.root)))
  {
    var c, p := w.cache, w.cache.loans[id].dir.value;
    hide OutputsExact, DirBytes, Sizes, WellFormedKey, PinnedIntact, Ledger, Covered;
    var c', disk := WithEntry(c, id, key, e), Publish(w.disk, p, e.root);
    MoveCharge(c, id, key, e);
    ExactListing(w.disk[p], pages);
    PublishCovered(w, id, key, e, p, disk);
    PublishFresh(c, id, key, e);
    PublishPinned(w, disk, key, e);
  }

  lemma PublishCovered(w: World, id: nat, key: Key, e: Entry, p: Path, disk: Disk)
    requires Covered(w) && id in w.cache.loans && w.cache.loans[id].dir == Some(p) && p.kind == JobDir && p in w.disk
    requires key !in w.cache.entries && e.root == EntryRoot(w.cache, key) && disk == Publish(w.disk, p, e.root)
    requires forall i :: i in w.cache.loans && i != id ==> w.cache.loans[i].dir != Some(p)
    requires DirBytes(Outputs(w.disk[p])) == e.total && DirBytes(Inputs(w.disk[p])) <= w.cache.loans[id].bytes - e.total
    ensures Covered(World(WithEntry(w.cache, id, key, e), disk))
  {
    hide DirBytes;
    var c, c' := w.cache, WithEntry(w.cache, id, key, e);
    forall q | q in disk && q.root == c'.root ensures Charged(c', q, DirBytes(disk[q])) {
      if q == p {
        assert c'.loans[id].dir == Some(p);
        assert Lent(c', p, DirBytes(disk[p]));
      } else if q != e.root {
        assert Charged(c, q, DirBytes(w.disk[q]));
        PublishCharges(c, id, key, e, q, DirBytes(w.disk[q]));
      }
    }
  }

  lemma PublishFresh(c: Cache, id: nat, key: Key, e: Entry)
    requires FreshDirs(c)
    ensures FreshDirs(WithEntry(c, id, key, e))
  {
  }

  lemma PublishPinned(w: World, disk: Disk, key: Key, e: Entry)
    requires Ledger(w.cache) && PinnedIntact(w) && key !in w.cache.entries && e.active == 0
    requires forall q :: q in w.disk && q.kind == EntryDir && q != EntryRoot(w.cache, key) ==>
               q in disk && disk[q] == w.disk[q]
    ensures PinnedIntact(World(w.cache.(entries := w.cache.entries[key := e]), disk))
  {
    var c := w.cache;
    var entries := c.entries[key := e];
    forall k | k in entries && entries[k].active > 0 ensures PagesOnDisk(disk, entries[k]) {
      assert k != key && SoundEntry(c, k, c.entries[k]);
      PagesStay(w.disk, disk, c.entries[k], entries[k]);
    }
  }

  /**
   Commit keeps the invariant, whatever its result: the extractor's listing must be exact, as
   `Extraction.Extract` leaves it.
   */
  lemma CommitKeeps(w: World, id: nat, key: Key, unvalidated: bool, outputDir: Path, pages: seq<PageRef>, now: int,
                    io: CommitIo, faults: Faults)
    requires Inv(w)
    requires id in w.cache.loans ==>
               && w.cache.loans[id].dir == Some(outputDir) && outputDir.kind == JobDir && outputDir in w.disk
               && OutputsExact(w.disk[outputDir], pages) && DirBytes(w.disk[outputDir]) <= w.cache.loans[id].bytes
    ensures Inv(Commit(w, id, key, unvalidated, outputDir, pages, now, io, faults).0)
  {
    hide PagesOnDisk, Charged, SameOrRetired;
    var (w', result) := Commit(w, id, key, unvalidated, outputDir, pages, now, io, faults);
    var removed := Remove(w, key, faults);
    RemoveCalm(w, key, faults);
    CalmKeeps(w, removed);
    if result == Committed {
      AcceptedPages(w.disk, outputDir, pages, io.stats);
      assert !Exposed(w.cache, outputDir);
      PublishKeeps(removed, id, key, NewEntry(w.cache, key, unvalidated, pages, now), pages);
    }
  }

  /** A successful commit frees exactly the bytes of the entry it replaces. */
  lemma CommitConserves(w: World, id: nat, key: Key, unvalidated: bool, outputDir: Path, pages: seq<PageRef>, now: int,
                        io: CommitIo, faults: Faults)
    ensures var (w', result) := Commit(w, id, key, unvalidated, outputDir, pages, now, io, faults);
            result == Committed ==>
              && w'.cache.usedBytes + w'.cache.reserved == w.cache.usedBytes + w.cache.reserved
                 - (if key in w.cache.entries then w.cache.entries[key].total else 0)
              && (key in w.cache.entries ==> w.cache.entries[key].active <= 0)
              && key in w'.cache.entries && w'.cache.entries[key].total == Sizes(pages)
              && w'.cache.loans[id].bytes == w.cache.loans[id].bytes - Sizes(pages)
  {
  }

  // ----- Opening and closing -----

  lemma CloseKeeps(w: World, ranges: Ranges, faults: Faults)
    requires Inv(w)
    ensures Inv(Close(w, ranges, faults)) && Close(w, ranges, faults).cache.closed
    ensures Calm(w, Close(w, ranges, faults).(cache := Close(w, ranges, faults).cache.(closed := w.cache.closed)))
  {
    CalmRefl(w);
    if !w.cache.closed {
      var w1 := Evict(w, ranges.entries, faults);
      var w2 := RetryPending(w1, ranges.pending, faults);
      EvictKeeps(w, ranges.entries, faults);
      RetryPendingCalm(w1, ranges.pending, faults);
      CalmKeeps(w1, w2);
      CalmTrans(w, w1, w2);
      ClosedKeeps(w2);
    }
  }

  lemma ClosedKeeps(w: World)
    requires Inv(w)
    ensures Inv(w.(cache := w.cache.(closed := true)))
  {
    var c, c' := w.cache, w.cache.(closed := true);
    SameEntries(c, c');
    forall p | p in w.disk && p.root == c'.root ensures Charged(c', p, DirBytes(w.disk[p])) {
      assert Charged(c, p, DirBytes(w.disk[p]));
      assert Lent(c, p, DirBytes(w.disk[p])) ==> Lent(c', p, DirBytes(w.disk[p]));
    }
  }

  /** A cache opens on a cleared directory with empty books. */
  lemma NewCacheKeeps(root: nat, maxBytes: int, ttl: int, disk: Disk)
    requires maxBytes >= 0
    ensures Inv(World(NewCache(root, maxBytes, ttl), ClearRoot(disk, root)))
  {
    assert Totals(map[]) == map[] && LoanBytes(map[]) == map[];
  }
}
