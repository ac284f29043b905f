/**
 What every cache operation keeps: the ledger, the coverage of the disk by the ledger, and the
 integrity of pinned entries.
 */
module CacheProofs {
  import opened Sums
  import opened Options
  import opened Fingerprint
  import opened CacheModel

  // ----- Invariants -----

  ghost function Totals(entries: map<Key, Entry>): map<Key, int> {
    map k | k in entries :: entries[k].total
  }

  ghost function LoanBytes(loans: map<nat, Loan>): map<nat, int> {
    map i | i in loans :: loans[i].bytes
  }

  /** Job directories are fresh: no two reservations share one, and none is pending. */
  ghost predicate FreshDirs(c: Cache) {
    && (forall i :: i in c.loans && c.loans[i].dir.Some? ==> c.loans[i].dir.value !in c.pending)
    && (forall i, j :: i in c.loans && j in c.loans && i != j && c.loans[i].dir.Some? ==>
      c.loans[i].dir != c.loans[j].dir)
  }

  ghost predicate SoundEntry(c: Cache, key: Key, e: Entry) {
    e.root == EntryRoot(c, key) && WellFormedKey(key.text) && e.total >= 0 && e.active >= 0
  }

  /** The books: each counter is the sum of what it charges, and the sum never exceeds the budget. */
  ghost predicate Ledger(c: Cache) {
    && c.usedBytes == Sum(Totals(c.entries))
    && c.reserved == Sum(LoanBytes(c.loans)) + Sum(c.pending)
    && c.usedBytes + c.reserved <= c.maxBytes
    && (forall k :: k in c.entries ==> SoundEntry(c, k, c.entries[k]))
    && (forall i :: i in c.loans ==> c.loans[i].bytes >= 0)
    && (forall p :: p in c.pending ==> c.pending[p] >= 0)
  }

  /** p is the directory of a reservation that still charges at least `bytes`. */
  ghost predicate Lent(c: Cache, p: Path, bytes: int) {
    exists i :: i in c.loans && c.loans[i].dir == Some(p) && bytes <= c.loans[i].bytes
  }

  ghost predicate Charged(c: Cache, p: Path, bytes: int) {
    match p.kind
    case EntryDir => p.name in c.entries && bytes <= c.entries[p.name].total
    case JobDir => (p in c.pending && bytes <= c.pending[p]) || Lent(c, p, bytes)
    case OtherDir => true
  }

  /** Every plugin directory on disk is charged for at least the bytes it holds. */
  ghost predicate Covered(w: World) {
    forall p :: p in w.disk && p.root == w.cache.root ==> Charged(w.cache, p, DirBytes(w.disk[p]))
  }

  /** The pages of a pinned entry are on disk, whole. */
  ghost predicate PinnedIntact(w: World) {
    forall k :: k in w.cache.entries && w.cache.entries[k].active > 0 ==> PagesOnDisk(w.disk, w.cache.entries[k])
  }

  ghost predicate Inv(w: World) {
    Ledger(w.cache) && FreshDirs(w.cache) && Covered(w) && PinnedIntact(w)
  }

  // ----- Steps that only take away -----

  /** e' is e, possibly retired. */
  ghost predicate SameOrRetired(e: Entry, e': Entry) {
    e' == e.(retired := e'.retired) && (e.retired ==> e'.retired)
  }

  /**
   Entries may be retired, and those without a handle removed together with their directory;
   pending deletions may succeed; nothing else changes.
   */
  ghost predicate Calm(w: World, w': World) {
    var c, c' := w.cache, w'.cache;
    && c'.root == c.root && c'.maxBytes == c.maxBytes && c'.fallbackTtl == c.fallbackTtl
    && c'.loans == c.loans && c'.closed == c.closed
    && (forall k :: k in c'.entries ==> k in c.entries && SameOrRetired(c.entries[k], c'.entries[k]))
    && (forall k :: k in c.entries && k !in c'.entries ==>
      c.entries[k].active <= 0 && c.entries[k].root !in w'.disk)
    && (forall p :: p in c'.pending ==> p in c.pending && c'.pending[p] == c.pending[p])
    && (forall p :: p in c.pending && p !in c'.pending ==> p !in w'.disk)
    && (forall p :: p in w'.disk ==> p in w.disk && DirBytes(w'.disk[p]) <= DirBytes(w.disk[p]))
    && (forall p :: p in w.disk && !Exposed(c, p) ==> p in w'.disk && w'.disk[p] == w.disk[p])
    && (forall p :: p in c'.pending && p.kind == JobDir && p in w.disk ==> p in w'.disk)
  }

  /** A directory that a deletion may touch: an unpinned entry's or a pending one. */
  ghost predicate Exposed(c: Cache, p: Path) {
    (p.kind == JobDir && p in c.pending) || (p.root == c.root && p.kind == EntryDir && p.name in c.entries
        && c.entries[p.name].active <= 0)
  }

  lemma CalmRefl(w: World)
    ensures Calm(w, w)
  {
  }

  lemma ExposedStays(w: World, w': World, p: Path)
    requires Calm(w, w') && Exposed(w'.cache, p)
    ensures Exposed(w.cache, p)
  {
  }

  lemma CalmTrans(w0: World, w1: World, w2: World)
    requires Calm(w0, w1) && Calm(w1, w2)
    ensures Calm(w0, w2)
  {
    forall p | p in w0.disk && !Exposed(w0.cache, p) ensures p in w2.disk && w2.disk[p] == w0.disk[p] {
      if Exposed(w1.cache, p) {
        ExposedStays(w0, w1, p);
      }
    }
  }

  lemma SurvivorBytes(d: Dir, kept: set<FileName>)
    ensures DirBytes(Survivors(d, kept)) <= DirBytes(d)
  {
    SumMonotone(Survivors(d, kept), d);
  }

  lemma RemoveDirShrinks(disk: Disk, p: Path, faults: Faults)
    ensures forall q :: q in RemoveDir(disk, p, faults) ==>
              q in disk && DirBytes(RemoveDir(disk, p, faults)[q]) <= DirBytes(disk[q])
  {
    if p in faults && p in disk {
      SurvivorBytes(disk[p], faults[p]);
    }
  }

  lemma RemoveTotals(entries: map<Key, Entry>, key: Key)
    requires key in entries
    ensures Sum(Totals(entries - {key})) == Sum(Totals(entries)) - entries[key].total
  {
    assert Totals(entries - {key}) == Totals(entries) - {key};
    SumRemove(Totals(entries), key);
  }

  lemma RetireTotals(entries: map<Key, Entry>, key: Key, e: Entry)
    requires key in entries && e.total == entries[key].total
    ensures Totals(entries[key := e]) == Totals(entries)
  {
  }

  lemma RemoveLedger(w: World, key: Key, faults: Faults)
    requires Ledger(w.cache)
    ensures Ledger(Remove(w, key, faults).cache)
  {
    if key in w.cache.entries {
      var c, e := w.cache, w.cache.entries[key];
      var c' := Remove(w, key, faults).cache;
      if Removable(c, e, faults) {
        RemoveTotals(c.entries, key);
      } else {
        RetireTotals(c.entries, key, e.(retired := true));
      }
      forall k | k in c'.entries ensures SoundEntry(c', k, c'.entries[k]) {
        assert SoundEntry(c, k, c.entries[k]);
      }
    }
  }

  lemma DeleteCalm(w: World, key: Key, faults: Faults)
    requires key in w.cache.entries && SoundEntry(w.cache, key, w.cache.entries[key])
    requires Removable(w.cache, w.cache.entries[key], faults)
    ensures Calm(w, Remove(w, key, faults))
  {
    RemoveDirShrinks(w.disk, w.cache.entries[key].root, faults);
  }

  lemma RetireCalm(w: World, key: Key, faults: Faults)
    requires key in w.cache.entries && SoundEntry(w.cache, key, w.cache.entries[key])
    requires !Removable(w.cache, w.cache.entries[key], faults)
    ensures Calm(w, Remove(w, key, faults))
  {
    hide DirBytes, WellFormedKey;
    RemoveDirShrinks(w.disk, w.cache.entries[key].root, faults);
  }

  /** Deleting or retiring one entry. */
  lemma RemoveCalm(w: World, key: Key, faults: Faults)
    requires Ledger(w.cache)
    ensures Ledger(Remove(w, key, faults).cache) && Calm(w, Remove(w, key, faults))
  {
    RemoveLedger(w, key, faults);
    if key in w.cache.entries {
      assert SoundEntry(w.cache, key, w.cache.entries[key]);
      if Removable(w.cache, w.cache.entries[key], faults) {
        DeleteCalm(w, key, faults);
      } else {
        RetireCalm(w, key, faults);
      }
    }
  }

  lemma DropPendingLedger(w: World, p: Path, faults: Faults)
    requires Ledger(w.cache)
    ensures Ledger(DropPending(w, p, faults).cache)
  {
    var c, c' := w.cache, DropPending(w, p, faults).cache;
    if p in c.pending {
      SumRemove(c.pending, p);
    }
    forall k | k in c'.entries ensures SoundEntry(c', k, c'.entries[k]) {
      assert SoundEntry(c, k, c.entries[k]);
    }
  }

  /** Retrying one pending deletion. */
  lemma DropPendingCalm(w: World, p: Path, faults: Faults)
    ensures Calm(w, DropPending(w, p, faults))
  {
    hide DirBytes;
    RemoveDirShrinks(w.disk, p, faults);
  }

  lemma {:induction false} RetryPendingCalm(w: World, order: seq<Path>, faults: Faults)
    requires Ledger(w.cache)
    ensures Ledger(RetryPending(w, order, faults).cache) && Calm(w, RetryPending(w, order, faults))
  {
    if order == [] {
      CalmRefl(w);
    } else {
      var most := order[..|order| - 1];
      var w' := RetryPending(w, most, faults);
      RetryPendingCalm(w, most, faults);
      DropPendingLedger(w', order[|order| - 1], faults);
      DropPendingCalm(w', order[|order| - 1], faults);
      CalmTrans(w, w', RetryPending(w, order, faults));
    }
  }

  lemma {:induction false} SweepEntriesCalm(w: World, order: seq<Key>, now: int, faults: Faults)
    requires Ledger(w.cache)
    ensures Ledger(SweepEntries(w, order, now, faults).cache) && Calm(w, SweepEntries(w, order, now, faults))
  {
    if order == [] {
      CalmRefl(w);
    } else {
      var most := order[..|order| - 1];
      var w' := SweepEntries(w, most, now, faults);
      SweepEntriesCalm(w, most, now, faults);
      RemoveCalm(w', order[|order| - 1], faults);
      CalmRefl(w');
      CalmTrans(w, w', SweepEntries(w, order, now, faults));
    }
  }

  lemma SweepCalm(w: World, ranges: Ranges, now: int, faults: Faults)
    requires Ledger(w.cache)
    ensures Ledger(Sweep(w, ranges, now, faults).cache) && Calm(w, Sweep(w, ranges, now, faults))
  {
    var w' := RetryPending(w, ranges.pending, faults);
    RetryPendingCalm(w, ranges.pending, faults);
    SweepEntriesCalm(w', ranges.entries, now, faults);
    CalmTrans(w, w', Sweep(w, ranges, now, faults));
  }

  lemma {:induction false} EvictCalm(w: World, victims: seq<Key>, faults: Faults)
    requires Ledger(w.cache)
    ensures Ledger(Evict(w, victims, faults).cache) && Calm(w, Evict(w, victims, faults))
  {
    if victims == [] {
      CalmRefl(w);
    } else {
      var most := victims[..|victims| - 1];
      var w' := Evict(w, most, faults);
      EvictCalm(w, most, faults);
      RemoveCalm(w', victims[|victims| - 1], faults);
      CalmTrans(w, w', Evict(w, victims, faults));
    }
  }

  /** What stays on disk stays charged. */
  lemma CalmCharged(w: World, w': World, p: Path)
    requires Ledger(w.cache) && Covered(w) && Calm(w, w') && p in w'.disk && p.root == w'.cache.root
    ensures Charged(w'.cache, p, DirBytes(w'.disk[p]))
  {
    var c, c' := w.cache, w'.cache;
    assert Charged(c, p, DirBytes(w.disk[p]));
    if p.kind == EntryDir {
      assert SoundEntry(c, p.name, c.entries[p.name]);
      assert p.name in c'.entries;
      assert SameOrRetired(c.entries[p.name], c'.entries[p.name]);
    } else if p.kind == JobDir && Lent(c, p, DirBytes(w.disk[p])) {
      var i :| i in c.loans && c.loans[i].dir == Some(p) && DirBytes(w.disk[p]) <= c.loans[i].bytes;
      assert i in c'.loans;
    }
  }

  lemma PagesStay(disk: Disk, disk': Disk, e: Entry, e': Entry)
    requires PagesOnDisk(disk, e) && e'.root == e.root && e'.pages == e.pages
    requires e.root in disk ==> e.root in disk' && disk'[e.root] == disk[e.root]
    ensures PagesOnDisk(disk', e')
  {
    forall i | 0 <= i < |e'.pages| ensures PageThere(disk', e'.root, e'.pages[i]) {
      assert PageThere(disk, e.root, e.pages[i]);
    }
  }

  lemma CalmPinned(w: World, w': World, k: Key)
    requires Ledger(w.cache) && PinnedIntact(w) && Calm(w, w') && k in w'.cache.entries
             && w'.cache.entries[k].active > 0
    ensures PagesOnDisk(w'.disk, w'.cache.entries[k])
  {
    var e := w.cache.entries[k];
    assert SameOrRetired(e, w'.cache.entries[k]) && SoundEntry(w.cache, k, e);
    assert !Exposed(w.cache, e.root);
    PagesStay(w.disk, w'.disk, e, w'.cache.entries[k]);
  }

  lemma CalmFresh(c: Cache, c': Cache)
    requires FreshDirs(c) && c'.loans == c.loans && forall p :: p in c'.pending ==> p in c.pending
    ensures FreshDirs(c')
  {
  }

  lemma CalmCovered(w: World, w': World)
    requires Ledger(w.cache) && Covered(w) && Calm(w, w')
    ensures Covered(w')
  {
    forall p | p in w'.disk && p.root == w'.cache.root ensures Charged(w'.cache, p, DirBytes(w'.disk[p])) {
      CalmCharged(w, w', p);
    }
  }

  lemma CalmIntact(w: World, w': World)
    requires Ledger(w.cache) && PinnedIntact(w) && Calm(w, w')
    ensures PinnedIntact(w')
  {
    hide Calm, Ledger, PagesOnDisk;
    forall k | k in w'.cache.entries && w'.cache.entries[k].active > 0
      ensures PagesOnDisk(w'.disk, w'.cache.entries[k]) {
      CalmPinned(w, w', k);
    }
  }

  /** Such steps keep the disk covered and pinned pages whole. */
  lemma CalmKeeps(w: World, w': World)
    requires Inv(w) && Calm(w, w') && Ledger(w'.cache)
    ensures Inv(w')
  {
    hide Ledger, Covered, PinnedIntact, FreshDirs;
    CalmFresh(w.cache, w'.cache);
    CalmCovered(w, w');
    CalmIntact(w, w');
  }
}
