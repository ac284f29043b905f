/** What the invariant and the operations mean: bytes on disk, eviction order, sweeps, pins and expiry. */
module CacheProperties {
  import opened Sums
  import opened Options
  import opened CacheModel
  import opened CacheProofs
  import opened CacheOperations

  // ----- Bytes on disk -----

  /** All bytes under the plugin's job and entry directories. */
  ghost function OwnedBytes(disk: Disk, root: nat): int {
    Sum(OwnedSizes(disk, root))
  }

  ghost function OwnedSizes(disk: Disk, root: nat): map<Path, int> {
    map p | p in disk && PluginDir(p, root) :: DirBytes(disk[p])
  }

  ghost function EntryCharges(c: Cache): map<Path, int> {
    map k | k in c.entries :: EntryRoot(c, k) := c.entries[k].total
  }

  ghost function PendingCharges(c: Cache): map<Path, int> {
    map p | p in c.pending && p.kind == JobDir :: c.pending[p]
  }

  predicate HasJobDir(loan: Loan) {
    loan.dir.Some? && loan.dir.value.kind == JobDir
  }

  ghost function LoanDirs(c: Cache): map<nat, Path> {
    map i | i in c.loans && HasJobDir(c.loans[i]) :: c.loans[i].dir.value
  }

  ghost function LentBytes(c: Cache): map<nat, int> {
    map i | i in c.loans && HasJobDir(c.loans[i]) :: c.loans[i].bytes
  }

  ghost function LoanCharges(c: Cache): map<Path, int>
    requires FreshDirs(c)
  {
    map i | i in c.loans && HasJobDir(c.loans[i]) :: c.loans[i].dir.value := c.loans[i].bytes
  }

  lemma EntryChargesSum(c: Cache)
    ensures Sum(EntryCharges(c)) == Sum(Totals(c.entries))
  {
    var roots := map k | k in c.entries :: EntryRoot(c, k);
    forall p | p in EntryCharges(c) ensures p in roots.Values {
      assert roots[p.name] == p;
    }
    SumReindex(Totals(c.entries), EntryCharges(c), roots);
  }

  lemma LoanChargesSum(c: Cache)
    requires FreshDirs(c) && forall i :: i in c.loans ==> c.loans[i].bytes >= 0
    ensures Sum(LoanCharges(c)) <= Sum(LoanBytes(c.loans))
  {
    var dirs := LoanDirs(c);
    forall p | p in LoanCharges(c) ensures p in dirs.Values {
      var i :| i in c.loans && HasJobDir(c.loans[i]) && c.loans[i].dir.value == p;
      assert dirs[i] == p;
    }
    SumReindex(LentBytes(c), LoanCharges(c), dirs);
    SumMonotone(LentBytes(c), LoanBytes(c.loans));
  }

  /** The charges, one per directory. */
  ghost function Charges(c: Cache): map<Path, int>
    requires FreshDirs(c)
  {
    EntryCharges(c) + (PendingCharges(c) + LoanCharges(c))
  }

  lemma JobChargesSum(c: Cache)
    requires FreshDirs(c)
    ensures Sum(PendingCharges(c) + LoanCharges(c)) == Sum(PendingCharges(c)) + Sum(LoanCharges(c))
    ensures forall p :: p in PendingCharges(c) + LoanCharges(c) ==> p.kind == JobDir
  {
    var pending, lent := PendingCharges(c), LoanCharges(c);
    forall p | p in lent ensures p !in pending && p.kind == JobDir {
      var i :| i in c.loans && HasJobDir(c.loans[i]) && c.loans[i].dir.value == p;
    }
    SumParts(pending + lent, pending, lent);
  }

  lemma ChargesSum(c: Cache)
    requires FreshDirs(c)
    ensures Sum(Charges(c)) == Sum(EntryCharges(c)) + Sum(PendingCharges(c)) + Sum(LoanCharges(c))
  {
    JobChargesSum(c);
    var entries, jobs := EntryCharges(c), PendingCharges(c) + LoanCharges(c);
    SumParts(Charges(c), entries, jobs);
  }

  lemma ChargesWithinLedger(c: Cache)
    requires Ledger(c) && FreshDirs(c)
    ensures Sum(Charges(c)) <= c.usedBytes + c.reserved
  {
    ChargesSum(c);
    EntryChargesSum(c);
    LoanChargesSum(c);
    SumMonotone(PendingCharges(c), c.pending);
  }

  lemma ChargesNonNegative(c: Cache, p: Path)
    requires Ledger(c) && FreshDirs(c) && p in Charges(c)
    ensures Charges(c)[p] >= 0
  {
    if p in LoanCharges(c) {
      var i :| i in c.loans && HasJobDir(c.loans[i]) && c.loans[i].dir.value == p;
    } else if p !in PendingCharges(c) {
      assert SoundEntry(c, p.name, c.entries[p.name]);
    }
  }

  lemma LentWithin(c: Cache, p: Path, bytes: int)
    requires FreshDirs(c) && p.kind == JobDir && Lent(c, p, bytes)
    ensures p in Charges(c) && bytes <= Charges(c)[p]
  {
    var i :| i in c.loans && c.loans[i].dir == Some(p) && bytes <= c.loans[i].bytes;
    assert HasJobDir(c.loans[i]) && c.loans[i].dir.value == p;
    assert p in LoanCharges(c);
  }

  lemma PendingWithin(c: Cache, p: Path, bytes: int)
    requires FreshDirs(c) && p.kind == JobDir && p in c.pending && bytes <= c.pending[p]
    ensures p in Charges(c) && bytes <= Charges(c)[p]
  {
    assert p !in LoanCharges(c);
  }

  lemma EntryWithin(c: Cache, p: Path, bytes: int)
    requires FreshDirs(c) && p.kind == EntryDir && p.root == c.root && p.name in c.entries
    requires bytes <= c.entries[p.name].total
    ensures p in Charges(c) && bytes <= Charges(c)[p]
  {
    JobChargesSum(c);
    assert EntryRoot(c, p.name) == p;
    assert p in EntryCharges(c);
  }

  lemma ChargedWithin(c: Cache, p: Path, bytes: int)
    requires FreshDirs(c) && Charged(c, p, bytes) && PluginDir(p, c.root)
    ensures p in Charges(c) && bytes <= Charges(c)[p]
  {
    if p.kind == EntryDir {
      EntryWithin(c, p, bytes);
    } else if p in c.pending && bytes <= c.pending[p] {
      PendingWithin(c, p, bytes);
    } else {
      LentWithin(c, p, bytes);
    }
  }

  /** The bytes on disk never exceed what is charged, and that never exceeds the budget. */
  lemma DiskWithinBudget(w: World)
    requires Ledger(w.cache) && FreshDirs(w.cache) && Covered(w)
    ensures OwnedBytes(w.disk, w.cache.root) <= w.cache.usedBytes + w.cache.reserved <= w.cache.maxBytes
  {
    var c := w.cache;
    ChargesWithinLedger(c);
    forall p | p in OwnedSizes(w.disk, c.root)
      ensures p in Charges(c) && OwnedSizes(w.disk, c.root)[p] <= Charges(c)[p]
    {
      ChargedWithin(c, p, DirBytes(w.disk[p]));
    }
    forall p | p in Charges(c) ensures Charges(c)[p] >= 0 {
      ChargesNonNegative(c, p);
    }
    SumMonotone(OwnedSizes(w.disk, c.root), Charges(c));
  }

  // ----- Pins -----

  /** No step that only takes away touches a pinned entry, in the map or on disk. */
  lemma PinnedEntryStays(w: World, w': World, key: Key)
    requires Inv(w) && Calm(w, w') && key in w.cache.entries && w.cache.entries[key].active > 0
    ensures key in w'.cache.entries && w'.cache.entries[key].active == w.cache.entries[key].active
    ensures w'.cache.entries[key].pages == w.cache.entries[key].pages
    ensures PagesOnDisk(w'.disk, w'.cache.entries[key])
    ensures var root := w.cache.entries[key].root;
            root in w.disk ==> root in w'.disk && w'.disk[root] == w.disk[root]
  {
    var e := w.cache.entries[key];
    assert SoundEntry(w.cache, key, e) && !Exposed(w.cache, e.root);
    assert key in w'.cache.entries && SameOrRetired(e, w'.cache.entries[key]);
    PagesStay(w.disk, w'.disk, e, w'.cache.entries[key]);
  }

  /** A same-key commit is refused while the entry is pinned, and leaves everything as it is. */
  lemma CommitRespectsPins(w: World, id: nat, key: Key, unvalidated: bool, outputDir: Path, pages: seq<PageRef>,
                           now: int, io: CommitIo, faults: Faults)
    requires key in w.cache.entries && w.cache.entries[key].active > 0
    ensures var (w', result) := Commit(w, id, key, unvalidated, outputDir, pages, now, io, faults);
            result != Committed && w' == w
  {
  }

  // ----- Sweeps -----

  /** What a sweep at `now` may leave of an entry that is retired or expired. */
  ghost predicate SweptUp(w: World, key: Key, now: int, faults: Faults) {
    key in w.cache.entries && (w.cache.entries[key].retired || Expired(w.cache.entries[key], now)) ==>
      w.cache.entries[key].retired && (w.cache.entries[key].active > 0 || w.cache.entries[key].root in faults)
  }

  lemma SweepEntryDone(w: World, key: Key, now: int, faults: Faults)
    requires Ledger(w.cache)
    ensures SweptUp(SweepEntry(w, key, now, faults), key, now, faults)
  {
    if key in w.cache.entries {
      assert SoundEntry(w.cache, key, w.cache.entries[key]);
    }
  }

  lemma SweepEntryOther(w: World, last: Key, now: int, faults: Faults, key: Key)
    requires key != last && SweptUp(w, key, now, faults)
    ensures SweptUp(SweepEntry(w, last, now, faults), key, now, faults)
  {
  }

  lemma {:induction false} SweepEntriesComplete(w: World, order: seq<Key>, now: int, faults: Faults, key: Key)
    requires Ledger(w.cache) && key in order
    ensures SweptUp(SweepEntries(w, order, now, faults), key, now, faults)
  {
    var most, last := order[..|order| - 1], order[|order| - 1];
    var w' := SweepEntries(w, most, now, faults);
    SweepEntriesCalm(w, most, now, faults);
    if key == last {
      SweepEntryDone(w', key, now, faults);
    } else {
      SweepEntriesComplete(w, most, now, faults, key);
      SweepEntryOther(w', last, now, faults, key);
    }
  }

  /**
   After a sweep every retired or expired entry that is still there is pinned or its deletion
   failed, and every pending directory that is still there failed again or is not the plugin's.
   */
  lemma SweepComplete(w: World, ranges: Ranges, now: int, faults: Faults)
    requires Ledger(w.cache) && RangesOver(ranges, w)
    ensures var w' := Sweep(w, ranges, now, faults);
            && (forall key :: SweptUp(w', key, now, faults))
            && (forall p :: p in w'.cache.pending ==> p in faults || !Owned(w.cache, p, JobDir))
  {
    var w0, w' := RetryPending(w, ranges.pending, faults), Sweep(w, ranges, now, faults);
    RetryPendingCalm(w, ranges.pending, faults);
    SweepEntriesCalm(w0, ranges.entries, now, faults);
    forall key ensures SweptUp(w', key, now, faults) {
      if key in w'.cache.entries {
        assert key in w0.cache.entries && key in w.cache.entries;
        SweepEntriesComplete(w0, ranges.entries, now, faults, key);
      }
    }
    forall p | p in w'.cache.pending ensures p in faults || !Owned(w.cache, p, JobDir) {
      assert p in w0.cache.pending && p in w.cache.pending;
      RetryPendingComplete(w, ranges.pending, faults, p);
    }
  }

  lemma {:induction false} RetryPendingComplete(w: World, order: seq<Path>, faults: Faults, p: Path)
    requires Ledger(w.cache) && p in order && p in RetryPending(w, order, faults).cache.pending
    ensures p in faults || !Owned(w.cache, p, JobDir)
  {
    var most, last := order[..|order| - 1], order[|order| - 1];
    var w' := RetryPending(w, most, faults);
    RetryPendingCalm(w, most, faults);
    if p != last {
      RetryPendingComplete(w, most, faults, p);
    }
  }

  // ----- Eviction -----

  /** What was idle when an earlier victim was chosen and is idle later was used no earlier than that victim. */
  lemma EarlierVictim(w: World, w': World, i: Key, j: Key)
    requires Calm(w, w') && OldestIdle(w.cache, i) && OldestIdle(w'.cache, j)
    ensures j in w.cache.entries && w.cache.entries[i].lastUsed <= w.cache.entries[j].lastUsed
    ensures w'.cache.entries[j].lastUsed == w.cache.entries[j].lastUsed
  {
    assert SameOrRetired(w.cache.entries[j], w'.cache.entries[j]);
  }

  /** Victims are tried from the least recently used on: their times of use never decrease. */
  lemma VictimsInOrder(w: World, incoming: int, victims: seq<Key>, faults: Faults, i: nat, j: nat)
    requires Ledger(w.cache) && i < j < |victims| && LruPrefix(w, incoming, victims, |victims|, faults)
    ensures victims[i] in w.cache.entries && victims[j] in w.cache.entries
    ensures w.cache.entries[victims[i]].lastUsed <= w.cache.entries[victims[j]].lastUsed
  {
    var wi, wj := Evict(w, victims[..i], faults), Evict(w, victims[..j], faults);
    assert OldestIdle(wi.cache, victims[i]) && OldestIdle(wj.cache, victims[j]);
    EvictCalm(w, victims[..i], faults);
    EvictSuffix(w, victims, i, j, faults);
    EvictCalm(wi, victims[i..j], faults);
    EarlierVictim(wi, wj, victims[i], victims[j]);
    assert SameOrRetired(w.cache.entries[victims[i]], wi.cache.entries[victims[i]]);
    assert SameOrRetired(w.cache.entries[victims[j]], wi.cache.entries[victims[j]]);
  }

  /** Evicting a prefix and then the rest is evicting them all. */
  lemma {:induction false} EvictSuffix(w: World, victims: seq<Key>, i: nat, j: nat, faults: Faults)
    requires i <= j <= |victims|
    ensures Evict(Evict(w, victims[..i], faults), victims[i..j], faults) == Evict(w, victims[..j], faults)
    decreases j
  {
    if i < j {
      EvictSuffix(w, victims, i, j - 1, faults);
      assert victims[i..j][..j - i - 1] == victims[i..j - 1] && victims[i..j][j - i - 1] == victims[j - 1];
      assert victims[..j][..j - 1] == victims[..j - 1] && victims[..j][j - 1] == victims[j - 1];
    }
  }

  /** Eviction is complete: when bytes still do not fit, every entry left is pinned or retired. */
  lemma RefusedReserveIsFull(w: World, id: nat, bytes: int, now: int, ranges: Ranges, victims: seq<Key>, faults: Faults)
    requires Inv(w) && 1 <= bytes <= w.cache.maxBytes && !w.cache.closed
    requires ReserveChoice(w, bytes, now, ranges, victims, faults)
    requires |Sweep(w, ranges, now, faults).cache.pending| < 128
    ensures var (w', ok) := Reserve(w, id, bytes, now, ranges, victims, faults);
            !ok ==>
              && w'.cache.usedBytes + w'.cache.reserved + bytes > w'.cache.maxBytes
              && forall k :: k in w'.cache.entries ==> w'.cache.entries[k].active > 0 || w'.cache.entries[k].retired
  {
    var swept := Sweep(w, ranges, now, faults);
    SweepKeeps(w, ranges, now, faults);
    EvictKeeps(swept, victims, faults);
    EvictKeepsPending(swept, victims, faults);
  }

  lemma {:induction false} EvictKeepsPending(w: World, victims: seq<Key>, faults: Faults)
    ensures Evict(w, victims, faults).cache.pending == w.cache.pending
  {
    if victims != [] {
      EvictKeepsPending(w, victims[..|victims| - 1], faults);
    }
  }

  lemma RemoveSwept(w: World, victim: Key, now: int, faults: Faults, key: Key)
    requires Ledger(w.cache) && SweptUp(w, key, now, faults)
    ensures SweptUp(Remove(w, victim, faults), key, now, faults)
  {
    if victim in w.cache.entries {
      assert SoundEntry(w.cache, victim, w.cache.entries[victim]);
    }
  }

  lemma {:induction false} EvictSwept(w: World, victims: seq<Key>, now: int, faults: Faults, key: Key)
    requires Ledger(w.cache) && SweptUp(w, key, now, faults)
    ensures SweptUp(Evict(w, victims, faults), key, now, faults)
  {
    hide SweptUp, Remove;
    if victims != [] {
      var most := victims[..|victims| - 1];
      EvictSwept(w, most, now, faults, key);
      EvictCalm(w, most, faults);
      RemoveSwept(Evict(w, most, faults), victims[|victims| - 1], now, faults, key);
    }
  }

  /** What reserve leaves is swept: nothing retired or expired is left that could be deleted. */
  lemma ReserveSweeps(w: World, id: nat, bytes: int, now: int, ranges: Ranges, victims: seq<Key>, faults: Faults,
                      key: Key)
    requires Inv(w) && InRange(w.cache, bytes) && !w.cache.closed && RangesOver(ranges, w)
    ensures SweptUp(Reserve(w, id, bytes, now, ranges, victims, faults).0, key, now, faults)
  {
    hide SweptUp, Sweep, Ledger, Covered, PinnedIntact, FreshDirs, Grants;
    var swept, w0 := Sweep(w, ranges, now, faults), ReserveState(w, bytes, now, ranges, victims, faults);
    SweepKeeps(w, ranges, now, faults);
    SweepComplete(w, ranges, now, faults);
    EvictSwept(swept, victims, now, faults, key);
    SameEntriesSwept(w0, Reserve(w, id, bytes, now, ranges, victims, faults).0, key, now, faults);
  }

  /**
   What an in-range reserve on an open cache comes to: a grant is one new reservation within the
   budget; a refusal means that too many cleanups are pending, or that the bytes do not fit with
   every entry left pinned or retired.
   */
  lemma ReserveDecides(w: World, id: nat, bytes: int, now: int, ranges: Ranges, victims: seq<Key>, faults: Faults)
    requires Inv(w) && 1 <= bytes <= w.cache.maxBytes && !w.cache.closed
    requires ReserveChoice(w, bytes, now, ranges, victims, faults)
    ensures var (w', ok) := Reserve(w, id, bytes, now, ranges, victims, faults);
            && (ok ==> w'.cache.loans == w.cache.loans[id := Loan(bytes, None, false)])
            && (ok ==> w'.cache.usedBytes + w'.cache.reserved <= w.cache.maxBytes)
            && (!ok ==> w'.cache.loans == w.cache.loans)
            && (!ok ==>
              || |w'.cache.pending| >= 128
              || (&& w'.cache.usedBytes + w'.cache.reserved + bytes > w'.cache.maxBytes
                  && forall k :: k in w'.cache.entries
                      ==> w'.cache.entries[k].active > 0 || w'.cache.entries[k].retired))
  {
    hide Sweep, Inv, LruRun;
    ReserveStateKeeps(w, bytes, now, ranges, victims, faults);
    if |Sweep(w, ranges, now, faults).cache.pending| < 128 {
      RefusedReserveIsFull(w, id, bytes, now, ranges, victims, faults);
    }
  }

  lemma SameEntriesSwept(w: World, w': World, key: Key, now: int, faults: Faults)
    requires w'.cache.entries == w.cache.entries && SweptUp(w, key, now, faults)
    ensures SweptUp(w', key, now, faults)
  {
  }

  /**
   The last two acts of a successful job, its commit and a release that deletes the job directory:
   of its reservation exactly the published pages stay charged, the replaced entry is freed, and
   only the entry is left of the job directory.
   */
  lemma JobConserves(w: World, id: nat, key: Key, unvalidated: bool, dir: Path, pages: seq<PageRef>, now: int,
                     io: CommitIo, faults: Faults, faults': Faults)
    requires Ledger(w.cache) && id in w.cache.loans && w.cache.loans[id].dir == Some(dir) && Owned(w.cache, dir, JobDir)
    requires Commit(w, id, key, unvalidated, dir, pages, now, io, faults).1 == Committed && dir !in faults'
    ensures var w' := Release(Commit(w, id, key, unvalidated, dir, pages, now, io, faults).0, id, faults');
            && w'.cache.usedBytes + w'.cache.reserved == w.cache.usedBytes + w.cache.reserved
               - w.cache.loans[id].bytes + Sizes(pages) - (if key in w.cache.entries then w.cache.entries[key].total
                   else 0)
            && w'.cache.loans == w.cache.loans - {id} && w'.cache.pending == w.cache.pending
            && dir !in w'.disk && EntryRoot(w.cache, key) in w'.disk
            && w'.disk[EntryRoot(w.cache, key)] == Outputs(w.disk[dir])
  {
    hide Ledger, CheckPages, Convert, Outputs, Inputs;
    var w1 := Commit(w, id, key, unvalidated, dir, pages, now, io, faults).0;
    CommitConserves(w, id, key, unvalidated, dir, pages, now, io, faults);
    CommitKeepsOthers(w, id, key, unvalidated, dir, pages, now, io, faults);
  }

  lemma CommitKeepsOthers(w: World, id: nat, key: Key, unvalidated: bool, dir: Path, pages: seq<PageRef>, now: int,
                          io: CommitIo, faults: Faults)
    requires id in w.cache.loans && dir.kind == JobDir
    requires Ledger(w.cache) && Commit(w, id, key, unvalidated, dir, pages, now, io, faults).1 == Committed
    ensures var w1 := Commit(w, id, key, unvalidated, dir, pages, now, io, faults).0;
            && w1.cache.pending == w.cache.pending && w1.cache.root == w.cache.root
            && w1.cache.loans.Keys == w.cache.loans.Keys && w1.cache.loans - {id} == w.cache.loans - {id}
            && w1.cache.loans[id].dir == w.cache.loans[id].dir && dir in w.disk
            && EntryRoot(w.cache, key) in w1.disk && w1.disk[EntryRoot(w.cache, key)] == Outputs(w.disk[dir])
  {
    if key in w.cache.entries {
      assert SoundEntry(w.cache, key, w.cache.entries[key]);
    }
  }

  // ----- Expiry -----

  /** An entry without a validator is never handed out at or after its deadline, unless that falls on Go's zero time. */
  lemma UnvalidatedDeadline(w: World, key: Key, committed: int, now: int, unreadable: Unreadable, faults: Faults)
    requires Inv(w) && key in w.cache.entries
    requires w.cache.entries[key].expiresAt == FallbackExpiry(true, committed, w.cache.fallbackTtl)
    requires now >= committed + w.cache.fallbackTtl != ZERO_TIME
    ensures !Lookup(w, key, now, unreadable, faults).1
  {
    LookupKeeps(w, key, now, unreadable, faults);
  }

  /** The exact exception: a deadline on the zero time reads as no deadline. */
  lemma ZeroDeadlineNeverExpires(e: Entry, committed: int, ttl: int)
    requires e.expiresAt == FallbackExpiry(true, committed, ttl)
    ensures (forall now :: now >= committed + ttl ==> Expired(e, now)) <==>
            committed + ttl != ZERO_TIME || committed + ttl >= e.lastUsed + CACHE_IDLE_TTL
  {
    if committed + ttl == ZERO_TIME && committed + ttl < e.lastUsed + CACHE_IDLE_TTL {
      assert !Expired(e, committed + ttl);
    }
  }
}
