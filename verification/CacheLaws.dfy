/**
 The laws of the cache operations, written out on the fields of the state: when a lookup hits, what
 a sweep and a reservation must leave alone, exactly when a commit succeeds and which entry it
 publishes, how long that entry is served, and what a close leaves.
 */
module CacheLaws {
  import opened Fingerprint
  import opened CacheModel
  import opened CacheProofs
  import opened CacheProperties

  // ----- Lookup -----

  /** Not retired, used within 30 minutes, and before its deadline if it has one. */
  predicate Live(e: Entry, now: int) {
    !e.retired && now < e.lastUsed + 1_800_000_000_000 && (e.expiresAt == 0 || now < e.expiresAt)
  }

  /** The page can be looked at and has its recorded size. */
  predicate WholePage(disk: Disk, unreadable: Unreadable, root: Path, page: CachedPage) {
    && root in disk && page.file in disk[root] && disk[root][page.file] == page.size
    && FileId(root, page.file) !in unreadable
  }

  ghost predicate WholeAndReadable(disk: Disk, unreadable: Unreadable, e: Entry) {
    forall i :: 0 <= i < |e.pages| ==> WholePage(disk, unreadable, e.root, e.pages[i])
  }

  lemma WholeReads(disk: Disk, unreadable: Unreadable, e: Entry)
    requires WholeAndReadable(disk, unreadable, e)
    ensures PagesOnDisk(disk, e) && PagesReadable(unreadable, e)
  {
    forall i | 0 <= i < |e.pages|
      ensures PageThere(disk, e.root, e.pages[i]) && FileId(e.root, e.pages[i].file) !in unreadable
    {
      assert WholePage(disk, unreadable, e.root, e.pages[i]);
    }
  }

  lemma ReadsWhole(disk: Disk, unreadable: Unreadable, e: Entry)
    requires PagesOnDisk(disk, e) && PagesReadable(unreadable, e)
    ensures WholeAndReadable(disk, unreadable, e)
  {
    forall i | 0 <= i < |e.pages| ensures WholePage(disk, unreadable, e.root, e.pages[i]) {
      assert PageThere(disk, e.root, e.pages[i]);
    }
  }

  lemma WholeMeans(disk: Disk, unreadable: Unreadable, e: Entry)
    ensures WholeAndReadable(disk, unreadable, e) <==> PagesOnDisk(disk, e) && PagesReadable(unreadable, e)
  {
    hide WholeAndReadable, PagesOnDisk, PagesReadable;
    if WholeAndReadable(disk, unreadable, e) {
      WholeReads(disk, unreadable, e);
    }
    if PagesOnDisk(disk, e) && PagesReadable(unreadable, e) {
      ReadsWhole(disk, unreadable, e);
    }
  }

  /**
   A lookup hits exactly a live entry of an open cache whose pages are whole and readable; a hit
   counts one handle and moves the time of use, and changes nothing else.
   */
  lemma LookupExactly(w: World, key: Key, now: int, unreadable: Unreadable, faults: Faults)
    ensures Lookup(w, key, now, unreadable, faults).1 <==>
            && key in w.cache.entries && !w.cache.closed
            && Live(w.cache.entries[key], now) && WholeAndReadable(w.disk, unreadable, w.cache.entries[key])
    ensures Lookup(w, key, now, unreadable, faults).1 ==>
              var e := w.cache.entries[key];
              Lookup(w, key, now, unreadable, faults).0 ==
              World(w.cache.(entries := w.cache.entries[key := e.(active := e.active + 1, lastUsed := now)]), w.disk)
  {
    if key in w.cache.entries {
      WholeMeans(w.disk, unreadable, w.cache.entries[key]);
    }
  }

  // ----- What is left alone -----

  /** The entry under key is the same value, and its directory is untouched. */
  ghost predicate Spared(w: World, w': World, key: Key)
    requires key in w.cache.entries
  {
    && key in w'.cache.entries && w'.cache.entries[key] == w.cache.entries[key]
    && var root := w.cache.entries[key].root;
       (root in w.disk <==> root in w'.disk) && (root in w.disk ==> w'.disk[root] == w.disk[root])
  }

  lemma SparedTransitive(w: World, w': World, w'': World, key: Key)
    requires key in w.cache.entries && Spared(w, w', key) && Spared(w', w'', key)
    ensures Spared(w, w'', key)
  {
  }

  lemma RemoveSpares(w: World, other: Key, faults: Faults, key: Key)
    requires Ledger(w.cache) && key in w.cache.entries && key != other
    ensures Spared(w, Remove(w, other, faults), key)
  {
    hide Ledger, Removable;
    RootOf(w.cache, key);
    if other in w.cache.entries {
      RootOf(w.cache, other);
    }
  }

  lemma RootOf(c: Cache, key: Key)
    requires Ledger(c) && key in c.entries
    ensures c.entries[key].root == Path(c.root, EntryDir, key) && key.text != []
  {
    assert SoundEntry(c, key, c.entries[key]);
  }

  lemma {:induction false} RetryPendingSpares(w: World, order: seq<Path>, faults: Faults, key: Key)
    requires Ledger(w.cache) && key in w.cache.entries
    ensures Spared(w, RetryPending(w, order, faults), key)
  {
    hide Ledger;
    if order != [] {
      var w' := RetryPending(w, order[..|order| - 1], faults);
      RetryPendingSpares(w, order[..|order| - 1], faults, key);
      RetryPendingCalm(w, order[..|order| - 1], faults);
      DropPendingSpares(w', order[|order| - 1], faults, key);
    }
  }

  lemma DropPendingSpares(w: World, p: Path, faults: Faults, key: Key)
    requires Ledger(w.cache) && key in w.cache.entries
    ensures Spared(w, DropPending(w, p, faults), key)
  {
    assert SoundEntry(w.cache, key, w.cache.entries[key]);
  }

  lemma SweepEntrySpares(w: World, other: Key, now: int, faults: Faults, key: Key)
    requires Ledger(w.cache) && key in w.cache.entries && Live(w.cache.entries[key], now)
    ensures Spared(w, SweepEntry(w, other, now, faults), key)
  {
    if key != other {
      RemoveSpares(w, other, faults, key);
    }
  }

  lemma {:induction false} SweepEntriesSpares(w: World, order: seq<Key>, now: int, faults: Faults, key: Key)
    requires Ledger(w.cache) && key in w.cache.entries && Live(w.cache.entries[key], now)
    ensures Spared(w, SweepEntries(w, order, now, faults), key)
  {
    hide Ledger, SweepEntry, Live;
    if order != [] {
      var w' := SweepEntries(w, order[..|order| - 1], now, faults);
      SweepEntriesSpares(w, order[..|order| - 1], now, faults, key);
      SweepEntriesCalm(w, order[..|order| - 1], now, faults);
      SweepEntrySpares(w', order[|order| - 1], now, faults, key);
    }
  }

  /** A sweep leaves every live entry, pinned or not, exactly as it is, with its directory. */
  lemma SweepSpares(w: World, ranges: Ranges, now: int, faults: Faults, key: Key)
    requires Ledger(w.cache) && key in w.cache.entries && Live(w.cache.entries[key], now)
    ensures Spared(w, Sweep(w, ranges, now, faults), key)
  {
    hide Ledger, Spared;
    var w' := RetryPending(w, ranges.pending, faults);
    RetryPendingCalm(w, ranges.pending, faults);
    RetryPendingSpares(w, ranges.pending, faults, key);
    SparedEntry(w, w', key);
    SweepEntriesSpares(w', ranges.entries, now, faults, key);
    SparedTransitive(w, w', Sweep(w, ranges, now, faults), key);
  }

  lemma SparedEntry(w: World, w': World, key: Key)
    requires key in w.cache.entries && Spared(w, w', key)
    ensures key in w'.cache.entries && w'.cache.entries[key] == w.cache.entries[key]
  {
  }

  lemma {:induction false} EvictSpares(w: World, victims: seq<Key>, faults: Faults, key: Key)
    requires Ledger(w.cache) && key in w.cache.entries && key !in victims
    ensures Spared(w, Evict(w, victims, faults), key)
  {
    hide Ledger, Remove;
    if victims != [] {
      var most := victims[..|victims| - 1];
      EvictSpares(w, most, faults, key);
      EvictCalm(w, most, faults);
      RemoveSpares(Evict(w, most, faults), victims[|victims| - 1], faults, key);
    }
  }

  // ----- Reserve -----

  /**
   Who is evicted: at its turn the bytes do not fit, the victim is unpinned and not retired, and no
   other such entry was used before it.
   */
  lemma VictimsExactly(w: World, incoming: int, victims: seq<Key>, faults: Faults, i: nat)
    requires LruRun(w, incoming, victims, faults) && i < |victims|
    ensures var c := Evict(w, victims[..i], faults).cache;
            && c.usedBytes + c.reserved + incoming > c.maxBytes
            && victims[i] in c.entries && c.entries[victims[i]].active <= 0 && !c.entries[victims[i]].retired
            && forall k :: k in c.entries && c.entries[k].active <= 0 && !c.entries[k].retired ==>
                 c.entries[victims[i]].lastUsed <= c.entries[k].lastUsed
  {
    hide Evict;
    var c := Evict(w, victims[..i], faults).cache;
    assert !Fits(c, incoming) && OldestIdle(c, victims[i]);
  }

  /** A pinned entry that a sweep leaves is not evicted. */
  lemma PinnedIsNoVictim(w: World, incoming: int, victims: seq<Key>, faults: Faults, key: Key)
    requires Ledger(w.cache) && LruRun(w, incoming, victims, faults)
    requires key in w.cache.entries && (w.cache.entries[key].active > 0 || w.cache.entries[key].retired)
    ensures key !in victims
  {
    hide Ledger, Evict, LruRun, Calm;
    if key in victims {
      var i :| 0 <= i < |victims| && victims[i] == key;
      VictimsExactly(w, incoming, victims, faults, i);
      EvictCalm(w, victims[..i], faults);
      CalmEntry(w, Evict(w, victims[..i], faults), key);
    }
  }

  lemma CalmEntry(w: World, w': World, key: Key)
    requires Calm(w, w') && key in w'.cache.entries
    ensures key in w.cache.entries && w'.cache.entries[key].active == w.cache.entries[key].active
    ensures w.cache.entries[key].retired ==> w'.cache.entries[key].retired
  {
    assert SameOrRetired(w.cache.entries[key], w'.cache.entries[key]);
  }

  /** A reservation leaves every live entry alone that it does not evict. */
  lemma ReserveSpares(w: World, id: nat, bytes: int, now: int, ranges: Ranges, victims: seq<Key>, faults: Faults,
                      key: Key)
    requires Ledger(w.cache) && key in w.cache.entries && Live(w.cache.entries[key], now) && key !in victims
    ensures Spared(w, Reserve(w, id, bytes, now, ranges, victims, faults).0, key)
  {
    hide Ledger, Sweep, Evict, Live;
    var swept, w0 := Sweep(w, ranges, now, faults), ReserveState(w, bytes, now, ranges, victims, faults);
    SweepSpares(w, ranges, now, faults, key);
    SweepCalm(w, ranges, now, faults);
    EvictSpares(swept, victims, faults, key);
    SparedTransitive(w, swept, Evict(swept, victims, faults), key);
    assert Spared(w, w0, key);
  }

  /** If the bytes fit once retired, expired and pending directories are gone, no live entry is touched. */
  lemma ReserveThatFitsSpares(w: World, id: nat, bytes: int, now: int, ranges: Ranges, victims: seq<Key>,
                              faults: Faults, key: Key)
    requires Ledger(w.cache) && key in w.cache.entries && Live(w.cache.entries[key], now)
    requires ReserveChoice(w, bytes, now, ranges, victims, faults)
    requires var c := Sweep(w, ranges, now, faults).cache; c.usedBytes + c.reserved + bytes <= c.maxBytes
    ensures Spared(w, Reserve(w, id, bytes, now, ranges, victims, faults).0, key)
  {
    hide Ledger, Sweep, Live, Spared;
    var swept := Sweep(w, ranges, now, faults);
    if 1 <= bytes <= w.cache.maxBytes && !w.cache.closed && |swept.cache.pending| < MAX_PENDING_CLEANUP {
      if victims != [] {
        assert Evict(swept, victims[..0], faults) == swept;
        VictimsExactly(swept, bytes, victims, faults, 0);
        assert false;
      }
      ReserveSpares(w, id, bytes, now, ranges, victims, faults, key);
    } else {
      ReserveUnevicted(w, id, bytes, now, ranges, victims, faults, key);
    }
  }

  /** Out of range or closed, a reservation is refused and changes nothing. */
  lemma ReserveRefused(w: World, id: nat, bytes: int, now: int, ranges: Ranges, victims: seq<Key>, faults: Faults)
    requires bytes < 1 || bytes > w.cache.maxBytes || w.cache.closed
    ensures Reserve(w, id, bytes, now, ranges, victims, faults) == (w, false)
  {
  }

  /** Out of range, closed, or with too many cleanups pending, nothing is evicted. */
  lemma ReserveUnevicted(w: World, id: nat, bytes: int, now: int, ranges: Ranges, victims: seq<Key>, faults: Faults,
                         key: Key)
    requires Ledger(w.cache) && key in w.cache.entries && Live(w.cache.entries[key], now)
    requires !(1 <= bytes <= w.cache.maxBytes) || w.cache.closed
             || |Sweep(w, ranges, now, faults).cache.pending| >= MAX_PENDING_CLEANUP
    ensures Spared(w, Reserve(w, id, bytes, now, ranges, victims, faults).0, key)
    ensures !Reserve(w, id, bytes, now, ranges, victims, faults).1
    ensures !(1 <= bytes <= w.cache.maxBytes) || w.cache.closed ==>
              Reserve(w, id, bytes, now, ranges, victims, faults) == (w, false)
  {
    hide Ledger, Sweep, Evict, Live;
    SweepSpares(w, ranges, now, faults, key);
  }

  /** A live entry under a handle is never touched by a reservation. */
  lemma ReserveSparesHeld(w: World, id: nat, bytes: int, now: int, ranges: Ranges, victims: seq<Key>, faults: Faults,
                          key: Key)
    requires Ledger(w.cache) && key in w.cache.entries && Live(w.cache.entries[key], now)
    requires w.cache.entries[key].active > 0 && ReserveChoice(w, bytes, now, ranges, victims, faults)
    ensures Spared(w, Reserve(w, id, bytes, now, ranges, victims, faults).0, key)
  {
    hide Ledger, Sweep, Live, Spared, LruRun;
    var swept := Sweep(w, ranges, now, faults);
    if 1 <= bytes <= w.cache.maxBytes && !w.cache.closed && |swept.cache.pending| < MAX_PENDING_CLEANUP {
      SweepSpares(w, ranges, now, faults, key);
      SparedEntry(w, swept, key);
      SweepCalm(w, ranges, now, faults);
      PinnedIsNoVictim(swept, bytes, victims, faults, key);
      ReserveSpares(w, id, bytes, now, ranges, victims, faults, key);
    } else {
      ReserveUnevicted(w, id, bytes, now, ranges, victims, faults, key);
    }
  }

  // ----- Commit -----

  /** What a commit asks of one extracted page. */
  predicate GoodPage(disk: Disk, dir: Path, page: PageRef) {
    && page.dir == dir && page.file.Output? && 1 <= page.size <= 0x200_0000
    && dir in disk && page.file in disk[dir] && disk[dir][page.file] == page.size
  }

  lemma {:induction false} PagesCheckedExactly(disk: Disk, dir: Path, pages: seq<PageRef>, stats: nat)
    ensures CheckPages(disk, dir, pages, stats) == Committed <==>
            && (forall i :: 0 <= i < |pages| ==> GoodPage(disk, dir, pages[i]))
            && |pages| <= stats && Sizes(pages) <= 0x4000_0000
    ensures (forall i :: 0 <= i < |pages| ==> GoodPage(disk, dir, pages[i])) ==> Sizes(pages) >= |pages|
  {
    if pages != [] {
      var most, last := pages[..|pages| - 1], pages[|pages| - 1];
      PagesCheckedExactly(disk, dir, most, stats);
      assert (forall i :: 0 <= i < |pages| ==> GoodPage(disk, dir, pages[i])) <==>
             (forall i :: 0 <= i < |most| ==> GoodPage(disk, dir, most[i])) && GoodPage(disk, dir, last) by {
        assert forall i :: 0 <= i < |most| ==> most[i] == pages[i];
      }
      assert GoodPage(disk, dir, last) <==> PageAcceptable(disk, dir, last);
    }
  }

  /** No unpinned entry stands in the way of the key, or it can be deleted. */
  predicate KeyIsFree(w: World, key: Key, faults: Faults) {
    if key in w.cache.entries then w.cache.entries[key].active <= 0 && Path(w.cache.root, EntryDir, key) !in faults
    else Path(w.cache.root, EntryDir, key) !in w.disk
  }

  /** Exactly when a commit succeeds. */
  ghost predicate MayCommit(w: World, id: nat, key: Key, dir: Path, pages: seq<PageRef>, io: CommitIo, faults: Faults) {
    && id in w.cache.loans && !w.cache.loans[id].committed && !w.cache.closed
    && pages != [] && (forall i :: 0 <= i < |pages| ==> GoodPage(w.disk, dir, pages[i]))
    && Sizes(pages) <= 0x4000_0000 && Sizes(pages) <= w.cache.loans[id].bytes
    && |key.text| == 64 && (forall k :: 0 <= k < 64 ==> IsHex(key.text[k]))
    && KeyIsFree(w, key, faults) && dir.root == w.cache.root && |pages| <= io.stats && io.renames
  }

  lemma CommitExactly(w: World, id: nat, key: Key, unvalidated: bool, dir: Path, pages: seq<PageRef>, now: int,
                      io: CommitIo, faults: Faults)
    requires Ledger(w.cache) && dir.kind == JobDir
    ensures Commit(w, id, key, unvalidated, dir, pages, now, io, faults).1 == Committed <==>
            MayCommit(w, id, key, dir, pages, io, faults)
  {
    hide CheckPages, Ledger, GoodPage, IsHex, Publish, NewEntry, WithEntry;
    PagesCheckedExactly(w.disk, dir, pages, io.stats);
    KeyFreeMeans(w, key, dir, faults);
    if pages != [] && (forall i :: 0 <= i < |pages| ==> GoodPage(w.disk, dir, pages[i])) {
      assert GoodPage(w.disk, dir, pages[0]);
      GoodPageThere(w.disk, dir, pages[0]);
    }
  }

  lemma GoodPageThere(disk: Disk, dir: Path, page: PageRef)
    requires GoodPage(disk, dir, page)
    ensures dir in disk
  {
  }

  lemma KeyFreeMeans(w: World, key: Key, dir: Path, faults: Faults)
    requires Ledger(w.cache) && dir.kind == JobDir
    ensures key in w.cache.entries && WellFormedKey(key.text) ==>
              (Removable(w.cache, w.cache.entries[key], faults) <==> KeyIsFree(w, key, faults))
    ensures key in w.cache.entries && Removable(w.cache, w.cache.entries[key], faults) ==>
              EntryRoot(w.cache, key) !in Remove(w, key, faults).disk
    ensures dir in w.disk ==> dir in Remove(w, key, faults).disk
  {
    if key in w.cache.entries {
      RootOf(w.cache, key);
    }
  }

  /** Page i of an entry is the extracted page `page`, and its file is in the entry's directory with its size. */
  predicate PagePublished(disk: Disk, e: Entry, i: nat, page: PageRef)
    requires i < |e.pages|
  {
    && e.pages[i].name == page.name && e.pages[i].file == page.file
    && e.pages[i].size == page.size && e.pages[i].mediaType == page.mediaType
    && e.root in disk && page.file in disk[e.root] && disk[e.root][page.file] == page.size
  }

  /** The entry that a successful commit publishes: the pages in their order, and its times. */
  lemma CommittedEntry(w: World, id: nat, key: Key, unvalidated: bool, dir: Path, pages: seq<PageRef>, now: int,
                       io: CommitIo, faults: Faults)
    requires Commit(w, id, key, unvalidated, dir, pages, now, io, faults).1 == Committed && dir.kind == JobDir
    requires Ledger(w.cache)
    ensures var w' := Commit(w, id, key, unvalidated, dir, pages, now, io, faults).0;
            && key in w'.cache.entries
            && var e := w'.cache.entries[key];
               && e.root == Path(w.cache.root, EntryDir, key) && |e.pages| == |pages|
               && (forall i :: 0 <= i < |pages| ==> PagePublished(w'.disk, e, i, pages[i]))
               && e.total == Sizes(pages) && e.active == 0 && !e.retired && e.lastUsed == now
               && e.expiresAt == (if unvalidated then now + w.cache.fallbackTtl else 0)
  {
    hide Ledger, CheckPages, WellFormedKey, Remove;
    var w' := Commit(w, id, key, unvalidated, dir, pages, now, io, faults).0;
    PagesCheckedExactly(w.disk, dir, pages, io.stats);
    RemoveKeepsDir(w, key, faults, dir);
    var e := w'.cache.entries[key];
    forall i | 0 <= i < |pages| ensures PagePublished(w'.disk, e, i, pages[i]) {
      assert GoodPage(w.disk, dir, pages[i]);
    }
  }

  lemma RemoveKeepsDir(w: World, key: Key, faults: Faults, dir: Path)
    requires Ledger(w.cache) && dir.kind == JobDir
    ensures dir in w.disk ==> dir in Remove(w, key, faults).disk && Remove(w, key, faults).disk[dir] == w.disk[dir]
    ensures Remove(w, key, faults).cache.loans == w.cache.loans
  {
    hide Ledger;
    if key in w.cache.entries {
      RootOf(w.cache, key);
    }
  }

  /** A commit leaves every other entry exactly as it is, with its directory. */
  lemma CommitSpares(w: World, id: nat, key: Key, unvalidated: bool, dir: Path, pages: seq<PageRef>, now: int,
                     io: CommitIo, faults: Faults, other: Key)
    requires Ledger(w.cache) && other in w.cache.entries && other != key && dir.kind == JobDir
    ensures Spared(w, Commit(w, id, key, unvalidated, dir, pages, now, io, faults).0, other)
  {
    hide Ledger, CheckPages, WellFormedKey, Remove, NewEntry, Removable;
    RemoveSpares(w, key, faults, other);
    RootOf(w.cache, other);
  }

  /** A lookup leaves every other entry exactly as it is, with its directory. */
  lemma LookupSpares(w: World, key: Key, now: int, unreadable: Unreadable, faults: Faults, other: Key)
    requires Ledger(w.cache) && other in w.cache.entries && other != key
    ensures Spared(w, Lookup(w, key, now, unreadable, faults).0, other)
  {
    hide Ledger, Remove, PagesOnDisk, PagesReadable;
    RemoveSpares(w, key, faults, other);
  }

  lemma PublishedWhole(disk: Disk, e: Entry, pages: seq<PageRef>)
    requires |e.pages| == |pages| && forall i :: 0 <= i < |pages| ==> PagePublished(disk, e, i, pages[i])
    ensures WholeAndReadable(disk, {}, e)
  {
    forall i | 0 <= i < |e.pages| ensures WholePage(disk, {}, e.root, e.pages[i]) {
      assert PagePublished(disk, e, i, pages[i]);
    }
  }

  /**
   How long a committed entry is served when nobody uses it and no stat fails: for 30 minutes, and
   without a validator only until the deadline, unless that is the zero time. With a validator the
   fallback lifetime does not matter.
   */
  lemma ServedUntil(w: World, id: nat, key: Key, unvalidated: bool, dir: Path, pages: seq<PageRef>, now: int,
                    io: CommitIo, faults: Faults, later: int, faults': Faults)
    requires Ledger(w.cache) && dir.kind == JobDir
    requires Commit(w, id, key, unvalidated, dir, pages, now, io, faults).1 == Committed
    ensures var w' := Commit(w, id, key, unvalidated, dir, pages, now, io, faults).0;
            Lookup(w', key, later, {}, faults').1 <==>
            && later < now + 1_800_000_000_000
            && (unvalidated && now + w.cache.fallbackTtl != 0 ==> later < now + w.cache.fallbackTtl)
  {
    hide Ledger, Commit, Lookup, PagePublished, WholeAndReadable;
    var w' := Commit(w, id, key, unvalidated, dir, pages, now, io, faults).0;
    CommittedEntry(w, id, key, unvalidated, dir, pages, now, io, faults);
    CommittedOpen(w, id, key, unvalidated, dir, pages, now, io, faults);
    PublishedWhole(w'.disk, w'.cache.entries[key], pages);
    LookupExactly(w', key, later, {}, faults');
  }

  lemma CommittedOpen(w: World, id: nat, key: Key, unvalidated: bool, dir: Path, pages: seq<PageRef>, now: int,
                      io: CommitIo, faults: Faults)
    requires Commit(w, id, key, unvalidated, dir, pages, now, io, faults).1 == Committed
    ensures !Commit(w, id, key, unvalidated, dir, pages, now, io, faults).0.cache.closed
  {
    hide CheckPages, NewEntry, WellFormedKey;
  }

  /** A hit on an entry with a validator gives it another 30 minutes, however long ago it was committed. */
  lemma UseKeepsServing(w: World, key: Key, now: int, unreadable: Unreadable, faults: Faults, later: int,
                        faults': Faults)
    requires Lookup(w, key, now, unreadable, faults).1 && w.cache.entries[key].expiresAt == 0
    ensures var w' := Lookup(w, key, now, unreadable, faults).0;
            Lookup(w', key, later, unreadable, faults').1 <==> later < now + 1_800_000_000_000
  {
    hide Lookup, WholeAndReadable;
    var w' := Lookup(w, key, now, unreadable, faults).0;
    LookupExactly(w, key, now, unreadable, faults);
    SameWhole(w.disk, unreadable, w.cache.entries[key], w'.cache.entries[key]);
    LookupExactly(w', key, later, unreadable, faults');
  }

  lemma SameWhole(disk: Disk, unreadable: Unreadable, e: Entry, e': Entry)
    requires WholeAndReadable(disk, unreadable, e) && e'.root == e.root && e'.pages == e.pages
    ensures WholeAndReadable(disk, unreadable, e')
  {
  }

  // ----- Close -----

  /** What a close may leave of an entry: it is pinned, or its directory could not be deleted. */
  ghost predicate Abandoned(w: World, key: Key, faults: Faults) {
    key in w.cache.entries ==> w.cache.entries[key].active > 0 || Path(w.cache.root, EntryDir, key) in faults
  }

  lemma RemoveAbandons(w: World, other: Key, faults: Faults, key: Key)
    requires Ledger(w.cache) && (key == other || Abandoned(w, key, faults))
    ensures Abandoned(Remove(w, other, faults), key, faults)
  {
    hide Ledger;
    if key in w.cache.entries {
      RootOf(w.cache, key);
    }
  }

  lemma {:induction false} EvictAbandons(w: World, victims: seq<Key>, faults: Faults, key: Key)
    requires Ledger(w.cache) && key in victims
    ensures Abandoned(Evict(w, victims, faults), key, faults)
  {
    hide Ledger, Remove, Abandoned;
    var most, last := victims[..|victims| - 1], victims[|victims| - 1];
    EvictCalm(w, most, faults);
    if key != last {
      EvictAbandons(w, most, faults, key);
    }
    RemoveAbandons(Evict(w, most, faults), last, faults, key);
  }

  /** Retrying pending deletions is no business of the entries. */
  lemma {:induction false} RetryKeepsEntries(w: World, order: seq<Path>, faults: Faults)
    ensures RetryPending(w, order, faults).cache.entries == w.cache.entries
    ensures RetryPending(w, order, faults).cache.root == w.cache.root
  {
    if order != [] {
      RetryKeepsEntries(w, order[..|order| - 1], faults);
    }
  }

  /**
   Closing tries everything: every entry that is left is pinned or its deletion failed, every
   pending directory that is left failed again or is not the plugin's, and the cache is closed.
   */
  lemma CloseExactly(w: World, ranges: Ranges, faults: Faults, key: Key, p: Path)
    requires Ledger(w.cache) && !w.cache.closed && RangesOver(ranges, w)
    ensures var w' := Close(w, ranges, faults);
            && w'.cache.closed && Abandoned(w', key, faults)
            && (p in w'.cache.pending ==> p in faults || !Owned(w.cache, p, JobDir))
  {
    hide Ledger, Evict, RetryPending, Owned, Calm;
    var w1 := Evict(w, ranges.entries, faults);
    EvictCalm(w, ranges.entries, faults);
    EvictKeepsPending(w, ranges.entries, faults);
    RetryKeepsEntries(w1, ranges.pending, faults);
    CalmCache(w, w1);
    if key in w1.cache.entries {
      EvictAbandons(w, ranges.entries, faults, key);
    }
    RetryPendingCalm(w1, ranges.pending, faults);
    CalmCache(w1, RetryPending(w1, ranges.pending, faults));
    if p in RetryPending(w1, ranges.pending, faults).cache.pending {
      RetryPendingComplete(w1, ranges.pending, faults, p);
      OwnedSame(w.cache, w1.cache, p);
    }
  }

  lemma OwnedSame(c: Cache, c': Cache, p: Path)
    requires c'.root == c.root
    ensures Owned(c', p, JobDir) == Owned(c, p, JobDir)
  {
  }

  lemma CalmCache(w: World, w': World)
    requires Calm(w, w')
    ensures w'.cache.root == w.cache.root && w'.cache.entries.Keys <= w.cache.entries.Keys
    ensures w'.cache.pending.Keys <= w.cache.pending.Keys
  {
  }
}
