/**
 The page cache as its objects, updated in place: the cache with its maps and counters, the
 handles and the reservations. Every method is proved to take the state the objects represent to
 the one that the corresponding function of `CacheModel` gives, for the removals that fail and the
 order in which its loops happen to range over the maps.
 */
module PageCache {
  import opened Options
  import opened Fingerprint
  import opened CacheModel

  /**
   The file system below the cache directory; `faults` are the removals that currently fail, and
   `unreadable` the files whose stat currently fails.
   */
  class FileSystem {
    var dirs: Disk
    var faults: Faults
    var unreadable: Unreadable

    constructor (dirs: Disk, faults: Faults, unreadable: Unreadable)
      ensures this.dirs == dirs && this.faults == faults && this.unreadable == unreadable
    {
      this.dirs, this.faults, this.unreadable := dirs, faults, unreadable;
    }

    /** `os.Stat`: the size of a regular file, or an error. */
    method Stat(p: Path, file: FileName) returns (size: Option<int>)
      ensures size == if p in dirs && file in dirs[p]
              && FileId(p, file) !in unreadable then Some(dirs[p][file]) else None
    {
      size := None;
      if p in dirs && file in dirs[p] && FileId(p, file) !in unreadable {
        size := Some(dirs[p][file]);
      }
    }

    method RemoveAll(p: Path) returns (ok: bool)
      modifies this`dirs
      ensures ok == (p !in faults) && dirs == RemoveDir(old(dirs), p, faults)
    {
      ok := p !in faults;
      if ok {
        dirs := dirs - {p};
      } else if p in dirs {
        dirs := dirs[p := Survivors(dirs[p], faults[p])];
      }
    }

    method Rename(outputDir: Path, root: Path, permitted: bool) returns (ok: bool)
      modifies this`dirs
      ensures ok == (permitted && outputDir in old(dirs) && root !in old(dirs))
      ensures dirs == if ok then Publish(old(dirs), outputDir, root) else old(dirs)
    {
      ok := permitted && outputDir in dirs && root !in dirs;
      if ok {
        dirs := Publish(dirs, outputDir, root);
      }
    }
  }

  /** A pin on the entry of one key. */
  class PageHandle {
    var key: Option<Key>
    const cache: PageCache

    constructor (key: Key, cache: PageCache)
      ensures this.key == Some(key) && this.cache == cache
    {
      this.key, this.cache := Some(key), cache;
    }

    /** Gives the pin back once; on a released handle it does nothing. */
    method Release()
      modifies this, cache`entries
      ensures key == None
      ensures cache.World() == if old(key) == None then old(cache.World())
              else Unpin(old(cache.World()), old(key).value)
    {
      if key == None {
        return;
      }
      var k := key.value;
      if k in cache.entries && cache.entries[k].active > 0 {
        cache.entries := cache.entries[k := cache.entries[k].(active := cache.entries[k].active - 1)];
      }
      key := None;
    }
  }

  class Reservation {
    const cache: PageCache
    ghost const id: nat
    var bytes: int
    var jobDir: Option<Path>
    var committed: bool
    var used: bool

    constructor (cache: PageCache, ghost id: nat, bytes: int)
      ensures this.cache == cache && this.id == id && !used && Value() == Loan(bytes, None, false)
    {
      this.cache, this.id := cache, id;
      this.bytes, jobDir, committed, used := bytes, None, false, false;
    }

    function Value(): Loan
      reads this
    {
      Loan(bytes, jobDir, committed)
    }

    /** The cache's books list the reservation exactly until it is released. */
    ghost predicate Attached()
      reads this, cache
    {
      if used then id !in cache.loans else id in cache.loans && cache.loans[id] == Value()
    }

    method SetJobDir(p: Path)
      requires Attached() && !used
      modifies this`jobDir, cache`loans
      ensures Attached() && cache.World() == CacheModel.SetJobDir(old(cache.World()), id, p)
    {
      jobDir := Some(p);
      cache.loans := cache.loans[id := Value()];
    }

    /** Frees the charge once the job directory is gone; otherwise the charge stays, as pending. */
    method Release()
      requires Attached()
      modifies this`used, cache`pending, cache`reserved, cache`loans, cache.disk`dirs
      ensures used && Attached()
      ensures cache.World() == CacheModel.Release(old(cache.World()), id, cache.disk.faults)
    {
      if used {
        return;
      }
      var kept := false;
      if jobDir.Some? {
        kept := !cache.OwnedDirectory(jobDir.value, JobDir);
        if !kept {
          var ok := cache.disk.RemoveAll(jobDir.value);
          kept := !ok;
        }
      }
      if kept {
        cache.pending := cache.pending[jobDir.value := bytes];
      } else {
        cache.reserved := cache.reserved - bytes;
      }
      used := true;
      cache.loans := cache.loans - {id};
    }

    /** The page checks, first fault first. */
    method CheckExtracted(outputDir: Path, pages: seq<PageRef>, stats: nat) returns (result: CommitResult, total: int)
      ensures result == CheckPages(cache.disk.dirs, outputDir, pages, stats)
      ensures result == Committed ==> total == Sizes(pages) >= 0
    {
      total := 0;
      for i := 0 to |pages|
        invariant total == Sizes(pages[..i]) >= 0
                  && CheckPages(cache.disk.dirs, outputDir, pages[..i], stats) == Committed
      {
        assert pages[..i + 1][..i] == pages[..i];
        if !PageAcceptable(cache.disk.dirs, outputDir, pages[i]) || i >= stats {
          FirstFaultDecides(cache.disk.dirs, outputDir, pages, stats, i + 1);
          return InvalidPage, total;
        }
        if total > MAX_TOTAL_BYTES - pages[i].size {
          FirstFaultDecides(cache.disk.dirs, outputDir, pages, stats, i + 1);
          return TotalExceeded, total;
        }
        total := total + pages[i].size;
      }
      assert pages[..|pages|] == pages;
      return Committed, total;
    }

    /** Renames the output directory and moves the charge to the new entry. */
    method PublishLocked(key: Key, entry: Entry, outputDir: Path, renames: bool) returns (result: CommitResult)
      requires Attached() && !used && entry.total >= 0
      modifies this`bytes, this`committed
      modifies cache`entries, cache`usedBytes, cache`reserved, cache`loans, cache.disk`dirs
      ensures Attached()
      ensures result == Committed || result == RenameFailed
      ensures result == Committed <==>
              renames && outputDir in old(cache.disk.dirs) && entry.root !in old(cache.disk.dirs)
      ensures result == RenameFailed ==> cache.World() == old(cache.World())
      ensures result == Committed ==>
                cache.World() == CacheModel.World(WithEntry(old(cache.World()).cache, id, key, entry),
                                                  Publish(old(cache.disk.dirs), outputDir, entry.root))
    {
      var renamed := cache.disk.Rename(outputDir, entry.root, renames);
      if !renamed {
        return RenameFailed;
      }
      if entry.total > 0 {
        cache.usedBytes := cache.usedBytes + entry.total;
      }
      cache.reserved := cache.reserved - entry.total;
      bytes := bytes - entry.total;
      committed := true;
      cache.entries := cache.entries[key := entry];
      cache.loans := cache.loans[id := Value()];
      return Committed;
    }

    /** Checks the extracted pages, replaces an unpinned entry of the same key, and publishes the new one. */
    method Commit(key: Key, unvalidated: bool, outputDir: Path, pages: seq<PageRef>, now: int, io: CommitIo)
      returns (result: CommitResult)
      requires Attached()
      modifies this`bytes, this`committed
      modifies cache`entries, cache`usedBytes, cache`reserved, cache`loans, cache.disk`dirs
      ensures Attached()
      ensures (cache.World(), result) ==
              CacheModel.Commit(old(cache.World()), id, key, unvalidated, outputDir, pages, now, io, cache.disk.faults)
    {
      if used || committed {
        return CacheFull;
      }
      if pages == [] {
        return NoPages;
      }
      var check, total := CheckExtracted(outputDir, pages, io.stats);
      if check != Committed {
        return check;
      }
      if total > bytes {
        return CacheFull;
      }
      if cache.closed || !WellFormedKey(key.text) {
        return CacheFull;
      }
      if key in cache.entries {
        if cache.entries[key].active > 0 {
          return CacheFull;
        }
        var removed := cache.RemoveLocked(key);
        if !removed {
          return CacheFull;
        }
      }
      if outputDir.root != cache.root {
        return CacheFull;
      }
      var root := Path(cache.root, EntryDir, key);
      var entry := Entry(root, Convert(pages), total, FallbackExpiry(unvalidated, now, cache.fallbackTtl), now, 0,
        false);
      result := PublishLocked(key, entry, outputDir, io.renames);
    }
  }

  /** The check of a longer list is that of a prefix that already failed. */
  lemma {:induction false} FirstFaultDecides(disk: Disk, outputDir: Path, pages: seq<PageRef>, stats: nat, n: nat)
    requires n <= |pages| && CheckPages(disk, outputDir, pages[..n], stats) != Committed
    ensures CheckPages(disk, outputDir, pages, stats) == CheckPages(disk, outputDir, pages[..n], stats)
  {
    if n == |pages| {
      assert pages[..n] == pages;
    } else {
      var most := pages[..|pages| - 1];
      assert most[..n] == pages[..n];
      FirstFaultDecides(disk, outputDir, most, stats, n);
    }
  }

  class PageCache {
    const root: nat
    const maxBytes: int
    const fallbackTtl: int
    const disk: FileSystem
    var entries: map<Key, Entry>
    var usedBytes: int
    var reserved: int
    var pending: map<Path, int>
    var lease: bool
    var closed: bool
    ghost var loans: map<nat, Loan>  // the reservations that are not released

    /** The state that the fields represent. */
    ghost function World(): CacheModel.World
      reads this, disk
    {
      CacheModel.World(
        Cache(root, maxBytes, fallbackTtl, entries, usedBytes, reserved, loans, pending, closed), disk.dirs)
    }

    /** `newPageCache`, once its directory has been cleared. */
    constructor (root: nat, maxBytes: int, fallbackTtl: int, disk: FileSystem)
      ensures this.disk == disk && World() == CacheModel.World(NewCache(root, maxBytes, fallbackTtl), disk.dirs)
      ensures lease
    {
      this.root, this.maxBytes, this.fallbackTtl, this.disk := root, maxBytes, fallbackTtl, disk;
      entries, usedBytes, reserved, pending, lease, closed := map[], 0, 0, map[], true, false;
      loans := map[];
    }

    predicate OwnedDirectory(p: Path, kind: Kind) {
      p.root == root && p.kind == kind && p.name.text != []
    }

    /** Retires the entry and deletes it unless it is pinned or its directory cannot be removed. */
    method RemoveLocked(key: Key) returns (removed: bool)
      requires key in entries
      modifies this`entries, this`usedBytes, disk`dirs
      ensures World() == Remove(old(World()), key, disk.faults)
      ensures removed == Removable(old(World()).cache, old(entries)[key], disk.faults)
    {
      var entry := entries[key].(retired := true);
      entries := entries[key := entry];
      if entry.active > 0 || !OwnedDirectory(entry.root, EntryDir) {
        return false;
      }
      var ok := disk.RemoveAll(entry.root);
      if !ok {
        return false;
      }
      entries := entries - {key};
      usedBytes := usedBytes - entry.total;
      assert entries == old(entries) - {key};
      return true;
    }

    /** A handle for a live entry that is whole on disk; anything else under the key is removed. */
    method Lookup(key: Key, now: int) returns (handle: PageHandle?)
      modifies this`entries, this`usedBytes, disk`dirs
      ensures (World(), handle != null) ==
              CacheModel.Lookup(old(World()), key, now, disk.unreadable, disk.faults)
      ensures handle != null ==> fresh(handle) && handle.key == Some(key) && handle.cache == this
    {
      if key !in entries || closed {
        return null;
      }
      var entry := entries[key];
      if entry.retired || Expired(entry, now) {
        var removed := RemoveLocked(key);
        return null;
      }
      for i := 0 to |entry.pages|
        invariant forall j :: 0 <= j < i ==>
          PageThere(disk.dirs, entry.root, entry.pages[j])
              && FileId(entry.root, entry.pages[j].file) !in disk.unreadable
        invariant entries == old(entries) && usedBytes == old(usedBytes) && disk.dirs == old(disk.dirs)
      {
        var size := disk.Stat(entry.root, entry.pages[i].file);
        if size != Some(entry.pages[i].size) {
          assert !(PagesReadable(disk.unreadable, entry) && PagesOnDisk(disk.dirs, entry)) by {
            assert !PageThere(disk.dirs, entry.root, entry.pages[i])
                   || FileId(entry.root, entry.pages[i].file) in disk.unreadable;
          }
          var removed := RemoveLocked(key);
          return null;
        }
      }
      assert PagesReadable(disk.unreadable, entry) && PagesOnDisk(disk.dirs, entry);
      entries := entries[key := entry.(active := entry.active + 1, lastUsed := now)];
      handle := new PageHandle(key, this);
    }

    /** Tries every pending deletion once. */
    method RetryPendingLocked() returns (ghost order: seq<Path>)
      modifies this`pending, this`reserved, disk`dirs
      ensures Enumerates(order, old(pending).Keys)
      ensures World() == RetryPending(old(World()), order, disk.faults)
    {
      order := [];
      var todo := pending.Keys;
      while todo != {}
        invariant todo <= pending.Keys <= old(pending).Keys && Enumerates(order, old(pending).Keys - todo)
        invariant World() == RetryPending(old(World()), order, disk.faults)
        decreases |todo|
      {
        var p :| p in todo;
        todo := todo - {p};
        ghost var before := World();
        if OwnedDirectory(p, JobDir) {
          var ok := disk.RemoveAll(p);
          if ok {
            reserved := reserved - pending[p];
            pending := pending - {p};
          }
        }
        assert World() == DropPending(before, p, disk.faults);
        assert (order + [p])[..|order|] == order;
        OneMoreTaken(order, old(pending).Keys, todo + {p}, p);
        assert todo + {p} - {p} == todo;
        order := order + [p];
      }
      assert old(pending).Keys - {} == old(pending).Keys;
    }

    /** Retries pending deletions, then removes every retired or expired entry. */
    method SweepLocked(now: int) returns (ghost ranges: Ranges)
      modifies this`entries, this`usedBytes, this`pending, this`reserved, disk`dirs
      ensures RangesOver(ranges, old(World()))
      ensures World() == CacheModel.Sweep(old(World()), ranges, now, disk.faults)
    {
      ghost var retried := RetryPendingLocked();
      ghost var start := World();
      ghost var order: seq<Key> := [];
      var todo := entries.Keys;
      while todo != {}
        invariant todo <= entries.Keys <= old(entries).Keys && Enumerates(order, old(entries).Keys - todo)
        invariant World() == SweepEntries(start, order, now, disk.faults)
        decreases |todo|
      {
        var key :| key in todo;
        todo := todo - {key};
        ghost var before := World();
        if entries[key].retired || Expired(entries[key], now) {
          var removed := RemoveLocked(key);
        }
        assert World() == SweepEntry(before, key, now, disk.faults);
        assert (order + [key])[..|order|] == order;
        OneMoreTaken(order, old(entries).Keys, todo + {key}, key);
        assert todo + {key} - {key} == todo;
        order := order + [key];
      }
      assert old(entries).Keys - {} == old(entries).Keys;
      ranges := Ranges(retried, order);
    }

    /** `sweep`: called by the runtime's timer. */
    method Sweep(now: int) returns (ghost ranges: Ranges)
      modifies this`entries, this`usedBytes, this`pending, this`reserved, disk`dirs
      ensures RangesOver(ranges, old(World())) || closed
      ensures World() == if closed then old(World()) else CacheModel.Sweep(old(World()), ranges, now, disk.faults)
    {
      ranges := Ranges([], []);
      if !closed {
        ranges := SweepLocked(now);
      }
    }

    /** The least recently used idle entry, found in one pass over the map. */
    method FindOldest() returns (oldest: Option<Key>)
      ensures oldest.Some? ==> OldestIdle(World().cache, oldest.value)
      ensures oldest.None? ==> NoneIdle(World().cache)
    {
      oldest := None;
      var todo := entries.Keys;
      while todo != {}
        invariant todo <= entries.Keys
        invariant oldest.Some? ==> oldest.value in entries && Idle(entries[oldest.value])
        invariant forall k :: k in entries && k !in todo && Idle(entries[k]) ==>
          oldest.Some? && entries[oldest.value].lastUsed <= entries[k].lastUsed
        decreases |todo|
      {
        var key :| key in todo;
        todo := todo - {key};
        var entry := entries[key];
        if !(entry.active > 0 || entry.retired) {
          if oldest.None? || entry.lastUsed < entries[oldest.value].lastUsed {
            oldest := Some(key);
          }
        }
      }
    }

    /** Removes idle entries, oldest first, until the incoming bytes fit or none is left. */
    method EvictUntilLocked(incoming: int) returns (ghost victims: seq<Key>)
      modifies this`entries, this`usedBytes, disk`dirs
      ensures LruRun(old(World()), incoming, victims, disk.faults)
      ensures World() == Evict(old(World()), victims, disk.faults)
    {
      victims := [];
      while usedBytes + reserved + incoming > maxBytes
        invariant World() == Evict(old(World()), victims, disk.faults)
        invariant LruPrefix(old(World()), incoming, victims, |victims|, disk.faults)
        decreases |IdleKeys(World().cache)|
      {
        var oldest := FindOldest();
        if oldest == None {
          return;
        }
        ghost var before := World();
        var removed := RemoveLocked(oldest.value);
        IdleShrinks(before, oldest.value, disk.faults);
        LruExtends(old(World()), incoming, victims, oldest.value, disk.faults);
        victims := victims + [oldest.value];
      }
    }

    /** Sweeps, evicts, and grants the reservation if it fits. */
    method Reserve(bytes: int, now: int, ghost id: nat)
      returns (r: Reservation?, ghost ranges: Ranges, ghost victims: seq<Key>)
      requires id !in loans
      modifies this`entries, this`usedBytes, this`pending, this`reserved, this`loans, disk`dirs
      ensures ReserveChoice(old(World()), bytes, now, ranges, victims, disk.faults)
      ensures (World(), r != null) == CacheModel.Reserve(old(World()), id, bytes, now, ranges, victims, disk.faults)
      ensures r != null ==> fresh(r) && r.cache == this && r.id == id && r.Attached() && !r.used
    {
      hide CacheModel.Sweep, CacheModel.Evict, CacheModel.LruRun, CacheModel.RangesOver;
      r, ranges, victims := null, Ranges([], []), [];
      if bytes < 1 || bytes > maxBytes {
        return;
      }
      if closed {
        return;
      }
      ranges := SweepLocked(now);
      if |pending| >= MAX_PENDING_CLEANUP {
        return;
      }
      victims := EvictUntilLocked(bytes);
      if usedBytes + reserved + bytes > maxBytes {
        return;
      }
      reserved := reserved + bytes;
      r := new Reservation(this, id, bytes);
      loans := loans[id := r.Value()];
    }

    /** Removes every entry, retries pending deletions, and gives the lease back. */
    method Close() returns (ghost ranges: Ranges)
      modifies this`entries, this`usedBytes, this`pending, this`reserved, this`closed, this`lease, disk`dirs
      ensures old(closed) || RangesOver(ranges, old(World()))
      ensures World() == CacheModel.Close(old(World()), ranges, disk.faults)
      ensures closed && (old(closed) || !lease)
    {
      ranges := Ranges([], []);
      if closed {
        return;
      }
      ghost var order: seq<Key> := [];
      var todo := entries.Keys;
      while todo != {}
        invariant todo <= entries.Keys <= old(entries).Keys && Enumerates(order, old(entries).Keys - todo)
        invariant World() == Evict(old(World()), order, disk.faults) && pending == old(pending)
        decreases |todo|
      {
        var key :| key in todo;
        todo := todo - {key};
        var removed := RemoveLocked(key);
        assert (order + [key])[..|order|] == order;
        OneMoreTaken(order, old(entries).Keys, todo + {key}, key);
        assert todo + {key} - {key} == todo;
        order := order + [key];
      }
      assert old(entries).Keys - {} == old(entries).Keys;
      ghost var retried := RetryPendingLocked();
      lease := false;
      closed := true;
      ranges := Ranges(retried, order);
    }
  }

  /** The elements taken from `todo` so far, with one more. */
  lemma OneMoreTaken<T(!new)>(order: seq<T>, all: set<T>, todo: set<T>, x: T)
    requires Enumerates(order, all - todo) && x in todo && todo <= all
    ensures Enumerates(order + [x], all - (todo - {x}))
  {
  }

  ghost function IdleKeys(c: Cache): set<Key> {
    set k | k in c.entries && Idle(c.entries[k])
  }

  /** Each eviction leaves one idle entry less, even when the deletion fails, so the loop ends. */
  lemma IdleShrinks(w: World, key: Key, faults: Faults)
    requires key in w.cache.entries && Idle(w.cache.entries[key])
    ensures |IdleKeys(Remove(w, key, faults).cache)| < |IdleKeys(w.cache)|
  {
    assert key in IdleKeys(w.cache);
    assert IdleKeys(Remove(w, key, faults).cache) == IdleKeys(w.cache) - {key};
  }

  lemma LruExtends(w: World, incoming: int, victims: seq<Key>, key: Key, faults: Faults)
    requires LruPrefix(w, incoming, victims, |victims|, faults)
    requires var c := Evict(w, victims, faults).cache; !Fits(c, incoming) && OldestIdle(c, key)
    ensures LruPrefix(w, incoming, victims + [key], |victims| + 1, faults)
    ensures Evict(w, victims + [key], faults) == Remove(Evict(w, victims, faults), key, faults)
  {
    var longer := victims + [key];
    assert longer[..|victims|] == victims;
    forall i | 0 <= i < |longer|
      ensures var c := Evict(w, longer[..i], faults).cache; !Fits(c, incoming) && OldestIdle(c, longer[i])
    {
      if i < |victims| {
        assert longer[..i] == victims[..i];
      }
    }
  }
}
