/**
 The specification of the page cache: its ledger, the directories on disk, and every operation as
 a function from one state to the next. Class `PageCache` refines these functions; the runtime
 system is built from them.

 `faults` lists the directories whose removal fails during an operation, with the files that
 survive the attempt. One operation attempts each directory at most once. A removal that fails
 leaves the directory itself in place.
 */
module CacheModel {
  import opened Bytes
  import opened Sums
  import opened Options
  import opened Fingerprint

  // ----- Disk -----

  datatype Kind = JobDir | EntryDir | OtherDir

  datatype Name = Name(text: Text)

  /** A direct child of the cache directory `root`: `.job-name`, `.entry-name` or another one. */
  datatype Path = Path(root: nat, kind: Kind, name: Name)

  /** A job directory holds the downloaded archive and the extractor's output files. */
  datatype FileName = Archive | Output(name: Text)

  type Dir = map<FileName, nat>
  type Disk = map<Path, Dir>
  type Faults = map<Path, set<FileName>>

  ghost function DirBytes(d: Dir): int {
    Sum(d)
  }

  function Survivors(d: Dir, kept: set<FileName>): Dir {
    map f | f in d && f in kept :: d[f]
  }

  /** `removeAll(path)`: nil unless the path is at fault. */
  function RemoveDir(disk: Disk, p: Path, faults: Faults): Disk {
    if p in faults then
      if p in disk then disk[p := Survivors(disk[p], faults[p])] else disk
    else disk - {p}
  }

  function Outputs(d: Dir): Dir {
    map f | f in d && f.Output? :: d[f]
  }

  function Inputs(d: Dir): Dir {
    map f | f in d && f.Archive? :: d[f]
  }

  // ----- Cache -----

  const MAX_PAGE_BYTES: int := 0x200_0000
  const MAX_TOTAL_BYTES: int := 0x4000_0000
  const MAX_PENDING_CLEANUP: int := 128
  const ZERO_TIME: int := 0                        // Go's zero time; all times are in nanoseconds
  const CACHE_IDLE_TTL: int := 1_800_000_000_000   // 30 minutes

  /** A cache key; an entry's directory is named after its key. */
  type Key = Name

  datatype CachedPage = CachedPage(name: Text, file: FileName, size: int, mediaType: Text)

  datatype Entry = Entry(root: Path, pages: seq<CachedPage>, total: int, expiresAt: int, lastUsed: int,
                         active: int, retired: bool)

  /** An unreleased reservation: the bytes it still charges and its job directory. */
  datatype Loan = Loan(bytes: int, dir: Option<Path>, committed: bool)

  datatype Cache = Cache(root: nat, maxBytes: int, fallbackTtl: int, entries: map<Key, Entry>, usedBytes: int,
                         reserved: int, loans: map<nat, Loan>, pending: map<Path, int>, closed: bool)

  datatype World = World(cache: Cache, disk: Disk)

  function EntryRoot(c: Cache, key: Key): Path {
    Path(c.root, EntryDir, key)
  }

  /** `ownedDirectory`: a direct, plugin-named child of the cache root. */
  predicate Owned(c: Cache, p: Path, kind: Kind) {
    p.root == c.root && p.kind == kind && p.name.text != []
  }

  function Expired(e: Entry, now: int): bool {
    now >= e.lastUsed + CACHE_IDLE_TTL || (e.expiresAt != ZERO_TIME && now >= e.expiresAt)
  }

  predicate Idle(e: Entry) {
    e.active <= 0 && !e.retired
  }

  /** The page's file is in the directory, with its size. */
  predicate PageThere(disk: Disk, root: Path, page: CachedPage) {
    root in disk && page.file in disk[root] && disk[root][page.file] == page.size
  }

  predicate PagesOnDisk(disk: Disk, e: Entry) {
    forall i :: 0 <= i < |e.pages| ==> PageThere(disk, e.root, e.pages[i])
  }

  // ----- Operations -----

  /** `removeLocked` succeeds. */
  predicate Removable(c: Cache, e: Entry, faults: Faults) {
    e.active <= 0 && Owned(c, e.root, EntryDir) && e.root !in faults
  }

  /** `removeLocked`: retire, and delete unless pinned or at fault. */
  function Remove(w: World, key: Key, faults: Faults): World {
    if key !in w.cache.entries then w
    else
      var c, e := w.cache, w.cache.entries[key];
      if Removable(c, e, faults) then
        World(c.(entries := c.entries - {key}, usedBytes := c.usedBytes - e.total), RemoveDir(w.disk, e.root, faults))
      else
        World(c.(entries := c.entries[key := e.(retired := true)]),
              if e.active > 0 || !Owned(c, e.root, EntryDir) then w.disk else RemoveDir(w.disk, e.root, faults))
  }

  /** One turn of `retryPendingLocked`. */
  function DropPending(w: World, p: Path, faults: Faults): World {
    var c := w.cache;
    if p !in c.pending || !Owned(c, p, JobDir) then w
    else if p in faults then w.(disk := RemoveDir(w.disk, p, faults))
    else World(c.(pending := c.pending - {p}, reserved := c.reserved - c.pending[p]), RemoveDir(w.disk, p, faults))
  }

  function RetryPending(w: World, order: seq<Path>, faults: Faults): World {
    if order == [] then w
    else DropPending(RetryPending(w, order[..|order| - 1], faults), order[|order| - 1], faults)
  }

  /** One turn of the loop in `sweepLocked`. */
  function SweepEntry(w: World, key: Key, now: int, faults: Faults): World {
    if key in w.cache.entries && (w.cache.entries[key].retired || Expired(w.cache.entries[key], now)) then
      Remove(w, key, faults)
    else w
  }

  function SweepEntries(w: World, order: seq<Key>, now: int, faults: Faults): World {
    if order == [] then w
    else SweepEntry(SweepEntries(w, order[..|order| - 1], now, faults), order[|order| - 1], now, faults)
  }

  /** The orders in which a sweep happens to range over its two maps. */
  datatype Ranges = Ranges(pending: seq<Path>, entries: seq<Key>)

  ghost predicate Enumerates<T(!new)>(order: seq<T>, s: set<T>) {
    (forall x :: x in order <==> x in s) && forall i, j :: 0 <= i < j < |order| ==> order[i] != order[j]
  }

  ghost predicate RangesOver(r: Ranges, w: World) {
    Enumerates(r.pending, w.cache.pending.Keys) && Enumerates(r.entries, w.cache.entries.Keys)
  }

  /** `sweepLocked`. */
  function Sweep(w: World, ranges: Ranges, now: int, faults: Faults): World {
    SweepEntries(RetryPending(w, ranges.pending, faults), ranges.entries, now, faults)
  }

  /** Removes the victims one after the other. */
  function Evict(w: World, victims: seq<Key>, faults: Faults): World {
    if victims == [] then w
    else Remove(Evict(w, victims[..|victims| - 1], faults), victims[|victims| - 1], faults)
  }

  predicate Fits(c: Cache, incoming: int) {
    c.usedBytes + c.reserved + incoming <= c.maxBytes
  }

  ghost predicate OldestIdle(c: Cache, key: Key) {
    && key in c.entries && Idle(c.entries[key])
    && forall k :: k in c.entries && Idle(c.entries[k]) ==> c.entries[key].lastUsed <= c.entries[k].lastUsed
  }

  ghost predicate NoneIdle(c: Cache) {
    forall k :: k in c.entries ==> !Idle(c.entries[k])
  }

  /** Each of the first n victims is, at its turn, a least recently used idle entry while bytes do not fit. */
  ghost predicate LruPrefix(w: World, incoming: int, victims: seq<Key>, n: nat, faults: Faults)
    requires n <= |victims|
  {
    forall i :: 0 <= i < n ==>
      var c := Evict(w, victims[..i], faults).cache;
      !Fits(c, incoming) && OldestIdle(c, victims[i])
  }

  /** `evictUntilLocked`: a maximal run of victims that stops at the first fit. */
  ghost predicate LruRun(w: World, incoming: int, victims: seq<Key>, faults: Faults) {
    && LruPrefix(w, incoming, victims, |victims|, faults)
    && var c := Evict(w, victims, faults).cache;
       Fits(c, incoming) || NoneIdle(c)
  }

  /** A file that is there but whose stat fails. */
  datatype FileId = FileId(dir: Path, file: FileName)

  type Unreadable = set<FileId>

  predicate PagesReadable(unreadable: Unreadable, e: Entry) {
    forall i :: 0 <= i < |e.pages| ==> FileId(e.root, e.pages[i].file) !in unreadable
  }

  /** `lookup`: the stats of the files in `unreadable` fail. */
  function Lookup(w: World, key: Key, now: int, unreadable: Unreadable, faults: Faults): (World, bool) {
    var c := w.cache;
    if key !in c.entries || c.closed then (w, false)
    else
      var e := c.entries[key];
      if e.retired || Expired(e, now) then (Remove(w, key, faults), false)
      else if !PagesReadable(unreadable, e) || !PagesOnDisk(w.disk, e) then (Remove(w, key, faults), false)
      else (w.(cache := c.(entries := c.entries[key := e.(active := e.active + 1, lastUsed := now)])), true)
  }

  /** `pageHandle.release`. */
  function Unpin(w: World, key: Key): World {
    var c := w.cache;
    if key in c.entries && c.entries[key].active > 0 then
      w.(cache := c.(entries := c.entries[key := c.entries[key].(active := c.entries[key].active - 1)]))
    else w
  }

  /** The state in which `reserve` decides: swept, and evicted unless too many cleanups are pending. */
  function ReserveState(w: World, bytes: int, now: int, ranges: Ranges, victims: seq<Key>, faults: Faults): World {
    if !InRange(w.cache, bytes) || w.cache.closed then w
    else
      var swept := Sweep(w, ranges, now, faults);
      if |swept.cache.pending| >= MAX_PENDING_CLEANUP then swept else Evict(swept, victims, faults)
  }

  predicate InRange(c: Cache, bytes: int) {
    1 <= bytes <= c.maxBytes
  }

  predicate Grants(c: Cache, bytes: int) {
    InRange(c, bytes) && !c.closed && |c.pending| < MAX_PENDING_CLEANUP && Fits(c, bytes)
  }

  function AddLoan(c: Cache, id: nat, bytes: int): Cache {
    c.(reserved := c.reserved + bytes, loans := c.loans[id := Loan(bytes, None, false)])
  }

  function Reserve(w: World, id: nat, bytes: int, now: int, ranges: Ranges, victims: seq<Key>,
                   faults: Faults): (World, bool) {
    var w' := ReserveState(w, bytes, now, ranges, victims, faults);
    if Grants(w'.cache, bytes) then (w'.(cache := AddLoan(w'.cache, id, bytes)), true) else (w', false)
  }

  /** The choices that `reserve` leaves to map iteration order, and that they are possible ones. */
  ghost predicate ReserveChoice(w: World, bytes: int, now: int, ranges: Ranges, victims: seq<Key>, faults: Faults) {
    InRange(w.cache, bytes) && !w.cache.closed ==>
      && RangesOver(ranges, w)
      && var swept := Sweep(w, ranges, now, faults);
         |swept.cache.pending| < MAX_PENDING_CLEANUP ==> LruRun(swept, bytes, victims, faults)
  }

  /** The job records its directory in the reservation. */
  function SetJobDir(w: World, id: nat, p: Path): World {
    if id in w.cache.loans then
      w.(cache := w.cache.(loans := w.cache.loans[id := w.cache.loans[id].(dir := Some(p))]))
    else w
  }

  /** Nothing is left of the job directory after a release. */
  predicate Deletable(c: Cache, dir: Option<Path>, faults: Faults) {
    dir.Some? ==> Owned(c, dir.value, JobDir) && dir.value !in faults
  }

  /** The reservation ends: its charge is freed, or stays as a pending deletion. */
  function Settle(c: Cache, id: nat, deleted: bool): Cache {
    if id !in c.loans then c
    else
      var loan := c.loans[id];
      if deleted || loan.dir.None? then c.(loans := c.loans - {id}, reserved := c.reserved - loan.bytes)
      else c.(loans := c.loans - {id}, pending := c.pending[loan.dir.value := loan.bytes])
  }

  /** `cacheReservation.release`: a second release finds no loan. */
  function Release(w: World, id: nat, faults: Faults): World {
    if id !in w.cache.loans then w
    else
      var c, dir := w.cache, w.cache.loans[id].dir;
      World(Settle(c, id, Deletable(c, dir, faults)),
            if dir.Some? && Owned(c, dir.value, JobDir) then RemoveDir(w.disk, dir.value, faults) else w.disk)
  }

  // ----- Commit -----

  /** A page as the extractor reports it: a file of the directory `dir`. */
  datatype PageRef = PageRef(name: Text, dir: Path, file: FileName, size: int, mediaType: Text)

  datatype CommitResult = Committed | CacheFull | NoPages | InvalidPage | TotalExceeded | RenameFailed

  /** `validPageFile` and the two stats: a regular output file of the announced size. */
  predicate PageAcceptable(disk: Disk, outputDir: Path, page: PageRef) {
    && page.dir == outputDir && page.file.Output? && 1 <= page.size <= MAX_PAGE_BYTES
    && outputDir in disk && page.file in disk[outputDir] && disk[outputDir][page.file] == page.size
  }

  function Sizes(pages: seq<PageRef>): int {
    if pages == [] then 0 else Sizes(pages[..|pages| - 1]) + pages[|pages| - 1].size
  }

  /** The I/O of a commit: the stats of the first `stats` pages succeed, and so does the rename if `renames`. */
  datatype CommitIo = CommitIo(stats: nat, renames: bool)

  /** The page checks: the first page that fails decides. A stat that fails is a fault of its page. */
  function CheckPages(disk: Disk, outputDir: Path, pages: seq<PageRef>, stats: nat): CommitResult {
    if pages == [] then Committed
    else
      var before, page := CheckPages(disk, outputDir, pages[..|pages| - 1], stats), pages[|pages| - 1];
      if before != Committed then before
      else if !PageAcceptable(disk, outputDir, page) || |pages| > stats then InvalidPage
      else if Sizes(pages[..|pages| - 1]) > MAX_TOTAL_BYTES - page.size then TotalExceeded
      else Committed
  }

  function Convert(pages: seq<PageRef>): (converted: seq<CachedPage>)
    ensures |converted| == |pages|
  {
    seq(|pages|, i requires 0 <= i < |pages| =>
      CachedPage(pages[i].name, pages[i].file, pages[i].size, pages[i].mediaType))
  }

  /** Entries without an upstream validator get a deadline that lookups do not move. */
  function FallbackExpiry(unvalidated: bool, now: int, ttl: int): int {
    if unvalidated then now + ttl else ZERO_TIME
  }

  /** Renaming the output directory to the entry directory. */
  function Publish(disk: Disk, outputDir: Path, root: Path): Disk
    requires outputDir in disk
  {
    disk[root := Outputs(disk[outputDir])][outputDir := Inputs(disk[outputDir])]
  }

  function Commit(w: World, id: nat, key: Key, unvalidated: bool, outputDir: Path, pages: seq<PageRef>, now: int,
                  io: CommitIo, faults: Faults): (World, CommitResult)
  {
    var c := w.cache;
    var check := CheckPages(w.disk, outputDir, pages, io.stats);
    if id !in c.loans || c.loans[id].committed then (w, CacheFull)
    else if pages == [] then (w, NoPages)
    else if check != Committed then (w, check)
    else if Sizes(pages) > c.loans[id].bytes then (w, CacheFull)
    else if c.closed || !WellFormedKey(key.text) then (w, CacheFull)
    else if key in c.entries && c.entries[key].active > 0 then (w, CacheFull)
    else if key in c.entries && !Removable(c, c.entries[key], faults) then (Remove(w, key, faults), CacheFull)
    else
      var w' := Remove(w, key, faults);
      var root := EntryRoot(c, key);
      if outputDir.root != c.root then (w', CacheFull)
      else if !io.renames || outputDir !in w'.disk || root in w'.disk then (w', RenameFailed)
      else (World(WithEntry(w'.cache, id, key, NewEntry(c, key, unvalidated, pages, now)),
                  Publish(w'.disk, outputDir, root)), Committed)
  }

  function NewEntry(c: Cache, key: Key, unvalidated: bool, pages: seq<PageRef>, now: int): Entry {
    Entry(EntryRoot(c, key), Convert(pages), Sizes(pages), FallbackExpiry(unvalidated, now, c.fallbackTtl), now, 0,
        false)
  }

  /** The charge moves from the reservation to the entry. */
  function WithEntry(c: Cache, id: nat, key: Key, e: Entry): Cache {
    if id !in c.loans then c
    else
      c.(entries := c.entries[key := e], usedBytes := c.usedBytes + e.total, reserved := c.reserved - e.total,
         loans := c.loans[id := c.loans[id].(bytes := c.loans[id].bytes - e.total, committed := true)])
  }

  // ----- Opening and closing -----

  function NewCache(root: nat, maxBytes: int, ttl: int): Cache {
    Cache(root, maxBytes, ttl, map[], 0, 0, map[], map[], false)
  }

  /** `pageCache.close`: remove every entry, retry pending deletions, mark closed. */
  function Close(w: World, ranges: Ranges, faults: Faults): World {
    if w.cache.closed then w
    else
      var w' := RetryPending(Evict(w, ranges.entries, faults), ranges.pending, faults);
      w'.(cache := w'.cache.(closed := true))
  }

  predicate PluginDir(p: Path, root: nat) {
    p.root == root && p.kind != OtherDir
  }

  /** `removeOwnedDirectories` when every removal succeeds. */
  function ClearRoot(disk: Disk, root: nat): Disk {
    map p | p in disk && !PluginDir(p, root) :: disk[p]
  }
}
