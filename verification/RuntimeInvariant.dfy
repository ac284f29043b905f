/** The invariant of one runtime, and that every step keeps it. */
module RuntimeInvariant {
  import opened Options
  import opened CacheModel
  import opened CacheProofs
  import opened CacheOperations
  import opened Runtime

  // ----- Bookkeeping -----

  /** The wait group counts the requests, the jobs and the sweeper. */
  predicate WaitGroup(rt: Rt) {
    rt.wg == |rt.requests| + |rt.work| + if rt.sweeping then 1 else 0
  }

  ghost predicate SlotTaken(work: map<Id, Job>) {
    exists i :: i in work && HoldsSlot(work[i].pc)
  }

  /** The slot is full exactly while one job holds it. */
  ghost predicate OneSlot(work: map<Id, Job>, slotFull: bool) {
    && (slotFull <==> SlotTaken(work))
    && forall i, j :: i in work && j in work && HoldsSlot(work[i].pc) && HoldsSlot(work[j].pc) ==> i == j
  }

  /** The jobs map lists exactly the jobs that have not deleted themselves, each under its key. */
  ghost predicate JobTable(work: map<Id, Job>, jobs: map<Key, Id>) {
    && (forall k :: k in jobs ==> jobs[k] in work && work[jobs[k]].key == k && InTable(work[jobs[k]].pc))
    && (forall i :: i in work && InTable(work[i].pc) ==> work[i].key in jobs && jobs[work[i].key] == i)
  }

  /**
   Results are assigned before done is closed, done is closed once, and only by a running job; a
   job that is no longer running has closed it.
   */
  ghost predicate Results(work: map<Id, Job>, results: map<Id, bool>, done: set<Id>, issued: set<Id>) {
    && (forall i :: i in work ==> i in issued)
    && (forall i :: i in results ==> i in issued)
    && (forall i :: i in issued ==> i in work || i in done)
    && (forall i :: i in done ==> i in results && (i in work ==> work[i].pc.DoneClosed?))
    && (forall i :: i in work ==>
      && (i in results <==> work[i].pc.ErrSet? || work[i].pc.Deleted? || work[i].pc.DoneClosed?)
      && (i in done <==> work[i].pc.DoneClosed?))
  }

  /** All of the job bookkeeping. */
  ghost predicate JobBooks(work: map<Id, Job>, slotFull: bool, jobs: map<Key, Id>,
                           results: map<Id, bool>, done: set<Id>, issued: set<Id>)
  {
    OneSlot(work, slotFull) && JobTable(work, jobs) && Results(work, results, done, issued)
  }

  /** Whoever waits, waits for a job that was started. */
  ghost predicate Waiters(requests: map<Id, Req>, issued: set<Id>) {
    forall r :: r in requests ==> Waiter(requests[r], issued)
  }

  ghost predicate Waiter(r: Req, issued: set<Id>) {
    r.pc.Waiting? ==> r.pc.job in issued
  }

  /** The unreleased reservations are those of the jobs that have not come to their release. */
  ghost predicate Loans(work: map<Id, Job>, ids: set<Id>) {
    && (forall i :: i in ids ==> i in work && HoldsLoan(work[i].pc))
    && (forall i :: i in work && HoldsLoan(work[i].pc) ==> i in ids)
  }

  /** Directories that failed to go away and reservations together stay within the bound. */
  predicate BoundedPending(c: Cache) {
    |c.pending| + |c.loans| <= MAX_PENDING_CLEANUP
  }

  // ----- Directories -----

  /** A reservation's or pending directory is on disk, under the plugin's name. */
  ghost predicate DirThere(c: Cache, disk: Disk, p: Path) {
    p in disk && Owned(c, p, JobDir)
  }

  ghost predicate DirsThere(c: Cache, disk: Disk) {
    && (forall p :: p in c.pending ==> DirThere(c, disk, p))
    && (forall i :: i in c.loans && c.loans[i].dir.Some? ==> DirThere(c, disk, c.loans[i].dir.value))
  }

  /** What a job's directory and reservation look like at each place of extractJob. */
  ghost predicate JobPlace(cfg: Config, pc: JobPc, archive: Version, loan: Loan, disk: Disk) {
    match pc
    case Started => loan == Loan(PeakBytes(cfg), None, false)
    case HasDir(dir) =>
      && loan == Loan(PeakBytes(cfg), Some(dir), false) && dir in disk
      && Outputs(disk[dir]) == map[] && DirBytes(disk[dir]) <= cfg.maxArchiveBytes + 1
    case Fetched(dir, got) =>
      && loan == Loan(PeakBytes(cfg), Some(dir), false) && dir in disk && SameVersion(got, archive)
      && DirBytes(Inputs(disk[dir])) <= cfg.maxArchiveBytes && DirBytes(Outputs(disk[dir])) <= cfg.maxTotalBytes
    case Extracted(dir, got, pages) =>
      && loan == Loan(PeakBytes(cfg), Some(dir), false) && dir in disk && SameVersion(got, archive)
      && DirBytes(disk[dir]) <= PeakBytes(cfg) && OutputsExact(disk[dir], pages)
    case _ => true
  }

  ghost predicate JobPlaces(cfg: Config, work: map<Id, Job>, c: Cache, disk: Disk) {
    forall i :: i in work && i in c.loans ==> JobPlace(cfg, work[i].pc, work[i].archive, c.loans[i], disk)
  }

  // ----- Handles -----

  function Holders(requests: map<Id, Req>, key: Key): set<Id> {
    set r | r in requests && Runtime.Pins(requests[r]) && requests[r].key == key
  }

  /** The handle count of each entry is the number of requests that hold a handle on it. */
  ghost predicate Handles(requests: map<Id, Req>, entries: map<Key, Entry>) {
    && (forall k :: k in entries ==> entries[k].active == |Holders(requests, k)|)
    && (forall r :: r in requests && Runtime.Pins(requests[r]) ==> requests[r].key in entries)
  }

  // ----- Provenance -----

  /** Everything filed under a key hashes to that key. */
  ghost predicate Origins(keys: set<Key>, origins: map<Key, Version>, n: Naming) {
    && (forall k :: k in keys ==> k in origins)
    && (forall k :: k in origins ==> n.key(origins[k]) == k && n.valid(origins[k]))
  }

  ghost predicate FiledRequest(r: Req, n: Naming) {
    r.pc != Admitted && r.pc != Leaving ==>
      r.key == n.key(r.archive) && n.valid(r.archive) && r.archive.head.size >= 0
  }

  ghost predicate FiledRequests(requests: map<Id, Req>, n: Naming) {
    forall r :: r in requests ==> FiledRequest(requests[r], n)
  }

  ghost predicate FiledJob(j: Job, n: Naming) {
    j.key == n.key(j.archive) && n.valid(j.archive) && j.archive.head.size >= 0
  }

  ghost predicate FiledJobs(work: map<Id, Job>, n: Naming) {
    forall i :: i in work ==> FiledJob(work[i], n)
  }

  /** The last publication of a key. */
  function LastPublished(log: seq<Event>, key: Key): (p: Option<Event>)
    ensures p.Some? ==> p.value.Published? && p.value.key == key
  {
    if log == [] then None
    else
      var e := log[|log| - 1];
      if e.Published? && e.key == key then Some(e) else LastPublished(log[..|log| - 1], key)
  }

  /**
   The i-th event, if it is an answer, is one from the archive whose commit was the last under the
   request's key; if it is a publication, it is a right one.
   */
  ghost predicate Faithful(log: seq<Event>, i: nat, n: Naming)
    requires i < |log|
  {
    && (log[i].Published? ==> RightlyPublished(log[i], n))
    && (log[i].Served? ==>
      var asked, origin := log[i].asked, log[i].origin;
      var published := LastPublished(log[..i], n.key(asked));
      && n.key(origin) == n.key(asked) && n.valid(asked) && n.valid(origin)
      && published.Some? && published.value.origin == origin)
  }

  /** A publication is filed under its archive's key, and has a deadline exactly if upstream named no validator. */
  predicate RightlyPublished(e: Event, n: Naming)
    requires e.Published?
  {
    && n.key(e.origin) == e.key && n.valid(e.origin)
    && (e.unvalidated <==> e.origin.head.etag == [] && e.origin.head.lastModified == [])
  }

  ghost predicate FaithfulLog(log: seq<Event>, n: Naming) {
    forall i: nat :: i < |log| ==> Faithful(log, i, n)
  }

  /** The recorded origin of each entry is the archive whose commit published it. */
  ghost predicate Traced(log: seq<Event>, keys: set<Key>, origins: map<Key, Version>) {
    forall k :: k in keys ==> TracedKey(log, k, origins)
  }

  ghost predicate TracedKey(log: seq<Event>, k: Key, origins: map<Key, Version>) {
    var p := LastPublished(log, k);
    k in origins && p.Some? && p.value.origin == origins[k]
  }

  // ----- Expiry -----

  /** The last time a key was published or handed out. */
  function LastTouched(log: seq<Event>, key: Key): Option<int> {
    if log == [] then None
    else
      var e := log[|log| - 1];
      if (e.Published? || e.HandedOut?) && e.key == key then Some(e.at) else LastTouched(log[..|log| - 1], key)
  }

  /** Each entry's times are those of the log. */
  ghost predicate Timed(log: seq<Event>, c: Cache) {
    forall k :: k in c.entries ==> TimedEntry(log, c, k, c.entries[k])
  }

  ghost predicate TimedEntry(log: seq<Event>, c: Cache, k: Key, e: Entry) {
    && LastTouched(log, k) == Some(e.lastUsed)
    && var p := LastPublished(log, k);
       p.Some? && e.expiresAt == FallbackExpiry(p.value.unvalidated, p.value.at, c.fallbackTtl)
  }

  /** The i-th event, if it hands out an entry, does so before both of the entry's deadlines. */
  ghost predicate InTime(log: seq<Event>, i: nat, ttl: int)
    requires i < |log|
  {
    log[i].HandedOut? ==>
      var touched, published := LastTouched(log[..i], log[i].key), LastPublished(log[..i], log[i].key);
      && touched.Some? && log[i].at < touched.value + CACHE_IDLE_TTL
      && published.Some?
      && (published.value.unvalidated && published.value.at + ttl != ZERO_TIME ==> log[i].at < published.value.at + ttl)
  }

  ghost predicate NeverStale(log: seq<Event>, ttl: int) {
    forall i: nat :: i < |log| ==> InTime(log, i, ttl)
  }

  // ----- The invariant -----

  /** Requests, jobs, handles and reservations fit together. */
  ghost predicate Coherent(rt: Rt, n: Naming) {
    && ValidConfig(rt.cfg) && rt.cache.root == rt.cfg.root
    && WaitGroup(rt) && Waiters(rt.requests, rt.issued)
        && JobBooks(rt.work, rt.slotFull, rt.jobs, rt.results, rt.done, rt.issued)
    && Loans(rt.work, rt.cache.loans.Keys) && BoundedPending(rt.cache)
    && Handles(rt.requests, rt.cache.entries)
    && Origins(rt.cache.entries.Keys, rt.origins, n)
    && FiledRequests(rt.requests, n) && FiledJobs(rt.work, n)
  }

  /** What the log shows. */
  ghost predicate Logged(rt: Rt, n: Naming) {
    && FaithfulLog(rt.log, n) && Traced(rt.log, rt.cache.entries.Keys, rt.origins)
    && Timed(rt.log, rt.cache) && NeverStale(rt.log, rt.cache.fallbackTtl)
  }

  /** What holds of the disk while the runtime's cache is open. */
  ghost predicate OnDisk(rt: Rt, disk: Disk) {
    Inv(WorldOf(rt, disk)) && DirsThere(rt.cache, disk) && JobPlaces(rt.cfg, rt.work, rt.cache, disk)
  }

  ghost predicate Sound(rt: Rt, n: Naming) {
    Coherent(rt, n) && Logged(rt, n)
  }

  ghost predicate Good(rt: Rt, disk: Disk, n: Naming) {
    Sound(rt, n) && OnDisk(rt, disk)
  }
}
