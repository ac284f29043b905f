/** Starting a job, its commit, and everything from its release to its end keep the invariant. */
module JobEnding {
  import opened Options
  import opened Fingerprint
  import opened CacheModel
  import opened CacheProofs
  import opened CacheOperations
  import opened Runtime
  import opened RuntimeInvariant
  import opened RequestSteps
  import opened JobSteps

  // ----- Starting -----

  function NewWork(work: map<Id, Job>, id: Id, archive: Version, key: Key): map<Id, Job> {
    work[id := Job(archive, key, Started)]
  }

  lemma StartSlot(work: map<Id, Job>, id: Id, archive: Version, key: Key)
    requires OneSlot(work, false) && id !in work
    ensures OneSlot(NewWork(work, id, archive, key), true)
  {
    var work' := NewWork(work, id, archive, key);
    assert id in work' && HoldsSlot(work'[id].pc);
    forall i | i in work && HoldsSlot(work[i].pc) ensures false {
      assert SlotTaken(work);
    }
  }

  lemma StartTable(work: map<Id, Job>, id: Id, archive: Version, key: Key, jobs: map<Key, Id>)
    requires JobTable(work, jobs) && id !in work && key !in jobs
    ensures JobTable(NewWork(work, id, archive, key), jobs[key := id])
  {
  }

  lemma StartResults(work: map<Id, Job>, id: Id, archive: Version, key: Key,
                     results: map<Id, bool>, done: set<Id>, issued: set<Id>)
    requires Results(work, results, done, issued) && id !in issued
    ensures Results(NewWork(work, id, archive, key), results, done, issued + {id})
  {
  }

  /** The slot is free: no job holds a reservation. */
  lemma FreeSlotNoLoans(work: map<Id, Job>, ids: set<Id>)
    requires OneSlot(work, false) && Loans(work, ids)
    ensures ids == {}
  {
    forall i | i in ids ensures false {
      assert SlotTaken(work);
    }
  }

  /** The runtime once the reservation is granted. */
  function Granted(rt: Rt, r: Id, id: Id, c: Cache): Rt
    requires r in rt.requests
  {
    var req := rt.requests[r];
    Move(rt, r, Waiting(id)).(cache := c, slotFull := true, jobs := rt.jobs[req.key := id],
                              work := NewWork(rt.work, id, req.archive, req.key), issued := rt.issued + {id},
                              wg := rt.wg + 1)
  }

  lemma StartBooks(work: map<Id, Job>, jobs: map<Key, Id>, results: map<Id, bool>, done: set<Id>, issued: set<Id>,
                   id: Id, archive: Version, key: Key)
    requires JobBooks(work, false, jobs, results, done, issued) && key !in jobs && id !in issued
    ensures JobBooks(NewWork(work, id, archive, key), true, jobs[key := id], results, done, issued + {id})
            && id !in work
  {
    StartSlot(work, id, archive, key);
    StartTable(work, id, archive, key, jobs);
    StartResults(work, id, archive, key, results, done, issued);
  }

  lemma StartFiled(work: map<Id, Job>, id: Id, archive: Version, key: Key, n: Naming)
    requires FiledJobs(work, n) && FiledJob(Job(archive, key, Started), n)
    ensures FiledJobs(NewWork(work, id, archive, key), n)
  {
    var work' := NewWork(work, id, archive, key);
    forall i | i in work' ensures FiledJob(work'[i], n) {
      assert i != id ==> FiledJob(work[i], n);
    }
  }

  lemma GrantedLoan(work: map<Id, Job>, c: Cache, id: Id, bytes: int, archive: Version, key: Key)
    requires Loans(work, c.loans.Keys) && c.loans == map[] && Grants(c, bytes)
    ensures var c' := AddLoan(c, id, bytes);
            && c'.root == c.root && c'.entries == c.entries && BoundedPending(c')
            && Loans(NewWork(work, id, archive, key), c'.loans.Keys)
  {
    assert AddLoan(c, id, bytes).loans == map[id := Loan(bytes, None, false)];
  }

  lemma BooksFreeSlot(rt: Rt, n: Naming)
    requires Coherent(rt, n) && !rt.slotFull
    ensures rt.cache.loans == map[]
  {
    FreeSlotNoLoans(rt.work, rt.cache.loans.Keys);
    assert rt.cache.loans.Keys == {};
  }

  lemma WaitersGrow(requests: map<Id, Req>, issued: set<Id>, id: Id)
    requires Waiters(requests, issued)
    ensures Waiters(requests, issued + {id})
  {
    forall r | r in requests ensures Waiter(requests[r], issued + {id}) {
      assert Waiter(requests[r], issued);
    }
  }

  lemma GrantedCoherent(rt: Rt, r: Id, id: Id, c': Cache, n: Naming)
    requires Coherent(rt, n) && ReqAt(rt, r, Missed) && id !in rt.issued
    requires !rt.slotFull && rt.requests[r].key !in rt.jobs
    requires Grants(rt.cache, PeakBytes(rt.cfg)) && c' == AddLoan(rt.cache, id, PeakBytes(rt.cfg))
    ensures Coherent(Granted(rt, r, id, c'), n)
  {
    hide JobBooks, Handles, Origins, FiledJobs, Loans, AddLoan, Grants, BoundedPending;
    var req := rt.requests[r];
    assert FiledRequest(req, n);
    BooksFreeSlot(rt, n);
    GrantedLoan(rt.work, rt.cache, id, PeakBytes(rt.cfg), req.archive, req.key);
    StartBooks(rt.work, rt.jobs, rt.results, rt.done, rt.issued, id, req.archive, req.key);
    StartFiled(rt.work, id, req.archive, req.key, n);
    UnpinnedMoveHandles(rt.requests, r, req.(pc := Waiting(id)), rt.cache.entries);
    FiledMove(rt.requests, r, req.(pc := Waiting(id)), n);
    WaitersGrow(rt.requests, rt.issued, id);
    WaitersMove(rt.requests, r, req.(pc := Waiting(id)), rt.issued + {id});
  }

  lemma GrantedOnDisk(rt: Rt, disk: Disk, r: Id, id: Id, c': Cache)
    requires OnDisk(rt, disk) && r in rt.requests && rt.cache.loans == map[]
    requires Grants(rt.cache, PeakBytes(rt.cfg)) && c' == AddLoan(rt.cache, id, PeakBytes(rt.cfg))
    ensures OnDisk(Granted(rt, r, id, c'), disk)
  {
    LoanAdded(WorldOf(rt, disk), id, PeakBytes(rt.cfg));
    forall p | p in c'.pending ensures DirThere(c', disk, p) {
      assert DirThere(rt.cache, disk, p);
    }
  }

  /** A granted reservation starts a job. */
  lemma GrantedGood(rt: Rt, disk: Disk, r: Id, id: Id, c': Cache, n: Naming)
    requires Good(rt, disk, n) && ReqAt(rt, r, Missed) && id !in rt.issued
    requires !rt.slotFull && rt.requests[r].key !in rt.jobs
    requires Grants(rt.cache, PeakBytes(rt.cfg)) && c' == AddLoan(rt.cache, id, PeakBytes(rt.cfg))
    ensures Good(Granted(rt, r, id, c'), disk, n)
  {
    GrantedCoherent(rt, r, id, c', n);
    FreeSlotNoLoans(rt.work, rt.cache.loans.Keys);
    assert rt.cache.loans == map[];
    GrantedOnDisk(rt, disk, r, id, c');
    SameEntriesTimed(rt.log, rt.cache, c');
  }

  /** The section under jobsMu, once the slot is taken, follows the reservation. */
  lemma StartJobShape(rt: Rt, disk: Disk, r: Id, id: Id, now: int, ranges: Ranges, victims: seq<Key>, faults: Faults,
                      w: World, granted: bool)
    requires r in rt.requests && !rt.stopping && rt.requests[r].key !in rt.jobs && !rt.slotFull
    requires Reserve(WorldOf(rt, disk), id, PeakBytes(rt.cfg), now, ranges, victims, faults) ==
             (if granted then w.(cache := AddLoan(w.cache, id, PeakBytes(rt.cfg))) else w, granted)
    ensures StartJob(rt, disk, r, id, now, ranges, victims, faults) ==
            if granted then (Granted(rt.(cache := w.cache), r, id, AddLoan(w.cache, id, PeakBytes(rt.cfg))), w.disk)
            else (Move(rt, r, Leaving).(cache := w.cache), w.disk)
  {
    hide Reserve, AddLoan;
  }

  /** Without a free slot, or with a job for the key already there, the request waits or leaves. */
  lemma StartJobNoSlot(rt: Rt, disk: Disk, r: Id, id: Id, now: int, ranges: Ranges, victims: seq<Key>, faults: Faults)
    requires r in rt.requests && (rt.stopping || rt.requests[r].key in rt.jobs || rt.slotFull)
    ensures var pc := if !rt.stopping && rt.requests[r].key in rt.jobs then Waiting(rt.jobs[rt.requests[r].key])
            else Leaving;
            StartJob(rt, disk, r, id, now, ranges, victims, faults) == (Move(rt, r, pc), disk)
  {
    hide Reserve;
  }

  lemma ListedIsIssued(rt: Rt, key: Key, n: Naming)
    requires Coherent(rt, n)
    ensures key in rt.jobs ==> rt.jobs[key] in rt.issued
  {
    hide OneSlot, Handles, Origins, Loans, FiledJobs, FiledRequests, Waiters;
  }

  lemma StartJobGood(rt: Rt, disk: Disk, r: Id, id: Id, now: int, ranges: Ranges, victims: seq<Key>, faults: Faults,
                     rt': Rt, disk': Disk, n: Naming)
    requires Good(rt, disk, n) && ReqAt(rt, r, Missed) && id !in rt.issued
    requires (rt', disk') == StartJob(rt, disk, r, id, now, ranges, victims, faults)
    ensures Good(rt', disk', n)
  {
    hide StartJob, Reserve, Coherent, Logged;
    if rt.stopping || rt.requests[r].key in rt.jobs || rt.slotFull {
      StartJobNoSlot(rt, disk, r, id, now, ranges, victims, faults);
      var pc := if !rt.stopping && rt.requests[r].key in rt.jobs then Waiting(rt.jobs[rt.requests[r].key]) else Leaving;
      ListedIsIssued(rt, rt.requests[r].key, n);
      MoveGood(rt, disk, r, pc, n);
    } else {
      var w, granted := ReserveCases(WorldOf(rt, disk), id, PeakBytes(rt.cfg), now, ranges, victims, faults);
      StartJobShape(rt, disk, r, id, now, ranges, victims, faults, w, granted);
      if granted {
        CalmGood(rt, disk, w, n);
        GrantedGood(rt.(cache := w.cache), w.disk, r, id, AddLoan(w.cache, id, PeakBytes(rt.cfg)), n);
      } else {
        CalmMoveGood(rt, disk, w, r, Leaving, n);
      }
    }
  }

  // ----- Commit -----

  /** While a job holds its reservation, no other reservation is out. */
  lemma OnlyLoan(work: map<Id, Job>, slotFull: bool, ids: set<Id>, id: Id)
    requires OneSlot(work, slotFull) && Loans(work, ids) && id in work && HoldsSlot(work[id].pc)
    ensures ids <= {id}
  {
  }

  lemma OnlyReservation(rt: Rt, id: Id, n: Naming)
    requires Coherent(rt, n) && id in rt.work && HoldsLoan(rt.work[id].pc)
    ensures rt.cache.loans.Keys == {id}
  {
    OnlyLoan(rt.work, rt.slotFull, rt.cache.loans.Keys, id);
  }

  lemma PublishedTimed(log: seq<Event>, c: Cache, c': Cache, key: Key, e: Entry, at: int, unvalidated: bool,
                       got: Version)
    requires Timed(log, c) && c'.fallbackTtl == c.fallbackTtl && c'.entries == c.entries[key := e]
    requires e.lastUsed == at && e.expiresAt == FallbackExpiry(unvalidated, at, c.fallbackTtl)
    ensures Timed(log + [Published(key, at, unvalidated, got)], c')
  {
    var log' := log + [Published(key, at, unvalidated, got)];
    assert log'[..|log|] == log;
    forall k | k in c'.entries ensures TimedEntry(log', c', k, c'.entries[k]) {
      assert k != key ==> TimedEntry(log, c, k, c.entries[k]);
    }
  }

  lemma PublishedHandles(requests: map<Id, Req>, entries: map<Key, Entry>, key: Key, e: Entry)
    requires Handles(requests, entries) && key !in entries && e.active == 0
    ensures Handles(requests, entries[key := e])
  {
    assert Holders(requests, key) == {};
  }

  /** The runtime after a successful commit, from the state in which the old entry is gone. */
  function AfterCommit(rt: Rt, id: Id, e: Entry, at: int, unvalidated: bool): Rt
    requires id in rt.work && rt.work[id].pc.Extracted?
  {
    var job := rt.work[id];
    JobTo(rt, id, Unwinding(true)).(cache := WithEntry(rt.cache, id, job.key, e),
                                    origins := rt.origins[job.key := job.pc.got],
                                    log := rt.log + [Published(job.key, at, unvalidated, job.pc.got)])
  }

  /** The parts of the state that the invariant reads and that a new entry may change. */
  ghost predicate EntryAdded(c: Cache, c': Cache, id: Id, key: Key, e: Entry) {
    && c'.root == c.root && c'.pending == c.pending && c'.fallbackTtl == c.fallbackTtl
    && c'.entries == c.entries[key := e]
    && c'.loans.Keys == c.loans.Keys && |c'.loans| == |c.loans|
    && id in c'.loans && id in c.loans && c'.loans[id].dir == c.loans[id].dir
  }

  lemma EntryAddedBy(c: Cache, id: Id, key: Key, e: Entry)
    requires id in c.loans
    ensures EntryAdded(c, WithEntry(c, id, key, e), id, key, e)
  {
    var c' := WithEntry(c, id, key, e);
    assert c'.loans.Keys == c.loans.Keys;
    assert |c'.loans.Keys| == |c'.loans| && |c.loans.Keys| == |c.loans|;
  }

  lemma AddedOrigin(keys: set<Key>, origins: map<Key, Version>, key: Key, got: Version, n: Naming)
    requires Origins(keys, origins, n) && n.key(got) == key && n.valid(got)
    ensures Origins(keys + {key}, origins[key := got], n)
  {
  }

  /** Only an entry, a reservation's charge and an origin changed. */
  lemma EntryCoherent(rt: Rt, c': Cache, id: Id, key: Key, e: Entry, origins: map<Key, Version>, n: Naming)
    requires Coherent(rt, n) && EntryAdded(rt.cache, c', id, key, e)
    requires Handles(rt.requests, c'.entries) && Origins(c'.entries.Keys, origins, n)
    ensures Coherent(rt.(cache := c', origins := origins), n)
  {
    hide JobBooks, Handles, Origins, FiledRequests, FiledJobs;
  }

  lemma CommittedCoherent(rt: Rt, id: Id, key: Key, got: Version, e: Entry, c': Cache, n: Naming)
    requires Coherent(rt, n) && key !in rt.cache.entries && e.active == 0
    requires n.key(got) == key && n.valid(got) && EntryAdded(rt.cache, c', id, key, e)
    ensures Coherent(rt.(cache := c', origins := rt.origins[key := got]), n)
  {
    hide JobBooks, FiledRequests, FiledJobs, Loans;
    PublishedHandles(rt.requests, rt.cache.entries, key, e);
    AddedOrigin(rt.cache.entries.Keys, rt.origins, key, got, n);
    assert c'.entries.Keys == rt.cache.entries.Keys + {key};
    EntryCoherent(rt, c', id, key, e, rt.origins[key := got], n);
  }

  lemma CommittedDirs(c: Cache, c': Cache, disk: Disk, disk': Disk, id: Id, key: Key, e: Entry)
    requires DirsThere(c, disk) && EntryAdded(c, c', id, key, e) && c.loans.Keys == {id} && disk.Keys <= disk'.Keys
    ensures DirsThere(c', disk')
  {
    forall p | p in c'.pending ensures DirThere(c', disk', p) {
      assert DirThere(c, disk, p);
    }
    forall i | i in c'.loans && c'.loans[i].dir.Some? ensures DirThere(c', disk', c'.loans[i].dir.value) {
      assert i == id && DirThere(c, disk, c.loans[id].dir.value);
    }
  }

  /** What a commit asks of the new entry. */
  ghost predicate NewEntryFits(c: Cache, id: Id, key: Key, e: Entry, pages: seq<PageRef>) {
    && id in c.loans && key !in c.entries && WellFormedKey(key.text)
    && e.root == EntryRoot(c, key) && e.total == Sizes(pages) && e.active == 0 && 0 <= e.total <= c.loans[id].bytes
  }

  lemma CommittedInv(cfg: Config, archive: Version, pc: JobPc, c: Cache, disk: Disk, id: Id, key: Key, e: Entry)
    requires Inv(World(c, disk)) && pc.Extracted? && NewEntryFits(c, id, key, e, pc.pages)
    requires JobPlace(cfg, pc, archive, c.loans[id], disk) && pc.dir.kind == JobDir
    ensures Inv(World(WithEntry(c, id, key, e), Publish(disk, pc.dir, e.root)))
  {
    hide Inv;
    PublishKeeps(World(c, disk), id, key, e, pc.pages);
  }

  lemma CommittedPlaces(cfg: Config, work: map<Id, Job>, c: Cache, disk: Disk, id: Id)
    requires c.loans.Keys == {id} && id in work && work[id].pc.Unwinding?
    ensures JobPlaces(cfg, work, c, disk)
  {
  }

  lemma CommittedOnDisk(rt: Rt, disk: Disk, id: Id, e: Entry, rt': Rt, disk': Disk)
    requires OnDisk(rt, disk) && id in rt.work && rt.work[id].pc.Extracted? && rt.cache.loans.Keys == {id}
    requires NewEntryFits(rt.cache, id, rt.work[id].key, e, rt.work[id].pc.pages)
    requires rt.work[id].pc.dir in disk && disk' == Publish(disk, rt.work[id].pc.dir, e.root)
    requires rt'.cfg == rt.cfg && rt'.cache == WithEntry(rt.cache, id, rt.work[id].key, e)
    requires id in rt'.work && rt'.work[id].pc.Unwinding?
    ensures OnDisk(rt', disk')
  {
    hide WithEntry, Inv;
    var job := rt.work[id];
    assert JobPlace(rt.cfg, job.pc, job.archive, rt.cache.loans[id], disk);
    assert DirThere(rt.cache, disk, job.pc.dir);
    EntryAddedBy(rt.cache, id, job.key, e);
    CommittedDirs(rt.cache, rt'.cache, disk, disk', id, job.key, e);
    CommittedInv(rt.cfg, job.archive, job.pc, rt.cache, disk, id, job.key, e);
    CommittedPlaces(rt'.cfg, rt'.work, rt'.cache, disk', id);
  }

  lemma PublishedFaithful(log: seq<Event>, key: Key, at: int, unvalidated: bool, got: Version, n: Naming)
    requires FaithfulLog(log, n) && RightlyPublished(Published(key, at, unvalidated, got), n)
    ensures FaithfulLog(log + [Published(key, at, unvalidated, got)], n)
  {
    FaithfulGrows(log, Published(key, at, unvalidated, got), n);
  }

  lemma PublishedTraced(log: seq<Event>, keys: set<Key>, origins: map<Key, Version>, key: Key, at: int,
                        unvalidated: bool,
                        got: Version)
    requires Traced(log, keys, origins)
    ensures Traced(log + [Published(key, at, unvalidated, got)], keys + {key}, origins[key := got])
  {
    var log' := log + [Published(key, at, unvalidated, got)];
    assert log'[..|log|] == log;
    forall k | k in keys + {key} ensures TracedKey(log', k, origins[key := got]) {
      assert k != key ==> TracedKey(log, k, origins);
    }
  }

  lemma CommittedLogged(rt: Rt, id: Id, key: Key, e: Entry, at: int, unvalidated: bool, got: Version, rt': Rt,
                        n: Naming)
    requires Logged(rt, n) && EntryAdded(rt.cache, rt'.cache, id, key, e)
    requires e.lastUsed == at && e.expiresAt == FallbackExpiry(unvalidated, at, rt.cache.fallbackTtl)
    requires rt'.log == rt.log + [Published(key, at, unvalidated, got)] && rt'.origins == rt.origins[key := got]
    requires RightlyPublished(Published(key, at, unvalidated, got), n)
    ensures Logged(rt', n)
  {
    hide Timed, NeverStale, Traced, FaithfulLog;
    PublishedTimed(rt.log, rt.cache, rt'.cache, key, e, at, unvalidated, got);
    LogGrows(rt.log, Published(key, at, unvalidated, got), rt.cache.fallbackTtl);
    PublishedFaithful(rt.log, key, at, unvalidated, got, n);
    PublishedTraced(rt.log, rt.cache.entries.Keys, rt.origins, key, at, unvalidated, got);
    assert rt'.cache.entries.Keys == rt.cache.entries.Keys + {key};
  }

  lemma CommittedGood(rt: Rt, disk: Disk, id: Id, e: Entry, at: int, unvalidated: bool, rt': Rt, disk': Disk, n: Naming)
    requires Good(rt, disk, n) && id in rt.work && rt.work[id].pc.Extracted?
    requires NewEntryFits(rt.cache, id, rt.work[id].key, e, rt.work[id].pc.pages)
    requires RightlyPublished(Published(rt.work[id].key, at, unvalidated, rt.work[id].pc.got), n)
    requires e.lastUsed == at && e.expiresAt == FallbackExpiry(unvalidated, at, rt.cache.fallbackTtl)
    requires rt.work[id].pc.dir in disk && disk' == Publish(disk, rt.work[id].pc.dir, e.root)
    requires rt' == AfterCommit(rt, id, e, at, unvalidated)
    ensures Good(rt', disk', n)
  {
    hide OnDisk, Logged, Coherent, WithEntry;
    var job := rt.work[id];
    OnlyReservation(rt, id, n);
    EntryAddedBy(rt.cache, id, job.key, e);
    MovedCoherent(rt, id, Unwinding(true), n);
    CommittedCoherent(JobTo(rt, id, Unwinding(true)), id, job.key, job.pc.got, e, rt'.cache, n);
    LogCoherent(rt'.(log := rt.log), rt'.log, n);
    CommittedOnDisk(rt, disk, id, e, rt', disk');
    CommittedLogged(rt, id, job.key, e, at, unvalidated, job.pc.got, rt', n);
  }

  /** A commit removes the entry it replaces, which only takes away, and then succeeds or not. */
  lemma CommitCases(w: World, id: Id, key: Key, unvalidated: bool, dir: Path, pages: seq<PageRef>, now: int,
                    io: CommitIo, faults: Faults)
    returns (w0: World, committed: bool)
    requires Ledger(w.cache)
    ensures Calm(w, w0) && Ledger(w0.cache)
    ensures !committed ==> Commit(w, id, key, unvalidated, dir, pages, now, io, faults).0 == w0
    ensures committed <==> Commit(w, id, key, unvalidated, dir, pages, now, io, faults).1 == Committed
    ensures committed ==>
              var e := NewEntry(w0.cache, key, unvalidated, pages, now);
              && NewEntryFits(w0.cache, id, key, e, pages) && dir in w0.disk
              && Commit(w, id, key, unvalidated, dir, pages, now, io, faults).0 ==
                 World(WithEntry(w0.cache, id, key, e), Publish(w0.disk, dir, e.root))
  {
    hide Calm, Ledger, PageAcceptable;
    var (w', result) := Commit(w, id, key, unvalidated, dir, pages, now, io, faults);
    committed := result == Committed;
    CalmRefl(w);
    RemoveCalm(w, key, faults);
    if committed {
      w0 := Remove(w, key, faults);
      AcceptedPages(w.disk, dir, pages, io.stats);
    } else {
      w0 := w';
    }
  }

  /** The archive a job extracted is filed under the job's key. */
  lemma GotFiled(rt: Rt, disk: Disk, id: Id, n: Naming)
    requires Good(rt, disk, n) && Consistent(n) && id in rt.work && rt.work[id].pc.Extracted?
    ensures n.key(rt.work[id].pc.got) == rt.work[id].key && n.valid(rt.work[id].pc.got)
    ensures Unvalidated(rt.work[id].archive.head) <==>
            rt.work[id].pc.got.head.etag == [] && rt.work[id].pc.got.head.lastModified == []
  {
    PlaceOf(rt, disk, id, n);
    assert FiledJob(rt.work[id], n);
  }

  /** CommitStep in terms of the cache's commit. */
  lemma CommitRefusedShape(rt: Rt, disk: Disk, id: Id, now: int, io: CommitIo, faults: Faults, r: (World, CommitResult))
    requires id in rt.work && rt.work[id].pc.Extracted? && r.1 != Committed
    requires var job := rt.work[id];
             r == Commit(WorldOf(rt, disk), id, job.key, Unvalidated(job.archive.head), job.pc.dir, job.pc.pages, now,
                 io, faults)
    ensures CommitStep(rt, disk, id, now, io, faults) ==
            (JobTo(rt, id, Unwinding(false)).(cache := r.0.cache), r.0.disk)
  {
    hide Commit;
  }

  lemma CommitDoneShape(rt: Rt, disk: Disk, id: Id, now: int, io: CommitIo, faults: Faults, r: (World, CommitResult),
                        w0: World, e: Entry)
    requires id in rt.work && rt.work[id].pc.Extracted? && r.1 == Committed && rt.work[id].pc.dir in w0.disk
    requires var job := rt.work[id];
             && r == Commit(WorldOf(rt, disk), id, job.key, Unvalidated(job.archive.head), job.pc.dir, job.pc.pages,
                 now, io, faults)
             && r.0 == World(WithEntry(w0.cache, id, job.key, e), Publish(w0.disk, job.pc.dir, e.root))
    ensures CommitStep(rt, disk, id, now, io, faults) ==
            (AfterCommit(rt.(cache := w0.cache), id, e, now, Unvalidated(rt.work[id].archive.head)),
             Publish(w0.disk, rt.work[id].pc.dir, e.root))
  {
    hide Commit, WithEntry, Publish;
  }

  lemma CommitRefusedGood(rt: Rt, disk: Disk, id: Id, w0: World, n: Naming)
    requires Good(rt, disk, n) && id in rt.work && rt.work[id].pc.Extracted?
    requires Calm(WorldOf(rt, disk), w0) && Ledger(w0.cache)
    ensures Good(JobTo(rt, id, Unwinding(false)).(cache := w0.cache), w0.disk, n)
  {
    hide Good, Calm, Ledger;
    CalmGood(rt, disk, w0, n);
    FailGood(rt.(cache := w0.cache), w0.disk, id, n);
  }

  lemma CommitDoneGood(rt: Rt, disk: Disk, id: Id, w0: World, e: Entry, now: int, n: Naming)
    requires Good(rt, disk, n) && Consistent(n) && id in rt.work && rt.work[id].pc.Extracted?
    requires Calm(WorldOf(rt, disk), w0) && Ledger(w0.cache)
    requires var job := rt.work[id];
             e == NewEntry(w0.cache, job.key, Unvalidated(job.archive.head), job.pc.pages, now)
             && NewEntryFits(w0.cache, id, job.key, e, job.pc.pages) && job.pc.dir in w0.disk
    ensures Good(AfterCommit(rt.(cache := w0.cache), id, e, now, Unvalidated(rt.work[id].archive.head)),
                 Publish(w0.disk, rt.work[id].pc.dir, e.root), n)
  {
    hide Good, Calm, Ledger, Consistent;
    var rt0, unvalidated := rt.(cache := w0.cache), Unvalidated(rt.work[id].archive.head);
    CalmGood(rt, disk, w0, n);
    GotFiled(rt, disk, id, n);
    CommittedGood(rt0, w0.disk, id, e, now, unvalidated, AfterCommit(rt0, id, e, now, unvalidated),
                  Publish(w0.disk, rt.work[id].pc.dir, e.root), n);
  }

  lemma GoodLedger(rt: Rt, disk: Disk, n: Naming)
    requires Good(rt, disk, n)
    ensures Ledger(rt.cache)
  {
  }

  /** The commit step is one of two transitions from a state that only took away. */
  lemma CommitStepCases(rt: Rt, disk: Disk, id: Id, now: int, io: CommitIo, faults: Faults)
    returns (w0: World, committed: bool)
    requires Ledger(rt.cache) && id in rt.work && rt.work[id].pc.Extracted?
    ensures Calm(WorldOf(rt, disk), w0) && Ledger(w0.cache)
    ensures !committed ==>
              CommitStep(rt, disk, id, now, io, faults)
                  == (JobTo(rt, id, Unwinding(false)).(cache := w0.cache), w0.disk)
    ensures committed ==>
              var job, unvalidated := rt.work[id], Unvalidated(rt.work[id].archive.head);
              var e := NewEntry(w0.cache, job.key, unvalidated, job.pc.pages, now);
              && NewEntryFits(w0.cache, id, job.key, e, job.pc.pages) && job.pc.dir in w0.disk
              && CommitStep(rt, disk, id, now, io, faults) ==
                 (AfterCommit(rt.(cache := w0.cache), id, e, now, unvalidated), Publish(w0.disk, job.pc.dir, e.root))
  {
    hide Commit, CommitStep, AfterCommit, NewEntryFits, WithEntry, Calm, Ledger, Publish, NewEntry, Unvalidated;
    var job, unvalidated := rt.work[id], Unvalidated(rt.work[id].archive.head);
    w0, committed := CommitCases(WorldOf(rt, disk), id, job.key, unvalidated, job.pc.dir, job.pc.pages, now, io,
        faults);
    var r := Commit(WorldOf(rt, disk), id, job.key, unvalidated, job.pc.dir, job.pc.pages, now, io, faults);
    if committed {
      CommitDoneShape(rt, disk, id, now, io, faults, r, w0,
          NewEntry(w0.cache, job.key, unvalidated, job.pc.pages, now));
    } else {
      CommitRefusedShape(rt, disk, id, now, io, faults, r);
    }
  }

  lemma CommitStepGood(rt: Rt, disk: Disk, id: Id, now: int, io: CommitIo, faults: Faults, n: Naming)
    requires Good(rt, disk, n) && Consistent(n) && id in rt.work && rt.work[id].pc.Extracted?
    ensures Good(CommitStep(rt, disk, id, now, io, faults).0, CommitStep(rt, disk, id, now, io, faults).1, n)
  {
    hide CommitStep, Good, NewEntryFits, WithEntry, Calm, Ledger, Publish, NewEntry, Consistent, Unvalidated;
    GoodLedger(rt, disk, n);
    var w0, committed := CommitStepCases(rt, disk, id, now, io, faults);
    var job, unvalidated := rt.work[id], Unvalidated(rt.work[id].archive.head);
    if committed {
      CommitDoneGood(rt, disk, id, w0, NewEntry(w0.cache, job.key, unvalidated, job.pc.pages, now), now, n);
    } else {
      CommitRefusedGood(rt, disk, id, w0, n);
    }
  }
}
