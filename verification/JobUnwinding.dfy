/** From its release to its end, a job keeps the invariant of the runtime. */
module JobUnwinding {
  import opened CacheModel
  import opened CacheProofs
  import opened CacheOperations
  import opened Runtime
  import opened RuntimeInvariant
  import opened RequestSteps
  import opened JobSteps
  import opened JobEnding

  // ----- Release -----

  /** What a release changes in the cache: the only reservation ends; its directory may become pending. */
  ghost predicate ReservationEnded(c: Cache, c': Cache, id: Id) {
    && c'.root == c.root && c'.fallbackTtl == c.fallbackTtl && c'.entries == c.entries
    && id in c.loans && c'.loans == c.loans - {id}
    && (c'.pending == c.pending || (c.loans[id].dir.Some?
        && c'.pending == c.pending[c.loans[id].dir.value := c.loans[id].bytes]))
  }

  lemma ReleaseFrame(w: World, id: Id, faults: Faults)
    requires id in w.cache.loans
    ensures ReservationEnded(w.cache, Release(w, id, faults).cache, id)
  {
  }

  lemma ReleasedPending(c: Cache, c': Cache, id: Id)
    requires ReservationEnded(c, c', id) && BoundedPending(c)
    ensures BoundedPending(c')
  {
    RemovedSize(c.loans, id);
    if c'.pending != c.pending {
      var p := c.loans[id].dir.value;
      assert c'.pending.Keys == c.pending.Keys + {p};
      assert |c.pending.Keys + {p}| <= |c.pending.Keys| + 1;
    }
  }

  lemma ReleasedLoans(work: map<Id, Job>, id: Id, pc: JobPc, ids: set<Id>)
    requires Loans(work, ids) && id in work && !HoldsLoan(pc)
    ensures Loans(Moved(work, id, pc), ids - {id})
  {
  }

  lemma ReleasedCoherent(rt: Rt, id: Id, pc: JobPc, c': Cache, n: Naming)
    requires Coherent(rt, n) && id in rt.work && rt.work[id].pc.Unwinding? && pc.Released?
    requires ReservationEnded(rt.cache, c', id)
    ensures Coherent(JobTo(rt, id, pc).(cache := c'), n)
  {
    hide JobBooks, Handles, Origins, FiledRequests, FiledJobs, Loans;
    MovedBooks(rt.work, rt.slotFull, rt.jobs, rt.results, rt.done, rt.issued, id, pc);
    MovedFiled(rt.work, id, pc, n);
    ReleasedLoans(rt.work, id, pc, rt.cache.loans.Keys);
    assert c'.loans.Keys == rt.cache.loans.Keys - {id};
    ReleasedPending(rt.cache, c', id);
  }

  /** A directory that stays charged after a failed deletion is still on disk. */
  lemma ReleasedDirs(c: Cache, disk: Disk, id: Id, faults: Faults, w': World)
    requires DirsThere(c, disk) && FreshDirs(c) && c.loans.Keys == {id} && w' == Release(World(c, disk), id, faults)
    ensures DirsThere(w'.cache, w'.disk)
  {
    var c', dir := w'.cache, c.loans[id].dir;
    assert dir.Some? ==> DirThere(c, disk, dir.value);
    forall p | p in c'.pending ensures DirThere(c', w'.disk, p) {
      assert p in c.pending ==> DirThere(c, disk, p);
    }
  }

  lemma ReleasedOnDisk(rt: Rt, disk: Disk, id: Id, faults: Faults, w': World, rt': Rt)
    requires OnDisk(rt, disk) && rt.cache.loans.Keys == {id} && w' == Release(WorldOf(rt, disk), id, faults)
    requires rt'.cfg == rt.cfg && rt'.cache == w'.cache
    ensures OnDisk(rt', w'.disk)
  {
    hide Release;
    ReleaseKeeps(WorldOf(rt, disk), id, faults);
    ReleasedDirs(rt.cache, disk, id, faults, w');
    ReleaseFrame(WorldOf(rt, disk), id, faults);
    assert rt'.cache.loans == map[];
  }

  lemma ReleaseShape(rt: Rt, disk: Disk, id: Id, faults: Faults, w': World)
    requires id in rt.work && rt.work[id].pc.Unwinding? && w' == Release(WorldOf(rt, disk), id, faults)
    ensures ReleaseStep(rt, disk, id, faults)
            == (JobTo(rt, id, Released(rt.work[id].pc.ok)).(cache := w'.cache), w'.disk)
  {
    hide Release;
  }

  lemma ReleaseStepGood(rt: Rt, disk: Disk, id: Id, faults: Faults, rt': Rt, disk': Disk, n: Naming)
    requires Good(rt, disk, n) && id in rt.work && rt.work[id].pc.Unwinding?
    requires (rt', disk') == ReleaseStep(rt, disk, id, faults)
    ensures Good(rt', disk', n)
  {
    hide Release, ReleaseStep, Coherent, OnDisk;
    var w' := Release(WorldOf(rt, disk), id, faults);
    ReleaseShape(rt, disk, id, faults, w');
    OnlyReservation(rt, id, n);
    assert id in rt.cache.loans.Keys;
    ReleaseFrame(WorldOf(rt, disk), id, faults);
    ReleasedCoherent(rt, id, Released(rt.work[id].pc.ok), w'.cache, n);
    ReleasedOnDisk(rt, disk, id, faults, w', rt');
    SameEntriesTimed(rt.log, rt.cache, w'.cache);
  }

  // ----- After the release -----

  /** Only the books changed, and no job with a reservation. */
  lemma BooksGood(rt: Rt, rt': Rt, disk: Disk, n: Naming)
    requires Good(rt, disk, n)
    requires rt' == rt.(work := rt'.work, slotFull := rt'.slotFull, jobs := rt'.jobs, results := rt'.results,
                        done := rt'.done, wg := rt'.wg)
    requires WaitGroup(rt') && JobBooks(rt'.work, rt'.slotFull, rt'.jobs, rt'.results, rt'.done, rt'.issued)
    requires Loans(rt'.work, rt'.cache.loans.Keys) && FiledJobs(rt'.work, n)
    requires forall i :: i in rt'.work && i in rt.cache.loans ==> i in rt.work && rt'.work[i] == rt.work[i]
    ensures Good(rt', disk, n)
  {
    hide JobBooks, Handles, Origins, FiledRequests, FiledJobs, Loans, Inv, DirsThere;
  }

  /** A job without a reservation moves on. */
  lemma TailGood(rt: Rt, rt': Rt, disk: Disk, id: Id, pc: JobPc, n: Naming)
    requires Good(rt, disk, n) && id in rt.work && !HoldsLoan(rt.work[id].pc) && !HoldsLoan(pc)
    requires rt' == JobTo(rt, id, pc).(slotFull := rt'.slotFull, jobs := rt'.jobs, results := rt'.results,
                                         done := rt'.done)
    requires JobBooks(rt'.work, rt'.slotFull, rt'.jobs, rt'.results, rt'.done, rt'.issued)
    ensures Good(rt', disk, n)
  {
    hide JobBooks, OnDisk, Logged, Handles, Origins, FiledRequests, FiledJobs;
    MovedLoans(rt.work, id, pc, rt.cache.loans.Keys);
    MovedFiled(rt.work, id, pc, n);
    BooksGood(rt, rt', disk, n);
  }

  lemma FreedSlot(work: map<Id, Job>, id: Id, pc: JobPc)
    requires OneSlot(work, true) && id in work && HoldsSlot(work[id].pc) && !HoldsSlot(pc)
    ensures OneSlot(Moved(work, id, pc), false)
  {
    var work' := Moved(work, id, pc);
    forall i | i in work' && HoldsSlot(work'[i].pc) ensures false {
      assert false;
    }
  }

  lemma HeldSlot(work: map<Id, Job>, slotFull: bool, id: Id)
    requires OneSlot(work, slotFull) && id in work && HoldsSlot(work[id].pc)
    ensures slotFull
  {
    assert SlotTaken(work);
  }

  lemma FreeSlotGood(rt: Rt, disk: Disk, id: Id, n: Naming)
    requires Good(rt, disk, n) && id in rt.work && rt.work[id].pc.Released?
    ensures Good(FreeSlot(rt, id), disk, n)
  {
    hide OneSlot, JobTable, Results, OnDisk, Logged;
    var pc := SlotFreed(rt.work[id].pc.ok);
    HeldSlot(rt.work, rt.slotFull, id);
    FreedSlot(rt.work, id, pc);
    MovedTable(rt.work, id, pc, rt.jobs);
    MovedResults(rt.work, id, pc, rt.results, rt.done, rt.issued);
    TailGood(rt, FreeSlot(rt, id), disk, id, pc, n);
  }

  lemma ErrResults(work: map<Id, Job>, id: Id, ok: bool, results: map<Id, bool>, done: set<Id>, issued: set<Id>)
    requires Results(work, results, done, issued) && id in work && work[id].pc.SlotFreed?
    ensures Results(Moved(work, id, ErrSet), results[id := ok], done, issued)
  {
  }

  lemma SetErrGood(rt: Rt, disk: Disk, id: Id, n: Naming)
    requires Good(rt, disk, n) && id in rt.work && rt.work[id].pc.SlotFreed?
    ensures Good(SetErr(rt, id), disk, n)
  {
    hide OneSlot, JobTable, Results, OnDisk, Logged;
    MovedSlot(rt.work, id, ErrSet, rt.slotFull);
    MovedTable(rt.work, id, ErrSet, rt.jobs);
    ErrResults(rt.work, id, rt.work[id].pc.ok, rt.results, rt.done, rt.issued);
    TailGood(rt, SetErr(rt, id), disk, id, ErrSet, n);
  }

  /** The job deletes itself, not another job. */
  lemma DeletedTable(work: map<Id, Job>, id: Id, jobs: map<Key, Id>)
    requires JobTable(work, jobs) && id in work && InTable(work[id].pc)
    ensures work[id].key in jobs && jobs[work[id].key] == id
    ensures JobTable(Moved(work, id, Deleted), jobs - {work[id].key})
  {
  }

  lemma SettledResults(work: map<Id, Job>, id: Id, results: map<Id, bool>, done: set<Id>, issued: set<Id>)
    requires Results(work, results, done, issued) && id in work && work[id].pc.ErrSet?
    ensures Results(Moved(work, id, Deleted), results, done, issued)
  {
  }

  lemma DeleteJobGood(rt: Rt, disk: Disk, id: Id, n: Naming)
    requires Good(rt, disk, n) && id in rt.work && rt.work[id].pc.ErrSet?
    ensures Good(DeleteJob(rt, id), disk, n)
  {
    hide OneSlot, JobTable, Results, OnDisk, Logged;
    MovedSlot(rt.work, id, Deleted, rt.slotFull);
    DeletedTable(rt.work, id, rt.jobs);
    SettledResults(rt.work, id, rt.results, rt.done, rt.issued);
    TailGood(rt, DeleteJob(rt, id), disk, id, Deleted, n);
  }

  /** The done channel was open, and the result is assigned. */
  lemma ClosedResults(work: map<Id, Job>, id: Id, results: map<Id, bool>, done: set<Id>, issued: set<Id>)
    requires Results(work, results, done, issued) && id in work && work[id].pc.Deleted?
    ensures id !in done && id in results
    ensures Results(Moved(work, id, DoneClosed), results, done + {id}, issued)
  {
  }

  lemma CloseDoneGood(rt: Rt, disk: Disk, id: Id, n: Naming)
    requires Good(rt, disk, n) && id in rt.work && rt.work[id].pc.Deleted?
    ensures Good(CloseDone(rt, id), disk, n)
  {
    hide OneSlot, JobTable, Results, OnDisk, Logged;
    MovedSlot(rt.work, id, DoneClosed, rt.slotFull);
    MovedTable(rt.work, id, DoneClosed, rt.jobs);
    ClosedResults(rt.work, id, rt.results, rt.done, rt.issued);
    TailGood(rt, CloseDone(rt, id), disk, id, DoneClosed, n);
  }

  lemma EndedSlot(work: map<Id, Job>, slotFull: bool, id: Id)
    requires OneSlot(work, slotFull) && id in work && !HoldsSlot(work[id].pc)
    ensures OneSlot(work - {id}, slotFull)
  {
    if SlotTaken(work) {
      var i :| i in work && HoldsSlot(work[i].pc);
      assert i in work - {id} && HoldsSlot((work - {id})[i].pc);
    }
    assert SlotTaken(work - {id}) ==> SlotTaken(work);
  }

  lemma EndedBooks(work: map<Id, Job>, slotFull: bool, jobs: map<Key, Id>,
                   results: map<Id, bool>, done: set<Id>, issued: set<Id>, id: Id)
    requires JobBooks(work, slotFull, jobs, results, done, issued) && id in work && work[id].pc.DoneClosed?
    ensures JobBooks(work - {id}, slotFull, jobs, results, done, issued)
  {
    EndedSlot(work, slotFull, id);
  }

  lemma EndedLoans(work: map<Id, Job>, ids: set<Id>, id: Id)
    requires Loans(work, ids) && id in work && !HoldsLoan(work[id].pc)
    ensures Loans(work - {id}, ids)
  {
  }

  lemma EndedFiled(work: map<Id, Job>, id: Id, n: Naming)
    requires FiledJobs(work, n)
    ensures FiledJobs(work - {id}, n)
  {
  }

  lemma EndJobGood(rt: Rt, disk: Disk, id: Id, n: Naming)
    requires Good(rt, disk, n) && id in rt.work && rt.work[id].pc.DoneClosed?
    ensures Good(EndJob(rt, id), disk, n)
  {
    hide JobBooks, FiledJobs, Loans, OnDisk, Logged;
    EndedBooks(rt.work, rt.slotFull, rt.jobs, rt.results, rt.done, rt.issued, id);
    EndedLoans(rt.work, rt.cache.loans.Keys, id);
    EndedFiled(rt.work, id, n);
    RemovedSize(rt.work, id);
    BooksGood(rt, EndJob(rt, id), disk, n);
  }
}
