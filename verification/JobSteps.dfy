/** The steps that start, run and end extraction jobs keep the invariant of the runtime. */
module JobSteps {
  import opened Sums
  import opened Options
  import opened Fingerprint
  import opened CacheModel
  import opened CacheOperations
  import opened Runtime
  import opened RuntimeInvariant

  // ----- Moving a job -----

  predicate Settled(pc: JobPc) {
    pc.ErrSet? || pc.Deleted? || pc.DoneClosed?
  }

  function Moved(work: map<Id, Job>, id: Id, pc: JobPc): map<Id, Job>
    requires id in work
  {
    work[id := work[id].(pc := pc)]
  }

  lemma MovedSlot(work: map<Id, Job>, id: Id, pc: JobPc, slotFull: bool)
    requires OneSlot(work, slotFull) && id in work && HoldsSlot(pc) == HoldsSlot(work[id].pc)
    ensures OneSlot(Moved(work, id, pc), slotFull)
  {
    var work' := Moved(work, id, pc);
    if SlotTaken(work) {
      var i :| i in work && HoldsSlot(work[i].pc);
      assert i in work' && HoldsSlot(work'[i].pc);
    }
    if SlotTaken(work') {
      var i :| i in work' && HoldsSlot(work'[i].pc);
      assert i in work && HoldsSlot(work[i].pc);
    }
  }

  lemma MovedTable(work: map<Id, Job>, id: Id, pc: JobPc, jobs: map<Key, Id>)
    requires JobTable(work, jobs) && id in work && InTable(pc) == InTable(work[id].pc)
    ensures JobTable(Moved(work, id, pc), jobs)
  {
  }

  lemma MovedFiled(work: map<Id, Job>, id: Id, pc: JobPc, n: Naming)
    requires FiledJobs(work, n) && id in work
    ensures FiledJobs(Moved(work, id, pc), n)
  {
    var work' := Moved(work, id, pc);
    forall i | i in work' ensures FiledJob(work'[i], n) {
      assert FiledJob(work[i], n);
    }
  }

  lemma MovedResults(work: map<Id, Job>, id: Id, pc: JobPc, results: map<Id, bool>, done: set<Id>, issued: set<Id>)
    requires Results(work, results, done, issued) && id in work && !Settled(pc) && !Settled(work[id].pc)
    ensures Results(Moved(work, id, pc), results, done, issued)
  {
  }

  lemma MovedLoans(work: map<Id, Job>, id: Id, pc: JobPc, ids: set<Id>)
    requires Loans(work, ids) && id in work && HoldsLoan(pc) == HoldsLoan(work[id].pc)
    ensures Loans(Moved(work, id, pc), ids)
  {
  }

  lemma MovedBooks(work: map<Id, Job>, slotFull: bool, jobs: map<Key, Id>,
                   results: map<Id, bool>, done: set<Id>, issued: set<Id>, id: Id, pc: JobPc)
    requires JobBooks(work, slotFull, jobs, results, done, issued)
    requires id in work && HoldsSlot(work[id].pc) && HoldsSlot(pc)
    ensures JobBooks(Moved(work, id, pc), slotFull, jobs, results, done, issued)
  {
    MovedSlot(work, id, pc, slotFull);
    MovedTable(work, id, pc, jobs);
    MovedResults(work, id, pc, results, done, issued);
  }

  /** A job that moves on inside extractJob, before its release. */
  lemma MovedCoherent(rt: Rt, id: Id, pc: JobPc, n: Naming)
    requires Coherent(rt, n) && id in rt.work && HoldsLoan(rt.work[id].pc) && HoldsLoan(pc)
    ensures Coherent(JobTo(rt, id, pc), n)
  {
    MovedBooks(rt.work, rt.slotFull, rt.jobs, rt.results, rt.done, rt.issued, id, pc);
    MovedLoans(rt.work, id, pc, rt.cache.loans.Keys);
    MovedFiled(rt.work, id, pc, n);
  }

  lemma MovedPlaces(cfg: Config, work: map<Id, Job>, id: Id, pc: JobPc, c: Cache, disk: Disk)
    requires JobPlaces(cfg, work, c, disk) && id in work
    requires id in c.loans ==> JobPlace(cfg, pc, work[id].archive, c.loans[id], disk)
    ensures JobPlaces(cfg, Moved(work, id, pc), c, disk)
  {
    var work' := Moved(work, id, pc);
    forall i | i in work' && i in c.loans ensures JobPlace(cfg, work'[i].pc, work'[i].archive, c.loans[i], disk) {
      assert i != id ==> JobPlace(cfg, work[i].pc, work[i].archive, c.loans[i], disk);
    }
  }

  lemma PlaceOf(rt: Rt, disk: Disk, id: Id, n: Naming)
    requires Good(rt, disk, n) && id in rt.work && HoldsLoan(rt.work[id].pc)
    ensures id in rt.cache.loans
    ensures JobPlace(rt.cfg, rt.work[id].pc, rt.work[id].archive, rt.cache.loans[id], disk)
    ensures rt.cache.loans[id].dir.Some? ==> DirThere(rt.cache, disk, rt.cache.loans[id].dir.value)
  {
  }

  lemma JobMoveGood(rt: Rt, disk: Disk, id: Id, pc: JobPc, n: Naming)
    requires Good(rt, disk, n) && id in rt.work && HoldsLoan(rt.work[id].pc) && HoldsLoan(pc)
    requires id in rt.cache.loans ==> JobPlace(rt.cfg, pc, rt.work[id].archive, rt.cache.loans[id], disk)
    ensures Good(JobTo(rt, id, pc), disk, n)
  {
    MovedCoherent(rt, id, pc, n);
    MovedPlaces(rt.cfg, rt.work, id, pc, rt.cache, disk);
  }

  lemma FailGood(rt: Rt, disk: Disk, id: Id, n: Naming)
    requires Good(rt, disk, n) && MayFail(rt, id)
    ensures Good(JobTo(rt, id, Unwinding(false)), disk, n)
  {
    JobMoveGood(rt, disk, id, Unwinding(false), n);
  }

  /** A directory without output files holds at most the input file. */
  lemma SingleFile(d: Dir)
    requires Outputs(d) == map[] && FileName.Archive in d
    ensures DirBytes(Inputs(d)) == d[FileName.Archive] && DirBytes(Outputs(d)) == 0
  {
    var input := map[FileName.Archive := d[FileName.Archive]];
    assert Inputs(d) == input;
    SumUpdate(map[], FileName.Archive, d[FileName.Archive]);
    assert input == map[][FileName.Archive := d[FileName.Archive]];
  }

  /** The checks after the download establish the extraction's place and the same version. */
  lemma FetchedPlace(cfg: Config, archive: Version, dir: Path, download: Head, loan: Loan, disk: Disk)
    requires ValidConfig(cfg) && JobPlace(cfg, HasDir(dir), archive, loan, disk) && archive.head.size >= 0
    requires FileName.Archive in disk[dir] && disk[dir][FileName.Archive] == download.size <= cfg.maxArchiveBytes
    requires !(archive.head.size >= 0 && download.size != archive.head.size)
    requires download.etag == archive.head.etag && download.lastModified == archive.head.lastModified
    ensures JobPlace(cfg, Fetched(dir, Version(archive.req, download)), archive, loan, disk)
  {
    SingleFile(disk[dir]);
  }

  lemma FetchGood(rt: Rt, disk: Disk, id: Id, download: Head, n: Naming)
    requires Good(rt, disk, n) && MayFetch(rt, disk, id, download)
    ensures Good(Fetch(rt, id, download), disk, n)
  {
    var job := rt.work[id];
    PlaceOf(rt, disk, id, n);
    assert FiledJob(job, n);
    FetchedPlace(rt.cfg, job.archive, job.pc.dir, download, rt.cache.loans[id], disk);
    JobMoveGood(rt, disk, id, Fetched(job.pc.dir, Version(job.archive.req, download)), n);
  }

  lemma FinishExtractionGood(rt: Rt, disk: Disk, id: Id, pages: seq<PageRef>, n: Naming)
    requires Good(rt, disk, n) && MayFinishExtraction(rt, disk, id, pages)
    ensures Good(FinishExtraction(rt, id, pages), disk, n)
  {
    var pc := rt.work[id].pc;
    PlaceOf(rt, disk, id, n);
    SumParts(disk[pc.dir], Inputs(disk[pc.dir]), Outputs(disk[pc.dir]));
    JobMoveGood(rt, disk, id, Extracted(pc.dir, pc.got, pages), n);
  }

  // ----- Writing in the job directory -----

  /** Another job's place does not depend on this job's directory. */
  lemma WriteOnDisk(rt: Rt, disk: Disk, id: Id, dir: Path, d: Dir)
    requires OnDisk(rt, disk) && id in rt.work && id in rt.cache.loans && rt.cache.loans[id].dir == Some(dir)
    requires dir in disk && DirBytes(d) <= rt.cache.loans[id].bytes
    requires JobPlace(rt.cfg, rt.work[id].pc, rt.work[id].archive, rt.cache.loans[id], disk[dir := d])
    ensures OnDisk(rt, disk[dir := d])
  {
    var c, disk' := rt.cache, disk[dir := d];
    assert DirThere(c, disk, dir);
    JobWriteKeeps(WorldOf(rt, disk), id, d);
    forall p | p in c.pending ensures DirThere(c, disk', p) {
      assert DirThere(c, disk, p);
    }
    forall i | i in c.loans && c.loans[i].dir.Some? ensures DirThere(c, disk', c.loans[i].dir.value) {
      assert DirThere(c, disk, c.loans[i].dir.value);
    }
    forall i | i in rt.work && i in c.loans
      ensures JobPlace(rt.cfg, rt.work[i].pc, rt.work[i].archive, c.loans[i], disk')
    {
      assert JobPlace(rt.cfg, rt.work[i].pc, rt.work[i].archive, c.loans[i], disk);
      assert i != id ==> c.loans[i].dir != Some(dir);
    }
  }

  lemma DownloadedPlace(cfg: Config, archive: Version, dir: Path, size: nat, d: Dir, loan: Loan, disk: Disk)
    requires ValidConfig(cfg) && JobPlace(cfg, HasDir(dir), archive, loan, disk) && size <= cfg.maxArchiveBytes + 1
    requires d == map[FileName.Archive := size]
    ensures DirBytes(d) <= loan.bytes && JobPlace(cfg, HasDir(dir), archive, loan, disk[dir := d])
  {
    assert Outputs(d) == map[] && Inputs(d) == d;
    SingleFile(d);
  }

  lemma DownloadGood(rt: Rt, disk: Disk, id: Id, size: nat, d: Dir, n: Naming)
    requires Good(rt, disk, n) && MayDownload(rt, id, size) && d == map[FileName.Archive := size]
    ensures Good(rt, disk[rt.work[id].pc.dir := d], n)
  {
    var dir := rt.work[id].pc.dir;
    PlaceOf(rt, disk, id, n);
    DownloadedPlace(rt.cfg, rt.work[id].archive, dir, size, d, rt.cache.loans[id], disk);
    WriteOnDisk(rt, disk, id, dir, d);
  }

  lemma ExtractWriteGood(rt: Rt, disk: Disk, id: Id, d: Dir, n: Naming)
    requires Good(rt, disk, n) && MayExtractWrite(rt, disk, id, d)
    ensures Good(rt, ExtractWrite(rt, disk, id, d), n)
  {
    PlaceOf(rt, disk, id, n);
    SumParts(d, Inputs(d), Outputs(d));
    WriteOnDisk(rt, disk, id, rt.work[id].pc.dir, d);
  }

  // ----- Making the job directory -----

  /** The cache once the reservation knows its directory. */
  lemma JobDirSet(c: Cache, disk: Disk, id: Id, p: Path) returns (c': Cache)
    requires id in c.loans && c.loans[id].dir == None
    ensures c' == SetJobDir(World(c, disk), id, p).cache
    ensures c' == c.(loans := c.loans[id := c.loans[id].(dir := Some(p))])
  {
    c' := c.(loans := c.loans[id := c.loans[id].(dir := Some(p))]);
  }

  lemma MakeDirPlaces(cfg: Config, work: map<Id, Job>, c: Cache, c': Cache, disk: Disk, id: Id, p: Path)
    requires ValidConfig(cfg) && JobPlaces(cfg, work, c, disk) && id in work && id in c.loans && p !in disk
    requires c.loans[id] == Loan(PeakBytes(cfg), None, false)
    requires c' == c.(loans := c.loans[id := c.loans[id].(dir := Some(p))])
    ensures JobPlaces(cfg, Moved(work, id, HasDir(p)), c', disk[p := map[]])
  {
    var work', disk' := Moved(work, id, HasDir(p)), disk[p := map[]];
    forall i | i in work' && i in c'.loans
      ensures JobPlace(cfg, work'[i].pc, work'[i].archive, c'.loans[i], disk')
    {
      if i == id {
        assert Outputs(map[]) == map[] && DirBytes(map[]) == 0;
      } else {
        assert JobPlace(cfg, work[i].pc, work[i].archive, c.loans[i], disk);
      }
    }
  }

  lemma MakeDirThere(c: Cache, c': Cache, disk: Disk, id: Id, p: Path)
    requires DirsThere(c, disk) && id in c.loans && p !in disk && Owned(c, p, JobDir)
    requires c' == c.(loans := c.loans[id := c.loans[id].(dir := Some(p))])
    ensures DirsThere(c', disk[p := map[]])
    ensures p !in c.pending && forall i :: i in c.loans ==> c.loans[i].dir != Some(p)
  {
    var disk' := disk[p := map[]];
    forall i | i in c.loans && c.loans[i].dir.Some? ensures DirThere(c', disk', c.loans[i].dir.value)
      && c.loans[i].dir != Some(p) {
      assert DirThere(c, disk, c.loans[i].dir.value);
    }
    forall q | q in c'.pending ensures DirThere(c', disk', q) && q != p {
      assert DirThere(c, disk, q);
    }
  }

  lemma MakeDirOnDisk(rt: Rt, disk: Disk, id: Id, p: Path, c': Cache)
    requires OnDisk(rt, disk) && ValidConfig(rt.cfg) && MayMakeDir(rt, disk, id, p) && id in rt.cache.loans
    requires c' == rt.cache.(loans := rt.cache.loans[id := rt.cache.loans[id].(dir := Some(p))])
    ensures OnDisk(JobTo(rt, id, HasDir(p)).(cache := c'), disk[p := map[]])
  {
    assert JobPlace(rt.cfg, rt.work[id].pc, rt.work[id].archive, rt.cache.loans[id], disk);
    MakeDirThere(rt.cache, c', disk, id, p);
    JobDirKeeps(WorldOf(rt, disk), id, p);
    MakeDirPlaces(rt.cfg, rt.work, rt.cache, c', disk, id, p);
  }

  /** Only the directories of reservations changed. */
  lemma LoansCoherent(rt: Rt, c': Cache, n: Naming)
    requires Coherent(rt, n)
    requires c'.root == rt.cache.root && c'.entries == rt.cache.entries && c'.pending == rt.cache.pending
    requires Loans(rt.work, c'.loans.Keys) && |c'.loans| == |rt.cache.loans|
    ensures Coherent(rt.(cache := c'), n)
  {
  }

  lemma MakeDirLoans(work: map<Id, Job>, c: Cache, id: Id, p: Path, c': Cache)
    requires Loans(work, c.loans.Keys) && id in c.loans
    requires c' == c.(loans := c.loans[id := c.loans[id].(dir := Some(p))])
    ensures Loans(work, c'.loans.Keys) && |c'.loans| == |c.loans|
  {
  }

  lemma MakeDirCoherent(rt: Rt, rt': Rt, id: Id, p: Path, c': Cache, n: Naming)
    requires Coherent(rt, n) && id in rt.work && rt.work[id].pc == Started && id in rt.cache.loans
    requires c' == rt.cache.(loans := rt.cache.loans[id := rt.cache.loans[id].(dir := Some(p))])
    requires rt' == JobTo(rt, id, HasDir(p))
    ensures Coherent(rt'.(cache := c'), n)
  {
    MovedCoherent(rt, id, HasDir(p), n);
    MakeDirLoans(rt'.work, rt'.cache, id, p, c');
    LoansCoherent(rt', c', n);
  }

  lemma MakeDirGood(rt: Rt, disk: Disk, id: Id, p: Path, c': Cache, n: Naming)
    requires Good(rt, disk, n) && MayMakeDir(rt, disk, id, p) && id in rt.cache.loans
    requires c' == rt.cache.(loans := rt.cache.loans[id := rt.cache.loans[id].(dir := Some(p))])
    ensures Good(JobTo(rt, id, HasDir(p)).(cache := c'), disk[p := map[]], n)
  {
    MakeDirCoherent(rt, JobTo(rt, id, HasDir(p)), id, p, c', n);
    MakeDirOnDisk(rt, disk, id, p, c');
    SameEntriesTimed(rt.log, rt.cache, c');
  }

  lemma SameEntriesTimed(log: seq<Event>, c: Cache, c': Cache)
    requires Timed(log, c) && c'.entries == c.entries && c'.fallbackTtl == c.fallbackTtl
    ensures Timed(log, c')
  {
    forall k | k in c'.entries ensures TimedEntry(log, c', k, c'.entries[k]) {
      assert TimedEntry(log, c, k, c.entries[k]);
    }
  }
}
