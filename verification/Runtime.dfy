/**
 One configured runtime as a transition system. The actors are the request handlers, the
 extraction jobs and the sweeper; each step is a section of the code that runs under a lock, or
 one visible effect on the disk. Whatever the code leaves open (time, I/O failures, map iteration
 order, upstream answers, scheduling) is a parameter of the step.
 */
module Runtime {
  import opened Fingerprint
  import opened CacheModel
  import opened CacheOperations

  type Id = nat

  datatype Config = Config(root: nat, cacheSize: int, cacheTtl: int, maxArchiveBytes: int, maxTotalBytes: int)

  /** The bounds that `normalizeConfig` enforces. */
  predicate ValidConfig(cfg: Config) {
    && 1 <= cfg.cacheSize <= 0x1_0000_0000
    && 1_000_000_000 <= cfg.cacheTtl <= 86_400_000_000_000
    && 1 <= cfg.maxArchiveBytes <= 0x2000_0000
    && 1 <= cfg.maxTotalBytes <= MAX_TOTAL_BYTES
  }

  /** What every job reserves: the full input bound and the full output bound. */
  function PeakBytes(cfg: Config): int {
    cfg.maxArchiveBytes + cfg.maxTotalBytes
  }

  /** A version of an archive: the request that names it and the answer that describes it. */
  datatype Version = Version(req: Request, head: Head)

  /** The key a version is filed under, and which versions a validated request can name. */
  datatype Naming = Naming(key: Version -> Key, valid: Version -> bool)

  /** The six fields that identify a version agree. */
  predicate SameVersion(a: Version, b: Version) {
    && a.req.apiVersion == b.req.apiVersion && a.req.contentId == b.req.contentId && a.req.fileId == b.req.fileId
    && a.head == b.head
  }

  /** Keys and validity depend on the six fields only. */
  ghost predicate Consistent(n: Naming) {
    forall a, b :: SameVersion(a, b) ==> n.key(a) == n.key(b) && n.valid(a) == n.valid(b)
  }

  // ----- Actors -----

  datatype ReqPc =
    | Admitted              // counted by the wait group
    | Authorized            // HEAD answered, key computed
    | Missed                // first lookup missed; may start a job
    | Waiting(job: Id)
    | Ready                 // the job succeeded; second lookup comes next
    | Holding               // holds a handle
    | Responded             // answered from the handle, which is still held
    | Leaving               // holds nothing but the wait group

  datatype Req = Req(archive: Version, key: Key, keyGiven: bool, pc: ReqPc)

  datatype JobPc =
    | Started
    | HasDir(dir: Path)                               // downloading
    | Fetched(dir: Path, got: Version)                // download complete and checked; extracting
    | Extracted(dir: Path, got: Version, pages: seq<PageRef>)
    | Unwinding(ok: bool)                             // extractJob returns: release, then free the slot
    | Released(ok: bool)
    | SlotFreed(ok: bool)
    | ErrSet                                          // job.err is assigned
    | Deleted                                         // removed from the jobs map
    | DoneClosed

  datatype Job = Job(archive: Version, key: Key, pc: JobPc)

  datatype Event =
    | Published(key: Key, at: int, unvalidated: bool, origin: Version)
    | HandedOut(key: Key, at: int)
    | Served(asked: Version, origin: Version)

  /**
   `done` are the closed done channels, `results` the assigned job errors (true for nil), `issued`
   all job objects, and `origins` the archive that the last published entry of a key came from.
   */
  datatype Rt = Rt(
    cfg: Config, cache: Cache, stopping: bool, slotFull: bool, jobs: map<Key, Id>, wg: int, sweeping: bool,
    requests: map<Id, Req>, work: map<Id, Job>,
    issued: set<Id>, results: map<Id, bool>, done: set<Id>, origins: map<Key, Version>, log: seq<Event>)

  function WorldOf(rt: Rt, disk: Disk): World {
    World(rt.cache, disk)
  }

  function Pins(r: Req): bool {
    r.pc == Holding || r.pc == Responded
  }

  predicate HoldsLoan(pc: JobPc) {
    pc.Started? || pc.HasDir? || pc.Fetched? || pc.Extracted? || pc.Unwinding?
  }

  predicate HoldsSlot(pc: JobPc) {
    HoldsLoan(pc) || pc.Released?
  }

  /** The job is still in the jobs map. */
  predicate InTable(pc: JobPc) {
    HoldsSlot(pc) || pc.SlotFreed? || pc.ErrSet?
  }

  // ----- Steps of a request -----

  function Move(rt: Rt, r: Id, pc: ReqPc): Rt
    requires r in rt.requests
  {
    rt.(requests := rt.requests[r := rt.requests[r].(pc := pc)])
  }

  /** The admission section: under jobsMu, unless the runtime is stopping. */
  function Admit(rt: Rt, r: Id, blank: Req): Rt {
    rt.(requests := rt.requests[r := blank.(pc := Admitted)], wg := rt.wg + 1)
  }

  /** HEAD succeeded for a validated request. */
  function Authorize(rt: Rt, r: Id, archive: Version, keyGiven: bool, n: Naming): Rt {
    rt.(requests := rt.requests[r := Req(archive, n.key(archive), keyGiven, Authorized)])
  }

  predicate MayAuthorize(rt: Rt, r: Id, archive: Version, n: Naming) {
    r in rt.requests && rt.requests[r].pc == Admitted && n.valid(archive) && archive.head.size >= 0
  }

  /** A lookup, first or second. A miss ends the request unless it may still start a job. */
  function LookupStep(rt: Rt, disk: Disk, r: Id, now: int, unreadable: Unreadable, faults: Faults): (Rt, Disk)
    requires r in rt.requests
  {
    var req := rt.requests[r];
    var (w, hit) := Lookup(WorldOf(rt, disk), req.key, now, unreadable, faults);
    if hit then
      (Move(rt, r, Holding).(cache := w.cache, log := rt.log + [HandedOut(req.key, now)]), w.disk)
    else
      (Move(rt, r, if req.pc == Authorized && !req.keyGiven then Missed else Leaving).(cache := w.cache), w.disk)
  }

  predicate MayLookup(rt: Rt, r: Id) {
    r in rt.requests && (rt.requests[r].pc == Authorized || rt.requests[r].pc == Ready)
  }

  /** getOrStartJob, all of it under jobsMu. */
  function StartJob(rt: Rt, disk: Disk, r: Id, id: Id, now: int, ranges: Ranges, victims: seq<Key>,
                    faults: Faults): (Rt, Disk)
    requires r in rt.requests
  {
    var req := rt.requests[r];
    if rt.stopping then (Move(rt, r, Leaving), disk)
    else if req.key in rt.jobs then (Move(rt, r, Waiting(rt.jobs[req.key])), disk)
    else if rt.slotFull then (Move(rt, r, Leaving), disk)
    else
      var (w, ok) := Reserve(WorldOf(rt, disk), id, PeakBytes(rt.cfg), now, ranges, victims, faults);
      if !ok then (Move(rt, r, Leaving).(cache := w.cache), w.disk)
      else
        (Move(rt, r, Waiting(id)).(cache := w.cache, slotFull := true, jobs := rt.jobs[req.key := id],
                                   work := rt.work[id := Job(req.archive, req.key, Started)],
                                   issued := rt.issued + {id}, wg := rt.wg + 1), w.disk)
  }

  /** The section comes to the reservation only when it has taken the slot. */
  predicate ComesToReserve(rt: Rt, key: Key) {
    !rt.stopping && key !in rt.jobs && !rt.slotFull
  }

  ghost predicate MayStartJob(rt: Rt, disk: Disk, r: Id, id: Id, now: int, ranges: Ranges, victims: seq<Key>,
                              faults: Faults) {
    && r in rt.requests && rt.requests[r].pc == Missed && id !in rt.issued
    && (ComesToReserve(rt, rt.requests[r].key)
        ==> ReserveChoice(WorldOf(rt, disk), PeakBytes(rt.cfg), now, ranges, victims, faults))
  }

  /** The done channel is closed: the error decides. An error that was never assigned would read as nil. */
  function Wake(rt: Rt, r: Id): Rt
    requires r in rt.requests && rt.requests[r].pc.Waiting?
  {
    var job := rt.requests[r].pc.job;
    Move(rt, r, if job !in rt.results || rt.results[job] then Ready else Leaving)
  }

  /** Answers from the entry under the handle. */
  function Respond(rt: Rt, r: Id): Rt
    requires r in rt.requests
  {
    var req := rt.requests[r];
    var rt' := Move(rt, r, Responded);
    if req.key in rt.origins then rt'.(log := rt.log + [Served(req.archive, rt.origins[req.key])]) else rt'
  }

  function ReleaseHandle(rt: Rt, r: Id): Rt
    requires r in rt.requests
  {
    Move(rt, r, Leaving).(cache := Unpin(World(rt.cache, map[]), rt.requests[r].key).cache)
  }

  function Leave(rt: Rt, r: Id): Rt {
    rt.(requests := rt.requests - {r}, wg := rt.wg - 1)
  }

  // ----- Steps of a job -----

  function JobTo(rt: Rt, id: Id, pc: JobPc): Rt
    requires id in rt.work
  {
    rt.(work := rt.work[id := rt.work[id].(pc := pc)])
  }

  /** Every error return of extractJob before the commit, cancellation included. */
  predicate MayFail(rt: Rt, id: Id) {
    id in rt.work && HoldsLoan(rt.work[id].pc) && !rt.work[id].pc.Unwinding?
  }

  function MakeDir(rt: Rt, disk: Disk, id: Id, p: Path): (Rt, Disk)
    requires id in rt.work
  {
    (JobTo(rt, id, HasDir(p)).(cache := SetJobDir(WorldOf(rt, disk), id, p).cache), disk[p := map[]])
  }

  predicate MayMakeDir(rt: Rt, disk: Disk, id: Id, p: Path) {
    id in rt.work && rt.work[id].pc == Started && p !in disk && Owned(rt.cache, p, JobDir)
  }

  /** The download grows the input file, by at most one byte beyond the limit. */
  predicate MayDownload(rt: Rt, id: Id, size: nat) {
    id in rt.work && rt.work[id].pc.HasDir? && size <= rt.cfg.maxArchiveBytes + 1
  }

  function Download(rt: Rt, disk: Disk, id: Id, size: nat): Disk
    requires id in rt.work && rt.work[id].pc.HasDir?
  {
    disk[rt.work[id].pc.dir := map[FileName.Archive := size]]
  }

  /** The checks after the download: within the limit, and the same version as the HEAD. */
  predicate MayFetch(rt: Rt, disk: Disk, id: Id, download: Head) {
    && id in rt.work && rt.work[id].pc.HasDir?
    && var dir, head := rt.work[id].pc.dir, rt.work[id].archive.head;
       && dir in disk && FileName.Archive in disk[dir] && disk[dir][FileName.Archive] == download.size
       && download.size <= rt.cfg.maxArchiveBytes
       && !(head.size >= 0 && download.size != head.size)
       && download.etag == head.etag && download.lastModified == head.lastModified
  }

  function Fetch(rt: Rt, id: Id, download: Head): Rt
    requires id in rt.work && rt.work[id].pc.HasDir?
  {
    JobTo(rt, id, Fetched(rt.work[id].pc.dir, Version(rt.work[id].archive.req, download)))
  }

  /** The extractor changes the output files, within its total byte budget. */
  ghost predicate MayExtractWrite(rt: Rt, disk: Disk, id: Id, d: Dir) {
    && id in rt.work && rt.work[id].pc.Fetched? && rt.work[id].pc.dir in disk
    && Inputs(d) == Inputs(disk[rt.work[id].pc.dir]) && DirBytes(Outputs(d)) <= rt.cfg.maxTotalBytes
  }

  function ExtractWrite(rt: Rt, disk: Disk, id: Id, d: Dir): Disk
    requires id in rt.work && rt.work[id].pc.Fetched?
  {
    disk[rt.work[id].pc.dir := d]
  }

  /** The extractor succeeded: it lists its output files exactly. */
  ghost predicate MayFinishExtraction(rt: Rt, disk: Disk, id: Id, pages: seq<PageRef>) {
    && id in rt.work && rt.work[id].pc.Fetched? && rt.work[id].pc.dir in disk
    && OutputsExact(disk[rt.work[id].pc.dir], pages)
  }

  function FinishExtraction(rt: Rt, id: Id, pages: seq<PageRef>): Rt
    requires id in rt.work && rt.work[id].pc.Fetched?
  {
    JobTo(rt, id, Extracted(rt.work[id].pc.dir, rt.work[id].pc.got, pages))
  }

  /** `validatorFingerprint(...) == ""`. */
  predicate Unvalidated(head: Head) {
    head.etag == [] && head.lastModified == []
  }

  function CommitStep(rt: Rt, disk: Disk, id: Id, now: int, io: CommitIo, faults: Faults): (Rt, Disk)
    requires id in rt.work && rt.work[id].pc.Extracted?
  {
    var job := rt.work[id];
    var unvalidated := Unvalidated(job.archive.head);
    var (w, result) := Commit(WorldOf(rt, disk), id, job.key, unvalidated, job.pc.dir, job.pc.pages, now, io, faults);
    if result == Committed then
      (JobTo(rt, id, Unwinding(true)).(cache := w.cache, origins := rt.origins[job.key := job.pc.got],
                                       log := rt.log + [Published(job.key, now, unvalidated, job.pc.got)]), w.disk)
    else (JobTo(rt, id, Unwinding(false)).(cache := w.cache), w.disk)
  }

  function ReleaseStep(rt: Rt, disk: Disk, id: Id, faults: Faults): (Rt, Disk)
    requires id in rt.work && rt.work[id].pc.Unwinding?
  {
    var w := Release(WorldOf(rt, disk), id, faults);
    (JobTo(rt, id, Released(rt.work[id].pc.ok)).(cache := w.cache), w.disk)
  }

  function FreeSlot(rt: Rt, id: Id): Rt
    requires id in rt.work && rt.work[id].pc.Released?
  {
    JobTo(rt, id, SlotFreed(rt.work[id].pc.ok)).(slotFull := false)
  }

  function SetErr(rt: Rt, id: Id): Rt
    requires id in rt.work && rt.work[id].pc.SlotFreed?
  {
    JobTo(rt, id, ErrSet).(results := rt.results[id := rt.work[id].pc.ok])
  }

  function DeleteJob(rt: Rt, id: Id): Rt
    requires id in rt.work
  {
    JobTo(rt, id, Deleted).(jobs := rt.jobs - {rt.work[id].key})
  }

  function CloseDone(rt: Rt, id: Id): Rt
    requires id in rt.work
  {
    JobTo(rt, id, DoneClosed).(done := rt.done + {id})
  }

  function EndJob(rt: Rt, id: Id): Rt {
    rt.(work := rt.work - {id}, wg := rt.wg - 1)
  }

  // ----- Steps of the sweeper -----

  function SweepStep(rt: Rt, disk: Disk, now: int, ranges: Ranges, faults: Faults): (Rt, Disk) {
    if rt.cache.closed then (rt, disk)
    else
      var w := Sweep(WorldOf(rt, disk), ranges, now, faults);
      (rt.(cache := w.cache), w.disk)
  }

  function StopSweeper(rt: Rt): Rt {
    rt.(sweeping := false, wg := rt.wg - 1)
  }

  // ----- All steps -----

  datatype Action =
    | DoReject(r: Id)
    | DoAuthorize(r: Id, archive: Version, keyGiven: bool)
    | DoLookup(r: Id, now: int, unreadable: Unreadable, faults: Faults)
    | DoStartJob(r: Id, id: Id, now: int, ranges: Ranges, victims: seq<Key>, faults: Faults)
    | DoWake(r: Id)
    | DoGiveUp(r: Id)
    | DoRespond(r: Id)
    | DoReleaseHandle(r: Id)
    | DoLeave(r: Id)
    | DoFail(id: Id)
    | DoMakeDir(id: Id, dir: Path)
    | DoDownload(id: Id, size: nat)
    | DoFetch(id: Id, download: Head)
    | DoExtractWrite(id: Id, d: Dir)
    | DoFinishExtraction(id: Id, pages: seq<PageRef>)
    | DoCommit(id: Id, now: int, io: CommitIo, faults: Faults)
    | DoRelease(id: Id, faults: Faults)
    | DoFreeSlot(id: Id)
    | DoSetErr(id: Id)
    | DoDeleteJob(id: Id)
    | DoCloseDone(id: Id)
    | DoEndJob(id: Id)
    | DoSweep(now: int, ranges: Ranges, faults: Faults)
    | DoStopSweeper

  predicate ReqAt(rt: Rt, r: Id, pc: ReqPc) {
    r in rt.requests && rt.requests[r].pc == pc
  }

  /** The step is possible: its actor is at the right place. */
  ghost predicate Enabled(rt: Rt, disk: Disk, a: Action, n: Naming) {
    match a
    case DoReject(r) => ReqAt(rt, r, Admitted) || ReqAt(rt, r, Authorized)
    case DoAuthorize(r, archive, keyGiven) => MayAuthorize(rt, r, archive, n)
    case DoLookup(r, now, unreadable, faults) => MayLookup(rt, r)
    case DoStartJob(r, id, now, ranges, victims, faults) => MayStartJob(rt, disk, r, id, now, ranges, victims, faults)
    case DoWake(r) => r in rt.requests && rt.requests[r].pc.Waiting? && rt.requests[r].pc.job in rt.done
    case DoGiveUp(r) => r in rt.requests && rt.requests[r].pc.Waiting?
    case DoRespond(r) => ReqAt(rt, r, Holding)
    case DoReleaseHandle(r) => ReqAt(rt, r, Holding) || ReqAt(rt, r, Responded)
    case DoLeave(r) => ReqAt(rt, r, Leaving)
    case DoFail(id) => MayFail(rt, id)
    case DoMakeDir(id, dir) => MayMakeDir(rt, disk, id, dir)
    case DoDownload(id, size) => MayDownload(rt, id, size)
    case DoFetch(id, download) => MayFetch(rt, disk, id, download)
    case DoExtractWrite(id, d) => MayExtractWrite(rt, disk, id, d)
    case DoFinishExtraction(id, pages) => MayFinishExtraction(rt, disk, id, pages)
    case DoCommit(id, now, io, faults) => id in rt.work && rt.work[id].pc.Extracted?
    case DoRelease(id, faults) => id in rt.work && rt.work[id].pc.Unwinding?
    case DoFreeSlot(id) => id in rt.work && rt.work[id].pc.Released?
    case DoSetErr(id) => id in rt.work && rt.work[id].pc.SlotFreed?
    case DoDeleteJob(id) => id in rt.work && rt.work[id].pc.ErrSet?
    case DoCloseDone(id) => id in rt.work && rt.work[id].pc.Deleted?
    case DoEndJob(id) => id in rt.work && rt.work[id].pc.DoneClosed?
    case DoSweep(now, ranges, faults) => rt.sweeping && RangesOver(ranges, WorldOf(rt, disk))
    case DoStopSweeper => rt.sweeping && rt.stopping
  }

  /** The next state, and the disk it leaves. */
  function Step(rt: Rt, disk: Disk, a: Action, n: Naming): (Rt, Disk) {
    match a
    case DoReject(r) => (if r in rt.requests then Move(rt, r, Leaving) else rt, disk)
    case DoAuthorize(r, archive, keyGiven) => (Authorize(rt, r, archive, keyGiven, n), disk)
    case DoLookup(r, now, unreadable, faults) => if r in rt.requests then LookupStep(rt, disk, r, now, unreadable,
      faults)
      else (rt, disk)
    case DoStartJob(r, id, now, ranges, victims, faults) =>
      if r in rt.requests then StartJob(rt, disk, r, id, now, ranges, victims, faults) else (rt, disk)
    case DoWake(r) => (if r in rt.requests && rt.requests[r].pc.Waiting? then Wake(rt, r) else rt, disk)
    case DoGiveUp(r) => (if r in rt.requests then Move(rt, r, Leaving) else rt, disk)
    case DoRespond(r) => (if r in rt.requests then Respond(rt, r) else rt, disk)
    case DoReleaseHandle(r) => (if r in rt.requests then ReleaseHandle(rt, r) else rt, disk)
    case DoLeave(r) => (Leave(rt, r), disk)
    case DoFail(id) => (if id in rt.work then JobTo(rt, id, Unwinding(false)) else rt, disk)
    case DoMakeDir(id, dir) => if id in rt.work then MakeDir(rt, disk, id, dir) else (rt, disk)
    case DoDownload(id, size) => (rt, if id in rt.work
      && rt.work[id].pc.HasDir? then Download(rt, disk, id, size) else disk)
    case DoFetch(id, download) => (if id in rt.work
      && rt.work[id].pc.HasDir? then Fetch(rt, id, download) else rt, disk)
    case DoExtractWrite(id, d) => (rt, if id in rt.work
      && rt.work[id].pc.Fetched? then ExtractWrite(rt, disk, id, d) else disk)
    case DoFinishExtraction(id, pages) =>
      (if id in rt.work && rt.work[id].pc.Fetched? then FinishExtraction(rt, id, pages) else rt, disk)
    case DoCommit(id, now, io, faults) =>
      if id in rt.work && rt.work[id].pc.Extracted? then CommitStep(rt, disk, id, now, io, faults) else (rt, disk)
    case DoRelease(id, faults) =>
      if id in rt.work && rt.work[id].pc.Unwinding? then ReleaseStep(rt, disk, id, faults) else (rt, disk)
    case DoFreeSlot(id) => (if id in rt.work && rt.work[id].pc.Released? then FreeSlot(rt, id) else rt, disk)
    case DoSetErr(id) => (if id in rt.work && rt.work[id].pc.SlotFreed? then SetErr(rt, id) else rt, disk)
    case DoDeleteJob(id) => (if id in rt.work then DeleteJob(rt, id) else rt, disk)
    case DoCloseDone(id) => (if id in rt.work then CloseDone(rt, id) else rt, disk)
    case DoEndJob(id) => (EndJob(rt, id), disk)
    case DoSweep(now, ranges, faults) => SweepStep(rt, disk, now, ranges, faults)
    case DoStopSweeper => (StopSweeper(rt), disk)
  }
}
