/**
 A request can be served: from a freshly configured backend some run takes a caller that asks for an
 archive nobody has asked for before through HEAD, lookup, extraction job, commit and second lookup
 to its answer. Nothing in the way the steps are restricted stands in the way of that.
 */
module Serving {
  import opened Sums
  import opened Options
  import opened Fingerprint
  import opened CacheModel
  import opened CacheProofs
  import opened CacheOperations
  import opened CacheLaws
  import opened Runtime
  import opened Lifecycle
  import opened Configuring

  // ----- Steps of one runtime in a row -----

  ghost predicate CanDo(rt: Rt, disk: Disk, actions: seq<Action>, n: Naming)
    decreases |actions|
  {
    actions != [] ==>
      var most := actions[..|actions| - 1];
      CanDo(rt, disk, most, n) && Enabled(Done(rt, disk, most, n).0, Done(rt, disk, most, n).1,
          actions[|actions| - 1], n)
  }

  function Done(rt: Rt, disk: Disk, actions: seq<Action>, n: Naming): (Rt, Disk)
    decreases |actions|
  {
    if actions == [] then (rt, disk)
    else
      var (rt', disk') := Done(rt, disk, actions[..|actions| - 1], n);
      Step(rt', disk', actions[|actions| - 1], n)
  }

  lemma {:induction false} DoMore(rt: Rt, disk: Disk, actions: seq<Action>, more: seq<Action>, n: Naming)
    requires CanDo(rt, disk, actions, n)
    requires CanDo(Done(rt, disk, actions, n).0, Done(rt, disk, actions, n).1, more, n)
    ensures CanDo(rt, disk, actions + more, n)
    ensures Done(rt, disk, actions + more, n)
            == Done(Done(rt, disk, actions, n).0, Done(rt, disk, actions, n).1, more, n)
    decreases |more|
  {
    hide Enabled, Step;
    if more == [] {
      assert actions + more == actions;
    } else {
      var most := more[..|more| - 1];
      DoMore(rt, disk, actions, most, n);
      assert (actions + more)[..|actions + more| - 1] == actions + most;
      assert (actions + more)[|actions + more| - 1] == more[|more| - 1];
    }
  }

  lemma DoOne(rt: Rt, disk: Disk, a: Action, n: Naming)
    requires Enabled(rt, disk, a, n)
    ensures CanDo(rt, disk, [a], n) && Done(rt, disk, [a], n) == Step(rt, disk, a, n)
  {
    hide Enabled, Step;
    assert [a][..0] == [];
    assert CanDo(rt, disk, [], n) && Done(rt, disk, [], n) == (rt, disk);
  }

  /** The same steps as a run of the backend. */
  lemma {:induction false} AsRun(s: System, id: Id, actions: seq<Action>, n: Naming) returns (run: seq<Act>)
    requires id in s.runtimes && CanDo(s.runtimes[id], s.disk, actions, n)
    ensures Legal(s, run, n)
    ensures var s', (rt', disk') := After(s, run, n), Done(s.runtimes[id], s.disk, actions, n);
            && s'.disk == disk' && s'.runtimes == s.runtimes[id := rt'] && s'.current == s.current
                && s'.stage == s.stage
    decreases |actions|
  {
    hide Enabled, Step;
    if actions == [] {
      run := [];
    } else {
      var most, last := actions[..|actions| - 1], Local(id, actions[|actions| - 1]);
      var before := AsRun(s, id, most, n);
      One(After(s, before, n), last, n);
      Follow(s, before, [last], n);
      run := before + [last];
    }
  }

  // ----- What is asked for, and what the archive turns out to hold -----

  /** Request r asks for version v; job j will extract it in `dir`, to the output files `outs`, listed as `pages`. */
  datatype Ask = Ask(r: Id, j: Id, v: Version, dir: Path, outs: Dir, pages: seq<PageRef>, now: int)

  /** The version is valid and small enough, its key is one, the cache can hold a job, and the pages are in range. */
  ghost predicate Servable(cfg: Config, a: Ask, n: Naming) {
    && ValidConfig(cfg) && cfg.maxArchiveBytes + cfg.maxTotalBytes <= cfg.cacheSize
    && n.valid(a.v) && 0 <= a.v.head.size <= cfg.maxArchiveBytes && WellFormedKey(n.key(a.v).text)
    && a.dir.root == cfg.root && a.dir.kind == JobDir && a.dir.name.text != []
    && Inputs(a.outs) == map[] && OutputsExact(a.outs, a.pages) && a.pages != []
    && (forall i :: 0 <= i < |a.pages| ==> a.pages[i].dir == a.dir && 1 <= a.pages[i].size <= 0x200_0000)
    && DirBytes(a.outs) <= cfg.maxTotalBytes
  }

  function KeyOf(a: Ask, n: Naming): Key {
    n.key(a.v)
  }

  /** The cache with the given entries and reservations, and nothing pending. */
  function CacheWith(cfg: Config, entries: map<Key, Entry>, used: int, reserved: int, loans: map<nat, Loan>): Cache {
    Cache(cfg.root, cfg.cacheSize, cfg.cacheTtl, entries, used, reserved, loans, map[], false)
  }

  /** The request is at `pc`, the cache is c. */
  ghost predicate Asking(rt: Rt, cfg: Config, a: Ask, n: Naming, c: Cache, pc: ReqPc) {
    && rt.cfg == cfg && !rt.stopping && rt.cache == c
    && a.r in rt.requests && rt.requests[a.r] == Req(a.v, KeyOf(a, n), false, pc)
  }

  /** The job is at `pc`. */
  ghost predicate Working(rt: Rt, a: Ask, n: Naming, pc: JobPc) {
    && rt.work == map[a.j := Job(a.v, KeyOf(a, n), pc)]
    && rt.results == map[] && rt.done == {}
  }

  ghost predicate NoPluginDirs(disk: Disk, root: nat) {
    forall p :: p in disk ==> !PluginDir(p, root)
  }

  // ----- From admission to the job -----

  ghost predicate Idle0(rt: Rt) {
    rt.jobs == map[] && !rt.slotFull && rt.work == map[] && rt.issued == {} && rt.results == map[] && rt.done == {}
  }

  lemma AuthorizeStep(rt: Rt, disk: Disk, cfg: Config, a: Ask, n: Naming)
    requires Servable(cfg, a, n) && rt.cfg == cfg && !rt.stopping && ReqAt(rt, a.r, Admitted) && Idle0(rt)
    ensures Enabled(rt, disk, DoAuthorize(a.r, a.v, false), n)
    ensures var (rt', disk') := Step(rt, disk, DoAuthorize(a.r, a.v, false), n);
            Asking(rt', cfg, a, n, rt.cache, Authorized) && disk' == disk && Idle0(rt') && rt'.log == rt.log
  {
  }

  lemma MissStep(rt: Rt, disk: Disk, cfg: Config, a: Ask, n: Naming)
    requires Asking(rt, cfg, a, n, CacheWith(cfg, map[], 0, 0, map[]), Authorized) && Idle0(rt)
    ensures Enabled(rt, disk, DoLookup(a.r, a.now, {}, map[]), n)
    ensures var (rt', disk') := Step(rt, disk, DoLookup(a.r, a.now, {}, map[]), n);
            Asking(rt', cfg, a, n, CacheWith(cfg, map[], 0, 0, map[]), Missed) && disk' == disk && Idle0(rt')
            && rt'.log == rt.log
  {
    hide StartJob, SweepStep, CommitStep, ReleaseStep, Remove;
  }

  function Peak(cfg: Config): int {
    cfg.maxArchiveBytes + cfg.maxTotalBytes
  }

  lemma EmptyReserve(cfg: Config, disk: Disk, id: Id, bytes: int, now: int)
    requires 1 <= bytes <= cfg.cacheSize
    ensures var w := World(CacheWith(cfg, map[], 0, 0, map[]), disk);
            && ReserveChoice(w, bytes, now, Ranges([], []), [], map[])
            && Reserve(w, id, bytes, now, Ranges([], []), [], map[]) ==
               (World(CacheWith(cfg, map[], 0, bytes, map[id := Loan(bytes, None, false)]), disk), true)
  {
    var w := World(CacheWith(cfg, map[], 0, 0, map[]), disk);
    assert Sweep(w, Ranges([], []), now, map[]) == w && Evict(w, [], map[]) == w;
  }

  lemma StartStep(rt: Rt, disk: Disk, cfg: Config, a: Ask, n: Naming)
    requires Servable(cfg, a, n) && Asking(rt, cfg, a, n, CacheWith(cfg, map[], 0, 0, map[]), Missed) && Idle0(rt)
    ensures var act := DoStartJob(a.r, a.j, a.now, Ranges([], []), [], map[]);
            && Enabled(rt, disk, act, n)
            && var (rt', disk') := Step(rt, disk, act, n);
               && Asking(rt', cfg, a, n, CacheWith(cfg, map[], 0, Peak(cfg),
                   map[a.j := Loan(Peak(cfg), None, false)]), Waiting(a.j))
               && Working(rt', a, n, Started) && disk' == disk && rt'.log == rt.log
  {
    hide LookupStep, SweepStep, CommitStep, ReleaseStep, Reserve, ReserveChoice;
    EmptyReserve(cfg, disk, a.j, Peak(cfg), a.now);
  }

  // ----- The job -----

  /** The cache while the job runs in its directory. */
  function Lending(cfg: Config, a: Ask): Cache {
    CacheWith(cfg, map[], 0, Peak(cfg), map[a.j := Loan(Peak(cfg), Some(a.dir), false)])
  }

  lemma MakeDirStep(rt: Rt, disk: Disk, cfg: Config, a: Ask, n: Naming)
    requires Servable(cfg, a, n) && NoPluginDirs(disk, cfg.root)
    requires Asking(rt, cfg, a, n, CacheWith(cfg, map[], 0, Peak(cfg), map[a.j := Loan(Peak(cfg), None, false)]),
             Waiting(a.j))
    requires Working(rt, a, n, Started)
    ensures Enabled(rt, disk, DoMakeDir(a.j, a.dir), n)
    ensures var (rt', disk') := Step(rt, disk, DoMakeDir(a.j, a.dir), n);
            && Asking(rt', cfg, a, n, Lending(cfg, a), Waiting(a.j)) && Working(rt', a, n, HasDir(a.dir))
            && disk' == disk[a.dir := map[]] && rt'.log == rt.log
  {
    hide LookupStep, SweepStep, CommitStep, ReleaseStep, StartJob;
  }

  function Input(a: Ask): Dir
    requires a.v.head.size >= 0
  {
    map[FileName.Archive := a.v.head.size]
  }

  lemma DownloadStep(rt: Rt, disk: Disk, cfg: Config, a: Ask, n: Naming)
    requires Servable(cfg, a, n) && Asking(rt, cfg, a, n, Lending(cfg, a), Waiting(a.j))
             && Working(rt, a, n, HasDir(a.dir))
    ensures Enabled(rt, disk, DoDownload(a.j, a.v.head.size), n)
    ensures Step(rt, disk, DoDownload(a.j, a.v.head.size), n) == (rt, disk[a.dir := Input(a)])
  {
    hide LookupStep, SweepStep, CommitStep, ReleaseStep, StartJob;
  }

  lemma FetchStep(rt: Rt, disk: Disk, cfg: Config, a: Ask, n: Naming)
    requires Servable(cfg, a, n) && Asking(rt, cfg, a, n, Lending(cfg, a), Waiting(a.j))
             && Working(rt, a, n, HasDir(a.dir))
    requires a.dir in disk && disk[a.dir] == Input(a)
    ensures Enabled(rt, disk, DoFetch(a.j, a.v.head), n)
    ensures var (rt', disk') := Step(rt, disk, DoFetch(a.j, a.v.head), n);
            && Asking(rt', cfg, a, n, Lending(cfg, a), Waiting(a.j))
            && Working(rt', a, n, Fetched(a.dir, Version(a.v.req, a.v.head))) && disk' == disk && rt'.log == rt.log
  {
    hide LookupStep, SweepStep, CommitStep, ReleaseStep, StartJob;
  }

  /** The job directory with the input and the output files. */
  function Extraction(a: Ask): Dir
    requires a.v.head.size >= 0
  {
    Input(a) + a.outs
  }

  lemma ExtractionFiles(a: Ask)
    requires a.v.head.size >= 0 && Inputs(a.outs) == map[] && OutputsExact(a.outs, a.pages)
    ensures Inputs(Extraction(a)) == Inputs(Input(a)) && Outputs(Extraction(a)) == a.outs
    ensures OutputsExact(Extraction(a), a.pages)
  {
    var d := Extraction(a);
    forall f | f in a.outs ensures f.Output? {
      assert f.Archive? ==> f in Inputs(a.outs);
    }
    assert Outputs(d) == a.outs && Outputs(a.outs) == a.outs;
    forall f | f in Outputs(d) ensures exists i :: 0 <= i < |a.pages| && a.pages[i].file == f {
      assert f in Outputs(a.outs);
    }
  }

  lemma WriteStep(rt: Rt, disk: Disk, cfg: Config, a: Ask, n: Naming)
    requires Servable(cfg, a, n) && Asking(rt, cfg, a, n, Lending(cfg, a), Waiting(a.j))
    requires Working(rt, a, n, Fetched(a.dir, Version(a.v.req, a.v.head)))
    requires a.dir in disk && disk[a.dir] == Input(a)
    ensures Enabled(rt, disk, DoExtractWrite(a.j, Extraction(a)), n)
    ensures Step(rt, disk, DoExtractWrite(a.j, Extraction(a)), n) == (rt, disk[a.dir := Extraction(a)])
  {
    hide LookupStep, SweepStep, CommitStep, ReleaseStep, StartJob, DirBytes;
    ExtractionFiles(a);
  }

  lemma FinishStep(rt: Rt, disk: Disk, cfg: Config, a: Ask, n: Naming)
    requires Servable(cfg, a, n) && Asking(rt, cfg, a, n, Lending(cfg, a), Waiting(a.j))
    requires Working(rt, a, n, Fetched(a.dir, Version(a.v.req, a.v.head)))
    requires a.dir in disk && disk[a.dir] == Extraction(a)
    ensures Enabled(rt, disk, DoFinishExtraction(a.j, a.pages), n)
    ensures var (rt', disk') := Step(rt, disk, DoFinishExtraction(a.j, a.pages), n);
            && Asking(rt', cfg, a, n, Lending(cfg, a), Waiting(a.j))
            && Working(rt', a, n, Extracted(a.dir, Version(a.v.req, a.v.head), a.pages)) && disk' == disk
            && rt'.log == rt.log
  {
    hide LookupStep, SweepStep, CommitStep, ReleaseStep, StartJob, OutputsExact;
    ExtractionFiles(a);
  }

  // ----- The commit -----

  lemma LendingLedger(cfg: Config, a: Ask)
    requires ValidConfig(cfg) && Peak(cfg) <= cfg.cacheSize
    ensures Ledger(Lending(cfg, a))
  {
    var c := Lending(cfg, a);
    assert Totals(c.entries) == map[];
    assert LoanBytes(c.loans) == map[][a.j := Peak(cfg)];
    SumUpdate(map[], a.j, Peak(cfg));
  }

  /** The pages are those of the job directory, and fit. */
  lemma AskMayCommit(cfg: Config, disk: Disk, a: Ask, n: Naming)
    requires Servable(cfg, a, n) && a.dir in disk && disk[a.dir] == Extraction(a)
    requires EntryRoot(Lending(cfg, a), KeyOf(a, n)) !in disk
    ensures MayCommit(World(Lending(cfg, a), disk), a.j, KeyOf(a, n), a.dir, a.pages, CommitIo(|a.pages|, true), map[])
  {
    ExtractionFiles(a);
    ExactListing(Extraction(a), a.pages);
    forall i | 0 <= i < |a.pages| ensures GoodPage(disk, a.dir, a.pages[i]) {
      assert a.pages[i].file in Outputs(Extraction(a));
    }
  }

  function Fingerprinted(a: Ask): Version {
    Version(a.v.req, a.v.head)
  }

  /** The entry that the job publishes. */
  function Entry0(cfg: Config, a: Ask, n: Naming): Entry {
    NewEntry(Lending(cfg, a), KeyOf(a, n), Unvalidated(a.v.head), a.pages, a.now)
  }

  /** The cache after the commit. */
  function CacheAfterCommit(cfg: Config, a: Ask, n: Naming): Cache {
    WithEntry(Lending(cfg, a), a.j, KeyOf(a, n), Entry0(cfg, a, n))
  }

  lemma CommitValue(cfg: Config, disk: Disk, a: Ask, n: Naming)
    requires Servable(cfg, a, n) && a.dir in disk && disk[a.dir] == Extraction(a)
    requires EntryRoot(Lending(cfg, a), KeyOf(a, n)) !in disk
    ensures Commit(World(Lending(cfg, a), disk), a.j, KeyOf(a, n), Unvalidated(a.v.head), a.dir, a.pages, a.now,
                   CommitIo(|a.pages|, true), map[]) ==
            (World(CacheAfterCommit(cfg, a, n),
                CacheModel.Publish(disk, a.dir, EntryRoot(Lending(cfg, a), KeyOf(a, n)))), Committed)
    ensures forall i :: 0 <= i < |a.pages| ==>
              PagePublished(CacheModel.Publish(disk, a.dir, EntryRoot(Lending(cfg, a), KeyOf(a, n))),
                  Entry0(cfg, a, n), i, a.pages[i])
  {
    hide CheckPages, MayCommit, WellFormedKey, PagePublished, CacheModel.Publish, NewEntry, OutputsExact, Ledger,
         DirBytes;
    LendingLedger(cfg, a);
    AskMayCommit(cfg, disk, a, n);
    var w, io := World(Lending(cfg, a), disk), CommitIo(|a.pages|, true);
    CommitExactly(w, a.j, KeyOf(a, n), Unvalidated(a.v.head), a.dir, a.pages, a.now, io, map[]);
    CommittedEntry(w, a.j, KeyOf(a, n), Unvalidated(a.v.head), a.dir, a.pages, a.now, io, map[]);
  }

  lemma CommitActs(rt: Rt, disk: Disk, cfg: Config, a: Ask, n: Naming)
    requires Servable(cfg, a, n) && Asking(rt, cfg, a, n, Lending(cfg, a), Waiting(a.j))
    requires Working(rt, a, n, Extracted(a.dir, Fingerprinted(a), a.pages))
    requires a.dir in disk && disk[a.dir] == Extraction(a) && EntryRoot(Lending(cfg, a), KeyOf(a, n)) !in disk
    ensures var act := DoCommit(a.j, a.now, CommitIo(|a.pages|, true), map[]);
            && Enabled(rt, disk, act, n)
            && var (rt', disk') := Step(rt, disk, act, n);
               && Asking(rt', cfg, a, n, CacheAfterCommit(cfg, a, n), Waiting(a.j))
               && Working(rt', a, n, Unwinding(true))
               && disk' == CacheModel.Publish(disk, a.dir, EntryRoot(Lending(cfg, a), KeyOf(a, n)))
               && KeyOf(a, n) in rt'.origins && rt'.origins[KeyOf(a, n)] == Fingerprinted(a)
  {
    hide Commit, Servable, LookupStep, SweepStep, ReleaseStep, StartJob, CacheAfterCommit, Lending, CacheModel.Publish;
    CommitValue(cfg, disk, a, n);
  }

  // ----- From the commit to the answer -----

  ghost predicate Filed(rt: Rt, a: Ask, n: Naming) {
    KeyOf(a, n) in rt.origins && rt.origins[KeyOf(a, n)] == Fingerprinted(a)
  }

  /** The cache when the reservation is back. */
  function Settled0(cfg: Config, a: Ask, n: Naming): Cache {
    CacheWith(cfg, map[KeyOf(a, n) := Entry0(cfg, a, n)], Sizes(a.pages), 0, map[])
  }

  lemma ReleaseValue(cfg: Config, disk: Disk, a: Ask, n: Naming)
    requires Servable(cfg, a, n)
    ensures Release(World(CacheAfterCommit(cfg, a, n), disk), a.j, map[]) == World(Settled0(cfg, a, n), disk - {a.dir})
  {
    hide OutputsExact, DirBytes, Sizes, WellFormedKey, Convert;
    var c := CacheAfterCommit(cfg, a, n);
    assert c.loans - {a.j} == map[];
  }

  lemma ReleaseActs(rt: Rt, disk: Disk, cfg: Config, a: Ask, n: Naming)
    requires Servable(cfg, a, n) && Asking(rt, cfg, a, n, CacheAfterCommit(cfg, a, n), Waiting(a.j))
    requires Working(rt, a, n, Unwinding(true)) && Filed(rt, a, n)
    ensures Enabled(rt, disk, DoRelease(a.j, map[]), n)
    ensures var (rt', disk') := Step(rt, disk, DoRelease(a.j, map[]), n);
            && Asking(rt', cfg, a, n, Settled0(cfg, a, n), Waiting(a.j)) && Working(rt', a, n, Released(true))
            && Filed(rt', a, n) && disk' == disk - {a.dir}
  {
    hide Release, Servable, LookupStep, SweepStep, CommitStep, StartJob, CacheAfterCommit, Settled0;
    ReleaseValue(cfg, disk, a, n);
  }

  /** Slot, result, map entry and channel. */
  ghost predicate Finishing(rt: Rt, cfg: Config, a: Ask, n: Naming, pc: JobPc) {
    && Asking(rt, cfg, a, n, Settled0(cfg, a, n), Waiting(a.j)) && Filed(rt, a, n)
    && rt.work == map[a.j := Job(a.v, KeyOf(a, n), pc)]
  }

  lemma SlotActs(rt: Rt, disk: Disk, cfg: Config, a: Ask, n: Naming)
    requires Finishing(rt, cfg, a, n, Released(true))
    ensures Enabled(rt, disk, DoFreeSlot(a.j), n)
    ensures var (rt', disk') := Step(rt, disk, DoFreeSlot(a.j), n);
            Finishing(rt', cfg, a, n, SlotFreed(true)) && disk' == disk
  {
    hide Settled0, LookupStep, SweepStep, CommitStep, StartJob, ReleaseStep;
  }

  lemma ErrActs(rt: Rt, disk: Disk, cfg: Config, a: Ask, n: Naming)
    requires Finishing(rt, cfg, a, n, SlotFreed(true))
    ensures Enabled(rt, disk, DoSetErr(a.j), n)
    ensures var (rt', disk') := Step(rt, disk, DoSetErr(a.j), n);
            Finishing(rt', cfg, a, n, ErrSet) && disk' == disk && a.j in rt'.results && rt'.results[a.j]
  {
    hide Settled0, LookupStep, SweepStep, CommitStep, StartJob, ReleaseStep;
  }

  lemma DeleteActs(rt: Rt, disk: Disk, cfg: Config, a: Ask, n: Naming)
    requires Finishing(rt, cfg, a, n, ErrSet) && a.j in rt.results && rt.results[a.j]
    ensures Enabled(rt, disk, DoDeleteJob(a.j), n)
    ensures var (rt', disk') := Step(rt, disk, DoDeleteJob(a.j), n);
            Finishing(rt', cfg, a, n, Deleted) && disk' == disk && a.j in rt'.results && rt'.results[a.j]
  {
    hide Settled0, LookupStep, SweepStep, CommitStep, StartJob, ReleaseStep;
  }

  lemma CloseActs(rt: Rt, disk: Disk, cfg: Config, a: Ask, n: Naming)
    requires Finishing(rt, cfg, a, n, Deleted) && a.j in rt.results && rt.results[a.j]
    ensures Enabled(rt, disk, DoCloseDone(a.j), n)
    ensures var (rt', disk') := Step(rt, disk, DoCloseDone(a.j), n);
            && Finishing(rt', cfg, a, n, DoneClosed) && disk' == disk && a.j in rt'.results && rt'.results[a.j]
            && a.j in rt'.done
  {
    hide Settled0, LookupStep, SweepStep, CommitStep, StartJob, ReleaseStep;
  }

  lemma WakeActs(rt: Rt, disk: Disk, cfg: Config, a: Ask, n: Naming)
    requires Finishing(rt, cfg, a, n, DoneClosed) && a.j in rt.results && rt.results[a.j] && a.j in rt.done
    ensures Enabled(rt, disk, DoWake(a.r), n)
    ensures var (rt', disk') := Step(rt, disk, DoWake(a.r), n);
            Asking(rt', cfg, a, n, Settled0(cfg, a, n), Ready) && Filed(rt', a, n) && disk' == disk
  {
    hide Settled0, LookupStep, SweepStep, CommitStep, StartJob, ReleaseStep;
  }

  lemma EntryHits(cfg: Config, disk: Disk, a: Ask, n: Naming)
    requires Servable(cfg, a, n)
    requires forall i :: 0 <= i < |a.pages| ==> PagePublished(disk, Entry0(cfg, a, n), i, a.pages[i])
    ensures var key, e := KeyOf(a, n), Entry0(cfg, a, n);
            Lookup(World(Settled0(cfg, a, n), disk), key, a.now, {}, map[]) ==
            (World(Settled0(cfg, a, n).(entries := map[key := e.(active := 1, lastUsed := a.now)]), disk), true)
  {
    hide Lookup, OutputsExact, DirBytes, Sizes, WellFormedKey, Convert, PagePublished, WholeAndReadable;
    var key, e := KeyOf(a, n), Entry0(cfg, a, n);
    EntryPages(cfg, a, n);
    PublishedWhole(disk, e, a.pages);
    LookupExactly(World(Settled0(cfg, a, n), disk), key, a.now, {}, map[]);
    assert map[key := e][key := e.(active := 1, lastUsed := a.now)] == map[key := e.(active := 1, lastUsed := a.now)];
  }

  lemma EntryPages(cfg: Config, a: Ask, n: Naming)
    ensures |Entry0(cfg, a, n).pages| == |a.pages| && Entry0(cfg, a, n).root == EntryRoot(Lending(cfg, a), KeyOf(a, n))
  {
  }

  /** The request holds a handle on the entry with exactly the extracted pages. */
  ghost predicate Answering(rt: Rt, cfg: Config, a: Ask, n: Naming) {
    && a.r in rt.requests && rt.requests[a.r] == Req(a.v, KeyOf(a, n), false, Holding)
    && KeyOf(a, n) in rt.cache.entries && rt.cache.entries[KeyOf(a, n)]
        == Entry0(cfg, a, n).(active := 1, lastUsed := a.now)
    && Filed(rt, a, n)
  }

  lemma HitActs(rt: Rt, disk: Disk, cfg: Config, a: Ask, n: Naming)
    requires Servable(cfg, a, n) && Asking(rt, cfg, a, n, Settled0(cfg, a, n), Ready) && Filed(rt, a, n)
    requires forall i :: 0 <= i < |a.pages| ==> PagePublished(disk, Entry0(cfg, a, n), i, a.pages[i])
    ensures Enabled(rt, disk, DoLookup(a.r, a.now, {}, map[]), n)
    ensures var (rt', disk') := Step(rt, disk, DoLookup(a.r, a.now, {}, map[]), n);
            Answering(rt', cfg, a, n) && disk' == disk
  {
    hide Lookup, Servable, Settled0, Entry0, PagePublished, SweepStep, CommitStep, StartJob, ReleaseStep;
    EntryHits(cfg, disk, a, n);
  }

  lemma RespondActs(rt: Rt, disk: Disk, cfg: Config, a: Ask, n: Naming)
    requires Answering(rt, cfg, a, n)
    ensures Enabled(rt, disk, DoRespond(a.r), n)
    ensures var (rt', disk') := Step(rt, disk, DoRespond(a.r), n);
            && rt'.log == rt.log + [Served(a.v, Fingerprinted(a))] && rt'.cache == rt.cache && disk' == disk
  {
    hide Entry0, LookupStep, SweepStep, CommitStep, StartJob, ReleaseStep;
  }

  // ----- All of it -----

  /** One more step at the end. */
  lemma Then(rt: Rt, disk: Disk, actions: seq<Action>, a: Action, n: Naming)
    requires CanDo(rt, disk, actions, n) && Enabled(Done(rt, disk, actions, n).0, Done(rt, disk, actions, n).1, a, n)
    ensures CanDo(rt, disk, actions + [a], n)
    ensures Done(rt, disk, actions + [a], n) == Step(Done(rt, disk, actions, n).0, Done(rt, disk, actions, n).1, a, n)
  {
    hide Enabled, Step;
    DoOne(Done(rt, disk, actions, n).0, Done(rt, disk, actions, n).1, a, n);
    DoMore(rt, disk, actions, [a], n);
  }

  lemma Starting(rt: Rt, disk: Disk, cfg: Config, a: Ask, n: Naming) returns (actions: seq<Action>)
    requires Servable(cfg, a, n) && rt.cfg == cfg && !rt.stopping && ReqAt(rt, a.r, Admitted) && Idle0(rt)
    requires rt.cache == CacheWith(cfg, map[], 0, 0, map[])
    ensures CanDo(rt, disk, actions, n) && Done(rt, disk, actions, n).1 == disk
    ensures var rt' := Done(rt, disk, actions, n).0;
            && Asking(rt', cfg, a, n, CacheWith(cfg, map[], 0, Peak(cfg), map[a.j := Loan(Peak(cfg), None, false)]),
                Waiting(a.j))
            && Working(rt', a, n, Started)
  {
    hide Enabled, Step, Servable, Asking, Working, Idle0, Done, CanDo, CacheWith;
    var x, y := DoAuthorize(a.r, a.v, false), DoLookup(a.r, a.now, {}, map[]);
    AuthorizeStep(rt, disk, cfg, a, n);
    DoOne(rt, disk, x, n);
    MissStep(Done(rt, disk, [x], n).0, disk, cfg, a, n);
    Then(rt, disk, [x], y, n);
    StartStep(Done(rt, disk, [x] + [y], n).0, disk, cfg, a, n);
    actions := [x] + [y] + [DoStartJob(a.r, a.j, a.now, Ranges([], []), [], map[])];
    Then(rt, disk, [x] + [y], DoStartJob(a.r, a.j, a.now, Ranges([], []), [], map[]), n);
  }

  lemma Extracting(rt: Rt, disk: Disk, cfg: Config, a: Ask, n: Naming) returns (actions: seq<Action>)
    requires Servable(cfg, a, n) && NoPluginDirs(disk, cfg.root)
    requires Asking(rt, cfg, a, n, CacheWith(cfg, map[], 0, Peak(cfg), map[a.j := Loan(Peak(cfg), None, false)]),
             Waiting(a.j))
    requires Working(rt, a, n, Started)
    ensures CanDo(rt, disk, actions, n)
    ensures Done(rt, disk, actions, n).1 == disk[a.dir := map[]][a.dir := Input(a)][a.dir := Extraction(a)]
    ensures var rt' := Done(rt, disk, actions, n).0;
            && Asking(rt', cfg, a, n, Lending(cfg, a), Waiting(a.j))
            && Working(rt', a, n, Extracted(a.dir, Fingerprinted(a), a.pages))
  {
    hide Enabled, Step, Asking, Working, Done, CanDo, CacheWith, Lending, OutputsExact, Extraction, Input;
    var x1, x2 := DoMakeDir(a.j, a.dir), DoDownload(a.j, a.v.head.size);
    var x3, x4, x5 := DoFetch(a.j, a.v.head), DoExtractWrite(a.j, Extraction(a)), DoFinishExtraction(a.j, a.pages);
    MakeDirStep(rt, disk, cfg, a, n);
    DoOne(rt, disk, x1, n);
    var (rt1, disk1) := Done(rt, disk, [x1], n);
    DownloadStep(rt1, disk1, cfg, a, n);
    Then(rt, disk, [x1], x2, n);
    var disk2 := disk1[a.dir := Input(a)];
    FetchStep(rt1, disk2, cfg, a, n);
    Then(rt, disk, [x1] + [x2], x3, n);
    var rt3 := Done(rt, disk, [x1] + [x2] + [x3], n).0;
    WriteStep(rt3, disk2, cfg, a, n);
    Then(rt, disk, [x1] + [x2] + [x3], x4, n);
    FinishStep(rt3, disk2[a.dir := Extraction(a)], cfg, a, n);
    Then(rt, disk, [x1] + [x2] + [x3] + [x4], x5, n);
    actions := [x1] + [x2] + [x3] + [x4] + [x5];
  }

  /** From the extracted pages to the release of the reservation. */
  lemma Committing(rt: Rt, disk: Disk, cfg: Config, a: Ask, n: Naming) returns (actions: seq<Action>)
    requires Servable(cfg, a, n) && Asking(rt, cfg, a, n, Lending(cfg, a), Waiting(a.j))
    requires Working(rt, a, n, Extracted(a.dir, Fingerprinted(a), a.pages))
    requires a.dir in disk && disk[a.dir] == Extraction(a) && EntryRoot(Lending(cfg, a), KeyOf(a, n)) !in disk
    ensures CanDo(rt, disk, actions, n) && Finishing(Done(rt, disk, actions, n).0, cfg, a, n, Released(true))
    ensures forall i :: 0 <= i < |a.pages| ==> PagePublished(Done(rt, disk, actions, n).1, Entry0(cfg, a, n), i,
            a.pages[i])
  {
    hide Enabled, Step, Servable, Done, CanDo, Lending, CacheAfterCommit, Settled0, CacheModel.Publish, PagePublished,
         Entry0;
    var x, y := DoCommit(a.j, a.now, CommitIo(|a.pages|, true), map[]), DoRelease(a.j, map[]);
    var disk1 := CacheModel.Publish(disk, a.dir, EntryRoot(Lending(cfg, a), KeyOf(a, n)));
    CommitActs(rt, disk, cfg, a, n);
    CommitValue(cfg, disk, a, n);
    DoOne(rt, disk, x, n);
    var rt1 := Done(rt, disk, [x], n).0;
    ReleaseActs(rt1, disk1, cfg, a, n);
    Then(rt, disk, [x], y, n);
    ReleasedPages(cfg, disk1, a, n);
    actions := [x] + [y];
  }

  /** Deleting the job directory leaves the entry's pages. */
  lemma ReleasedPages(cfg: Config, disk: Disk, a: Ask, n: Naming)
    requires Servable(cfg, a, n)
    requires forall i :: 0 <= i < |a.pages| ==> PagePublished(disk, Entry0(cfg, a, n), i, a.pages[i])
    ensures forall i :: 0 <= i < |a.pages| ==> PagePublished(disk - {a.dir}, Entry0(cfg, a, n), i, a.pages[i])
  {
    hide OutputsExact, DirBytes, Sizes, WellFormedKey;
    forall i | 0 <= i < |a.pages| ensures PagePublished(disk - {a.dir}, Entry0(cfg, a, n), i, a.pages[i]) {
      assert PagePublished(disk, Entry0(cfg, a, n), i, a.pages[i]);
    }
  }

  /** The job ends and its waiter wakes up. */
  lemma Ending(rt: Rt, disk: Disk, cfg: Config, a: Ask, n: Naming) returns (actions: seq<Action>)
    requires Finishing(rt, cfg, a, n, Released(true))
    ensures CanDo(rt, disk, actions, n) && Done(rt, disk, actions, n).1 == disk
    ensures var rt' := Done(rt, disk, actions, n).0;
            Asking(rt', cfg, a, n, Settled0(cfg, a, n), Ready) && Filed(rt', a, n)
  {
    hide Enabled, Step, Done, CanDo, Settled0, Finishing, Asking, Filed;
    var x1, x2, x3, x4, x5 := DoFreeSlot(a.j), DoSetErr(a.j), DoDeleteJob(a.j), DoCloseDone(a.j), DoWake(a.r);
    SlotActs(rt, disk, cfg, a, n);
    DoOne(rt, disk, x1, n);
    ErrActs(Done(rt, disk, [x1], n).0, disk, cfg, a, n);
    Then(rt, disk, [x1], x2, n);
    DeleteActs(Done(rt, disk, [x1] + [x2], n).0, disk, cfg, a, n);
    Then(rt, disk, [x1] + [x2], x3, n);
    CloseActs(Done(rt, disk, [x1] + [x2] + [x3], n).0, disk, cfg, a, n);
    Then(rt, disk, [x1] + [x2] + [x3], x4, n);
    WakeActs(Done(rt, disk, [x1] + [x2] + [x3] + [x4], n).0, disk, cfg, a, n);
    Then(rt, disk, [x1] + [x2] + [x3] + [x4], x5, n);
    actions := [x1] + [x2] + [x3] + [x4] + [x5];
  }

  lemma Responding(rt: Rt, disk: Disk, cfg: Config, a: Ask, n: Naming) returns (actions: seq<Action>)
    requires Servable(cfg, a, n) && Asking(rt, cfg, a, n, Settled0(cfg, a, n), Ready) && Filed(rt, a, n)
    requires forall i :: 0 <= i < |a.pages| ==> PagePublished(disk, Entry0(cfg, a, n), i, a.pages[i])
    ensures CanDo(rt, disk, actions, n) && IsServed(Done(rt, disk, actions, n).0, a, n)
  {
    hide Enabled, Step, Done, CanDo, Servable, Asking, Filed, Settled0, PagePublished, Entry0;
    var x, y := DoLookup(a.r, a.now, {}, map[]), DoRespond(a.r);
    HitActs(rt, disk, cfg, a, n);
    DoOne(rt, disk, x, n);
    var (rt1, disk1) := Done(rt, disk, [x], n);
    RespondActs(rt1, disk1, cfg, a, n);
    Then(rt, disk, [x], y, n);
    EntryShows(cfg, a, n);
    actions := [x] + [y];
  }

  /** The answer is logged for the version asked for, from an entry with exactly the archive's pages. */
  ghost predicate IsServed(rt: Rt, a: Ask, n: Naming) {
    && rt.log != [] && rt.log[|rt.log| - 1] == Served(a.v, Fingerprinted(a)) && SameVersion(a.v, Fingerprinted(a))
    && KeyOf(a, n) in rt.cache.entries && ListsPages(rt.cache.entries[KeyOf(a, n)], a.pages)
  }

  ghost predicate ListsPages(e: Entry, pages: seq<PageRef>) {
    && |e.pages| == |pages|
    && forall i :: 0 <= i < |pages| ==>
         e.pages[i].name == pages[i].name && e.pages[i].file == pages[i].file && e.pages[i].size == pages[i].size
  }

  lemma EntryShows(cfg: Config, a: Ask, n: Naming)
    ensures ListsPages(Entry0(cfg, a, n).(active := 1, lastUsed := a.now), a.pages)
  {
  }

  lemma Serving(rt: Rt, disk: Disk, cfg: Config, a: Ask, n: Naming) returns (actions: seq<Action>)
    requires Servable(cfg, a, n) && rt.cfg == cfg && !rt.stopping && ReqAt(rt, a.r, Admitted) && Idle0(rt)
    requires rt.cache == CacheWith(cfg, map[], 0, 0, map[]) && NoPluginDirs(disk, cfg.root)
    ensures CanDo(rt, disk, actions, n) && IsServed(Done(rt, disk, actions, n).0, a, n)
  {
    hide Asking, Working, Idle0, Done, CanDo, CacheWith, Settled0, Finishing, Filed, IsServed, PagePublished, Entry0,
         OutputsExact, Extraction, Input, ReqAt;
    var first := Starting(rt, disk, cfg, a, n);
    var (rt1, disk1) := Done(rt, disk, first, n);
    var second := Extracting(rt1, disk1, cfg, a, n);
    DoMore(rt, disk, first, second, n);
    var (rt2, disk2) := Done(rt1, disk1, second, n);
    NoEntryYet(cfg, disk, disk2, a, n);
    var third := Committing(rt2, disk2, cfg, a, n);
    DoMore(rt, disk, first + second, third, n);
    var (rt3, disk3) := Done(rt2, disk2, third, n);
    var fourth := Ending(rt3, disk3, cfg, a, n);
    DoMore(rt, disk, first + second + third, fourth, n);
    var rt4 := Done(rt3, disk3, fourth, n).0;
    var fifth := Responding(rt4, disk3, cfg, a, n);
    DoMore(rt, disk, first + second + third + fourth, fifth, n);
    actions := first + second + third + fourth + fifth;
  }

  lemma NoEntryYet(cfg: Config, disk: Disk, disk': Disk, a: Ask, n: Naming)
    requires Servable(cfg, a, n) && NoPluginDirs(disk, cfg.root)
    requires disk' == disk[a.dir := map[]][a.dir := Input(a)][a.dir := Extraction(a)]
    ensures a.dir in disk' && disk'[a.dir] == Extraction(a) && EntryRoot(Lending(cfg, a), KeyOf(a, n)) !in disk'
  {
    hide OutputsExact, Extraction, Input;
  }

  /**
   From a freshly configured backend a request for any valid version, whose archive is within the
   limits and has at least one page, can be served: some run leads from the caller to an answer
   logged for that version, from an entry that lists exactly the archive's pages.
   */
  lemma RequestIsServed(s: System, cfg: Config, a: Ask, k: Id, blank: Req, n: Naming) returns (run: seq<Act>)
    requires Serves(s, cfg) && Servable(cfg, a, n)
    ensures Legal(s, run, n)
    ensures s.current.Some? && s.current.value in After(s, run, n).runtimes
    ensures IsServed(After(s, run, n).runtimes[s.current.value], a, n)
  {
    hide Servable, IsServed, CanDo, Done, Enabled, Step;
    var s1 := Next(s, Seek(k), n);
    var s2 := Next(s1, AdmitSeeker(k, a.r, blank), n);
    ServesAdmits(s, cfg, k, a.r, blank, n);
    AdmittedFresh(s, cfg, k, a, blank, n);
    One(s, Seek(k), n);
    One(s1, AdmitSeeker(k, a.r, blank), n);
    Follow(s, [Seek(k)], [AdmitSeeker(k, a.r, blank)], n);
    var actions := Serving(s2.runtimes[s.current.value], s2.disk, cfg, a, n);
    var rest := AsRun(s2, s.current.value, actions, n);
    Follow(s, [Seek(k)] + [AdmitSeeker(k, a.r, blank)], rest, n);
    run := [Seek(k)] + [AdmitSeeker(k, a.r, blank)] + rest;
  }

  lemma AdmittedFresh(s: System, cfg: Config, k: Id, a: Ask, blank: Req, n: Naming)
    requires Serves(s, cfg)
    requires s.current.value in Next(Next(s, Seek(k), n), AdmitSeeker(k, a.r, blank), n).runtimes
    ensures var s2 := Next(Next(s, Seek(k), n), AdmitSeeker(k, a.r, blank), n);
            var rt := s2.runtimes[s.current.value];
            && rt.cfg == cfg && !rt.stopping && ReqAt(rt, a.r, Admitted) && Idle0(rt)
            && rt.cache == CacheWith(cfg, map[], 0, 0, map[]) && NoPluginDirs(s2.disk, cfg.root)
  {
  }
}
