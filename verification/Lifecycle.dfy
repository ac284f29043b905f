/**
 The whole backend: runtimes that are configured, replaced and closed one after the other while
 requests, jobs and sweepers of all of them take their steps. `lifecycleMu` makes Configure and
 Close exclusive; `stage` is how far the one that holds it has come.
 */
module Lifecycle {
  import opened Options
  import opened CacheModel
  import opened CacheProofs
  import opened CacheOperations
  import opened Runtime
  import opened RuntimeInvariant
  import opened RequestSteps
  import opened JobSteps
  import opened RuntimeSteps
  import opened JobEnding
  import opened RuntimeHistory
  import opened RootFrames
  import opened Sums

  /** `next` is the new configuration, or None for Close. */
  datatype Stage =
    | Idle                                          // nobody holds lifecycleMu
    | Stopping(prev: Id, next: Option<Config>)      // current is taken and nil; runtime.close comes next
    | Draining(prev: Id, next: Option<Config>)      // stopping is set; waiting for the wait group
    | ClosingCache(prev: Id, next: Option<Config>)  // wg.Wait has returned
    | Opening(cfg: Config)                          // opening the new cache
    | Publishing(id: Id)                            // the new runtime exists, its sweeper runs

  /**
   `seekers` are callers that have read `current` and not yet come to the admission section;
   `latest` is, for each cache directory, the runtime that was opened there last.
   */
  datatype System = System(
    current: Option<Id>, stage: Stage, runtimes: map<Id, Rt>, seekers: map<Id, Id>, latest: map<nat, Id>, disk: Disk)

  datatype Act =
    | Begin(next: Option<Config>)
    | SetStopping
    | Drained
    | CloseCache(ranges: Ranges, faults: Faults)
    | OpenFails(left: Disk)
    | OpenCache(id: Id)
    | Publish
    | Seek(s: Id)
    | AdmitSeeker(s: Id, r: Id, blank: Req)
    | Refuse(s: Id)
    | Local(id: Id, a: Action)

  function Start(disk: Disk): System {
    System(None, Idle, map[], map[], map[], disk)
  }

  /** The runtime whose cache is open, if there is one. */
  function OpenId(s: System): Option<Id> {
    match s.stage
    case Idle => s.current
    case Stopping(prev, _) => Some(prev)
    case Draining(prev, _) => Some(prev)
    case ClosingCache(prev, _) => Some(prev)
    case Opening(_) => None
    case Publishing(id) => Some(id)
  }

  /** Some of the files of d. */
  ghost predicate SomeOf(left: Dir, d: Dir) {
    forall f :: f in left ==> f in d && left[f] == d[f]
  }

  /** A failed opening may have removed some of the plugin's directories, or some of their files. */
  ghost predicate PartlyCleared(disk: Disk, left: Disk, root: nat) {
    && (forall p :: p in left ==> p in disk && SomeOf(left[p], disk[p]))
    && (forall p :: p in disk && !PluginDir(p, root) ==> p in left && left[p] == disk[p])
  }

  function NewRuntime(cfg: Config): Rt {
    Rt(cfg, NewCache(cfg.root, cfg.cacheSize, cfg.cacheTtl), false, false, map[], 1, true,
       map[], map[], {}, map[], {}, map[], [])
  }

  ghost predicate Allowed(s: System, a: Act, n: Naming) {
    match a
    case Begin(next) => s.stage.Idle? && (next.Some? ==> ValidConfig(next.value))
    case SetStopping => s.stage.Stopping?
    case Drained => s.stage.Draining? && s.stage.prev in s.runtimes && s.runtimes[s.stage.prev].wg == 0
    case CloseCache(ranges, faults) =>
      s.stage.ClosingCache? && s.stage.prev in s.runtimes
          && RangesOver(ranges, WorldOf(s.runtimes[s.stage.prev], s.disk))
    case OpenFails(left) => s.stage.Opening? && PartlyCleared(s.disk, left, s.stage.cfg.root)
    case OpenCache(id) => s.stage.Opening? && id !in s.runtimes
    case Publish => s.stage.Publishing?
    case Seek(k) => s.current.Some?
    case AdmitSeeker(k, r, blank) =>
      k in s.seekers && s.seekers[k] in s.runtimes && !s.runtimes[s.seekers[k]].stopping
      && r !in s.runtimes[s.seekers[k]].requests
    case Refuse(k) => k in s.seekers && s.seekers[k] in s.runtimes && s.runtimes[s.seekers[k]].stopping
    case Local(id, act) => id in s.runtimes && Enabled(s.runtimes[id], s.disk, act, n)
  }

  /** After the old runtime is gone: Configure goes on to open the new cache, Close is done. */
  function AfterClose(next: Option<Config>): Stage {
    if next.Some? then Opening(next.value) else Idle
  }

  function Next(s: System, a: Act, n: Naming): System {
    match a
    case Begin(next) =>
      s.(current := None, stage := if s.current.Some? then Stopping(s.current.value, next) else AfterClose(next))
    case SetStopping =>
      if s.stage.Stopping? && s.stage.prev in s.runtimes then
        s.(stage := Draining(s.stage.prev, s.stage.next),
           runtimes := s.runtimes[s.stage.prev := s.runtimes[s.stage.prev].(stopping := true)])
      else s
    case Drained => if s.stage.Draining? then s.(stage := ClosingCache(s.stage.prev, s.stage.next)) else s
    case CloseCache(ranges, faults) =>
      if s.stage.ClosingCache? && s.stage.prev in s.runtimes then
        var rt := s.runtimes[s.stage.prev];
        var w := Close(WorldOf(rt, s.disk), ranges, faults);
        s.(stage := AfterClose(s.stage.next), runtimes := s.runtimes[s.stage.prev := rt.(cache := w.cache)],
           disk := w.disk)
      else s
    case OpenFails(left) => s.(stage := Idle, disk := left)
    case OpenCache(id) =>
      if s.stage.Opening? then
        s.(stage := Publishing(id), runtimes := s.runtimes[id := NewRuntime(s.stage.cfg)],
           latest := s.latest[s.stage.cfg.root := id], disk := ClearRoot(s.disk, s.stage.cfg.root))
      else s
    case Publish => if s.stage.Publishing? then s.(current := Some(s.stage.id), stage := Idle) else s
    case Seek(k) => if s.current.Some? then s.(seekers := s.seekers[k := s.current.value]) else s
    case AdmitSeeker(k, r, blank) =>
      if k in s.seekers && s.seekers[k] in s.runtimes then
        s.(seekers := s.seekers - {k},
           runtimes := s.runtimes[s.seekers[k] := Admit(s.runtimes[s.seekers[k]], r, blank)])
      else s
    case Refuse(k) => s.(seekers := s.seekers - {k})
    case Local(id, act) =>
      if id in s.runtimes then
        var (rt, disk) := Step(s.runtimes[id], s.disk, act, n);
        s.(runtimes := s.runtimes[id := rt], disk := disk)
      else s
  }

  // ----- The invariant -----

  /** Drained: stopped, and nobody is counted by the wait group. */
  predicate DrainedRuntime(rt: Rt) {
    rt.stopping && rt.wg == 0
  }

  /** The cache has the size and the expiry of its configuration. */
  predicate Configured(rt: Rt) {
    rt.cache.maxBytes == rt.cfg.cacheSize && rt.cache.fallbackTtl == rt.cfg.cacheTtl
  }

  ghost predicate SoundRuntime(rt: Rt, open: bool, n: Naming) {
    Sound(rt, n) && Configured(rt) && Ledger(rt.cache) && (rt.cache.closed <==> !open)
        && (rt.cache.closed ==> DrainedRuntime(rt))
  }

  ghost predicate AllSound(runtimes: map<Id, Rt>, open: Option<Id>, n: Naming) {
    && (forall id :: id in runtimes ==> SoundRuntime(runtimes[id], open == Some(id), n))
    && (open.Some? ==> open.value in runtimes)
  }

  predicate ValidNext(next: Option<Config>) {
    next.Some? ==> ValidConfig(next.value)
  }

  /** What each stage of Configure or Close can rely on. */
  predicate AtStage(s: System) {
    match s.stage
    case Idle => s.current.Some? ==> s.current.value in s.runtimes && !s.runtimes[s.current.value].stopping
    case Stopping(prev, next) => s.current == None && prev in s.runtimes && !s.runtimes[prev].stopping
      && ValidNext(next)
    case Draining(prev, next) => s.current == None && prev in s.runtimes && s.runtimes[prev].stopping && ValidNext(next)
    case ClosingCache(prev, next) => s.current == None && prev in s.runtimes && DrainedRuntime(s.runtimes[prev])
      && ValidNext(next)
    case Opening(cfg) => s.current == None && ValidConfig(cfg)
    case Publishing(id) => s.current == None && id in s.runtimes && !s.runtimes[id].stopping
  }

  predicate SeekersKnown(s: System) {
    forall k :: k in s.seekers ==> s.seekers[k] in s.runtimes
  }

  ghost predicate DiskSound(s: System) {
    OpenId(s).Some? && OpenId(s).value in s.runtimes ==> OnDisk(s.runtimes[OpenId(s).value], s.disk)
  }

  /** What is on disk under the cache's directory is charged in its books, directory by directory. */
  ghost predicate Accounted(c: Cache, disk: Disk) {
    FreshDirs(c) && Covered(World(c, disk))
  }

  /**
   The runtime opened last at a cache directory is known, and once it is closed its books account for
   what it left.
   */
  ghost predicate LatestAt(runtimes: map<Id, Rt>, root: nat, id: Id, disk: Disk) {
    && id in runtimes && runtimes[id].cache.root == root
    && (runtimes[id].cache.closed ==> Accounted(runtimes[id].cache, disk))
  }

  ghost predicate LeftoversAccounted(latest: map<nat, Id>, runtimes: map<Id, Rt>, disk: Disk) {
    forall root :: root in latest ==> LatestAt(runtimes, root, latest[root], disk)
  }

  /** The open runtime is the one opened last at its cache directory. */
  predicate OpenIsLatest(s: System) {
    OpenId(s).Some? && OpenId(s).value in s.runtimes ==>
      var root := s.runtimes[OpenId(s).value].cache.root;
      root in s.latest && s.latest[root] == OpenId(s).value
  }

  ghost predicate SystemInv(s: System, n: Naming) {
    && AllSound(s.runtimes, OpenId(s), n) && AtStage(s) && SeekersKnown(s) && DiskSound(s)
    && LeftoversAccounted(s.latest, s.runtimes, s.disk) && OpenIsLatest(s)
  }

  // ----- Runtimes that are drained -----

  /** Nothing of the runtime is left: no request, job, sweeper, handle, reservation or slot. */
  ghost predicate Quiet(rt: Rt) {
    && rt.stopping && rt.requests == map[] && rt.work == map[] && !rt.sweeping && rt.jobs == map[]
    && !rt.slotFull && rt.cache.loans == map[]
    && forall k :: k in rt.cache.entries ==> rt.cache.entries[k].active == 0
  }

  lemma NoWorkNoSlot(work: map<Id, Job>, slotFull: bool, jobs: map<Key, Id>, ids: set<Id>)
    requires OneSlot(work, slotFull) && JobTable(work, jobs) && Loans(work, ids) && work == map[]
    ensures !slotFull && jobs == map[] && ids == {}
  {
    assert !SlotTaken(work);
    assert forall k :: k !in jobs;
  }

  lemma NoRequestsNoHandles(requests: map<Id, Req>, entries: map<Key, Entry>)
    requires Handles(requests, entries) && requests == map[]
    ensures forall k :: k in entries ==> entries[k].active == 0
  {
    forall k | k in entries ensures entries[k].active == 0 {
      assert Holders(requests, k) == {};
    }
  }

  lemma DrainedQuiet(rt: Rt, n: Naming)
    requires Sound(rt, n) && DrainedRuntime(rt)
    ensures Quiet(rt)
  {
    hide Origins, FiledRequests, FiledJobs, Logged, Results, ValidConfig, OneSlot, JobTable, Loans, Handles;
    assert |rt.requests| == 0 && |rt.work| == 0;
    assert rt.requests == map[] && rt.work == map[];
    NoWorkNoSlot(rt.work, rt.slotFull, rt.jobs, rt.cache.loans.Keys);
    assert rt.cache.loans == map[];
    NoRequestsNoHandles(rt.requests, rt.cache.entries);
  }

  lemma QuietStuck(rt: Rt, disk: Disk, a: Action, n: Naming)
    requires Quiet(rt)
    ensures !Enabled(rt, disk, a, n)
  {
    hide ReserveChoice, RangesOver;
  }

  // ----- One runtime changes -----

  lemma OthersSound(runtimes: map<Id, Rt>, open: Option<Id>, id: Id, rt': Rt, n: Naming)
    requires AllSound(runtimes, open, n) && SoundRuntime(rt', open == Some(id), n)
    ensures AllSound(runtimes[id := rt'], open, n)
  {
    hide SoundRuntime;
  }

  lemma SoundOpen(s: System, id: Id, n: Naming)
    requires SystemInv(s, n) && OpenId(s) == Some(id)
    ensures id in s.runtimes && Good(s.runtimes[id], s.disk, n)
    ensures !s.runtimes[id].cache.closed && Configured(s.runtimes[id])
  {
    hide Sound, OnDisk, LeftoversAccounted, Ledger;
    assert SoundRuntime(s.runtimes[id], true, n);
  }

  /** Only the runtime with the open cache can take a step. */
  lemma EnabledIsOpen(s: System, id: Id, a: Action, n: Naming)
    requires SystemInv(s, n) && id in s.runtimes && Enabled(s.runtimes[id], s.disk, a, n)
    ensures OpenId(s) == Some(id)
  {
    hide Enabled, Sound, OnDisk, Quiet, AtStage, LeftoversAccounted, Ledger, OpenIsLatest;
    if OpenId(s) != Some(id) {
      assert SoundRuntime(s.runtimes[id], false, n);
      DrainedQuiet(s.runtimes[id], n);
      QuietStuck(s.runtimes[id], s.disk, a, n);
    }
  }

  // ----- What other runtimes left -----

  lemma AccountedOutside(c: Cache, disk: Disk, disk': Disk, root: nat)
    requires Accounted(c, disk) && OutsideSame(disk, disk', root) && c.root != root
    ensures Accounted(c, disk')
  {
    hide Charged;
    forall p | p in disk' && p.root == c.root ensures Charged(c, p, DirBytes(disk'[p])) {
      assert Charged(c, p, DirBytes(disk[p]));
    }
  }

  /** A runtime changes, is closed or is opened, and the disk only under its cache directory. */
  lemma LeftoversStay(latest: map<nat, Id>, runtimes: map<Id, Rt>, disk: Disk, root: nat, id: Id, rt': Rt, disk': Disk)
    requires LeftoversAccounted(latest, runtimes, disk) && OutsideSame(disk, disk', root)
    requires rt'.cache.root == root && (rt'.cache.closed ==> Accounted(rt'.cache, disk'))
    requires id in runtimes ==> runtimes[id].cache.root == root
    ensures LeftoversAccounted(latest[root := id], runtimes[id := rt'], disk')
  {
    hide Accounted, OutsideSame;
    var latest', runtimes' := latest[root := id], runtimes[id := rt'];
    forall r | r in latest' ensures LatestAt(runtimes', r, latest'[r], disk') {
      if r != root {
        assert LatestAt(runtimes, r, latest[r], disk);
        if runtimes[latest[r]].cache.closed {
          AccountedOutside(runtimes[latest[r]].cache, disk, disk', root);
        }
      }
    }
  }

  // ----- Every step keeps the invariant -----

  lemma BeginKeeps(s: System, next: Option<Config>, n: Naming)
    requires SystemInv(s, n) && Allowed(s, Begin(next), n)
    ensures SystemInv(Next(s, Begin(next), n), n)
  {
    hide SoundRuntime, OnDisk, LeftoversAccounted;
  }

  lemma StoppingSound(rt: Rt, disk: Disk, n: Naming)
    requires Good(rt, disk, n)
    ensures Good(rt.(stopping := true), disk, n)
  {
    hide JobBooks, Handles, Origins, FiledRequests, FiledJobs, Loans, Waiters, Inv, DirsThere;
  }

  /** The open runtime changes while its cache stays open; the disk only under its cache directory. */
  lemma OpenRuntimeChanges(s: System, s': System, id: Id, rt': Rt, n: Naming)
    requires SystemInv(s, n) && OpenId(s) == Some(id) && id in s.runtimes && Good(rt', s'.disk, n) && Configured(rt')
    requires OutsideSame(s.disk, s'.disk, s.runtimes[id].cache.root)
    requires !rt'.cache.closed && rt'.cache.root == s.runtimes[id].cache.root
    requires s'.runtimes == s.runtimes[id := rt'] && s'.latest == s.latest && OpenId(s') == OpenId(s)
    requires AtStage(s') && SeekersKnown(s')
    ensures SystemInv(s', n)
  {
    hide SoundRuntime, OnDisk, LeftoversAccounted, AtStage, SeekersKnown, Good, Configured, OutsideSame;
    OpenIsSound(rt', s'.disk, n);
    OthersSound(s.runtimes, Some(id), id, rt', n);
    LeftoversStay(s.latest, s.runtimes, s.disk, rt'.cache.root, id, rt', s'.disk);
    assert s.latest[rt'.cache.root := id] == s.latest;
  }

  lemma OpenIsSound(rt: Rt, disk: Disk, n: Naming)
    requires Good(rt, disk, n) && Configured(rt) && !rt.cache.closed
    ensures SoundRuntime(rt, true, n) && OnDisk(rt, disk)
  {
    hide Sound, Configured;
    GoodLedger(rt, disk, n);
  }

  lemma SetStoppingKeeps(s: System, n: Naming)
    requires SystemInv(s, n) && Allowed(s, SetStopping, n)
    ensures SystemInv(Next(s, SetStopping, n), n)
  {
    hide Good, AllSound, DiskSound, LeftoversAccounted, OpenIsLatest;
    var id := s.stage.prev;
    SoundOpen(s, id, n);
    StoppingSound(s.runtimes[id], s.disk, n);
    OutsideRefl(s.disk, s.runtimes[id].cache.root);
    OpenRuntimeChanges(s, Next(s, SetStopping, n), id, s.runtimes[id].(stopping := true), n);
  }

  lemma DrainedKeeps(s: System, n: Naming)
    requires SystemInv(s, n) && Allowed(s, Drained, n)
    ensures SystemInv(Next(s, Drained, n), n)
  {
    hide SoundRuntime, OnDisk, LeftoversAccounted;
  }

  /** The closed flag is nobody's business but the lookups' and reservations'. */
  lemma ClosedSound(rt: Rt, c': Cache, n: Naming)
    requires Sound(rt.(cache := c'.(closed := rt.cache.closed)), n)
    ensures Sound(rt.(cache := c'), n)
  {
    hide JobBooks, Origins, FiledRequests, FiledJobs, Loans, Waiters, NeverStale, FaithfulLog, Traced;
    SameEntriesTimed(rt.log, c'.(closed := rt.cache.closed), c');
  }

  lemma FlagLedger(c: Cache, closed: bool)
    requires Ledger(c)
    ensures Ledger(c.(closed := closed))
  {
    SameEntries(c, c.(closed := closed));
  }

  /** A drained runtime closes its cache: it stays sound, and its books account for what is left. */
  lemma ClosedRuntime(rt: Rt, disk: Disk, ranges: Ranges, faults: Faults, w': World, n: Naming)
    requires Good(rt, disk, n) && DrainedRuntime(rt) && Configured(rt) && w' == Close(WorldOf(rt, disk), ranges, faults)
    ensures SoundRuntime(rt.(cache := w'.cache), false, n) && Accounted(w'.cache, w'.disk)
    ensures w'.cache.root == rt.cache.root && w'.cache.closed && OutsideSame(disk, w'.disk, rt.cache.root)
  {
    hide Close, Calm, Sound, Covered, PinnedIntact, FreshDirs, Ledger, DirsThere, JobPlaces, OutsideSame;
    var reopened := w'.(cache := w'.cache.(closed := rt.cache.closed));
    CloseKeeps(WorldOf(rt, disk), ranges, faults);
    CalmSameCache(WorldOf(rt, disk), reopened);
    CalmOutside(WorldOf(rt, disk), reopened);
    FlagLedger(w'.cache, rt.cache.closed);
    CalmGood(rt, disk, reopened, n);
    ClosedSound(rt, w'.cache, n);
  }

  lemma LastClosed(runtimes: map<Id, Rt>, id: Id, rt': Rt, n: Naming)
    requires AllSound(runtimes, Some(id), n) && SoundRuntime(rt', false, n)
    ensures AllSound(runtimes[id := rt'], None, n)
  {
    hide SoundRuntime;
  }

  lemma CloseCacheKeeps(s: System, ranges: Ranges, faults: Faults, n: Naming)
    requires SystemInv(s, n) && Allowed(s, CloseCache(ranges, faults), n)
    ensures SystemInv(Next(s, CloseCache(ranges, faults), n), n)
  {
    hide SoundRuntime, OnDisk, Close, Good, LeftoversAccounted, Accounted, OutsideSame;
    var id := s.stage.prev;
    SoundOpen(s, id, n);
    var rt, w' := s.runtimes[id], Close(WorldOf(s.runtimes[id], s.disk), ranges, faults);
    ClosedRuntime(rt, s.disk, ranges, faults, w', n);
    LastClosed(s.runtimes, id, rt.(cache := w'.cache), n);
    LeftoversStay(s.latest, s.runtimes, s.disk, rt.cache.root, id, rt.(cache := w'.cache), w'.disk);
    assert s.latest[rt.cache.root := id] == s.latest;
  }

  lemma AccountedCleared(c: Cache, disk: Disk, left: Disk, root: nat)
    requires Accounted(c, disk) && PartlyCleared(disk, left, root)
    ensures Accounted(c, left)
  {
    hide DirBytes;
    forall p | p in left && p.root == c.root ensures Charged(c, p, DirBytes(left[p])) {
      assert Charged(c, p, DirBytes(disk[p])) && SomeOf(left[p], disk[p]);
      SomeBytes(left[p], disk[p]);
    }
  }

  lemma SomeBytes(left: Dir, d: Dir)
    requires SomeOf(left, d)
    ensures DirBytes(left) <= DirBytes(d)
  {
    SumMonotone(left, d);
  }

  lemma OpenFailsKeeps(s: System, left: Disk, n: Naming)
    requires SystemInv(s, n) && Allowed(s, OpenFails(left), n)
    ensures SystemInv(Next(s, OpenFails(left), n), n)
  {
    hide SoundRuntime, OnDisk, Accounted, PartlyCleared;
    forall root | root in s.latest ensures LatestAt(s.runtimes, root, s.latest[root], left) {
      assert LatestAt(s.runtimes, root, s.latest[root], s.disk);
      if s.runtimes[s.latest[root]].cache.closed {
        AccountedCleared(s.runtimes[s.latest[root]].cache, s.disk, left, s.stage.cfg.root);
      }
    }
  }

  /** A new runtime starts with empty books on a cleared directory. */
  lemma NewRuntimeGood(cfg: Config, disk: Disk, n: Naming)
    requires ValidConfig(cfg)
    ensures Good(NewRuntime(cfg), ClearRoot(disk, cfg.root), n)
  {
    hide Inv, Coherent, Logged;
    NewCacheKeeps(cfg.root, cfg.cacheSize, cfg.cacheTtl, disk);
    NewRuntimeCoherent(cfg, n);
    NewRuntimeLogged(cfg, n);
  }

  lemma NewRuntimeCoherent(cfg: Config, n: Naming)
    requires ValidConfig(cfg)
    ensures Coherent(NewRuntime(cfg), n)
  {
    assert !SlotTaken(map[]);
  }

  lemma NewRuntimeLogged(cfg: Config, n: Naming)
    ensures Logged(NewRuntime(cfg), n)
  {
  }

  lemma ClearOutside(disk: Disk, root: nat)
    ensures OutsideSame(disk, ClearRoot(disk, root), root)
  {
  }

  lemma FirstOpened(runtimes: map<Id, Rt>, id: Id, rt': Rt, n: Naming)
    requires AllSound(runtimes, None, n) && SoundRuntime(rt', true, n) && id !in runtimes
    ensures AllSound(runtimes[id := rt'], Some(id), n)
  {
    hide SoundRuntime;
  }

  lemma OpenCacheKeeps(s: System, id: Id, n: Naming)
    requires SystemInv(s, n) && Allowed(s, OpenCache(id), n)
    ensures SystemInv(Next(s, OpenCache(id), n), n)
  {
    hide SoundRuntime, OnDisk, ClearRoot, LeftoversAccounted, OutsideSame, Good;
    var cfg, rt := s.stage.cfg, NewRuntime(s.stage.cfg);
    NewRuntimeGood(cfg, s.disk, n);
    OpenIsSound(rt, ClearRoot(s.disk, cfg.root), n);
    FirstOpened(s.runtimes, id, rt, n);
    ClearOutside(s.disk, cfg.root);
    LeftoversStay(s.latest, s.runtimes, s.disk, cfg.root, id, rt, ClearRoot(s.disk, cfg.root));
  }

  lemma PublishKeeps(s: System, n: Naming)
    requires SystemInv(s, n) && Allowed(s, Publish, n)
    ensures SystemInv(Next(s, Publish, n), n)
  {
    hide SoundRuntime, OnDisk, LeftoversAccounted;
  }

  lemma SeekKeeps(s: System, k: Id, n: Naming)
    requires SystemInv(s, n) && Allowed(s, Seek(k), n)
    ensures SystemInv(Next(s, Seek(k), n), n)
  {
    hide SoundRuntime, OnDisk, LeftoversAccounted;
  }

  lemma RefuseKeeps(s: System, k: Id, n: Naming)
    requires SystemInv(s, n) && Allowed(s, Refuse(k), n)
    ensures SystemInv(Next(s, Refuse(k), n), n)
  {
    hide SoundRuntime, OnDisk, LeftoversAccounted;
  }

  /** The open runtime takes a step that leaves its stop flag and its cache's identity alone. */
  lemma OpenRuntimeSteps(s: System, s': System, id: Id, rt': Rt, n: Naming)
    requires SystemInv(s, n) && OpenId(s) == Some(id) && id in s.runtimes && Good(rt', s'.disk, n) && Configured(rt')
    requires OutsideSame(s.disk, s'.disk, s.runtimes[id].cache.root)
    requires s' == s.(runtimes := s.runtimes[id := rt'], seekers := s'.seekers, disk := s'.disk)
    requires forall k :: k in s'.seekers ==> k in s.seekers && s'.seekers[k] == s.seekers[k]
    requires rt'.stopping == s.runtimes[id].stopping
    requires rt'.cache.closed == s.runtimes[id].cache.closed && rt'.cache.root == s.runtimes[id].cache.root
    requires !s.stage.ClosingCache?
    ensures SystemInv(s', n)
  {
    hide Good, AllSound, DiskSound, LeftoversAccounted, OpenIsLatest, OutsideSame;
    SoundOpen(s, id, n);
    OpenRuntimeChanges(s, s', id, rt', n);
  }

  /** A stopping flag that is not set belongs to an open runtime. */
  lemma RunningIsOpen(s: System, id: Id, n: Naming)
    requires SystemInv(s, n) && id in s.runtimes && !s.runtimes[id].stopping
    ensures OpenId(s) == Some(id)
  {
    hide Sound, OnDisk, AtStage, SeekersKnown, DiskSound, LeftoversAccounted, Ledger, OpenIsLatest;
    assert SoundRuntime(s.runtimes[id], OpenId(s) == Some(id), n);
  }

  /** A seeker is admitted by the runtime it has read, whose cache is then still open. */
  lemma AdmittedKeeps(s: System, s': System, k: Id, id: Id, r: Id, blank: Req, n: Naming)
    requires SystemInv(s, n) && id in s.runtimes && !s.runtimes[id].stopping && r !in s.runtimes[id].requests
    requires s' == s.(seekers := s.seekers - {k}, runtimes := s.runtimes[id := Admit(s.runtimes[id], r, blank)])
    ensures SystemInv(s', n)
  {
    hide Good, SystemInv, AtStage, OutsideSame;
    RunningIsOpen(s, id, n);
    SoundOpen(s, id, n);
    AdmitGood(s.runtimes[id], s.disk, r, blank, n);
    RunningNotClosing(s, id, n);
    OutsideRefl(s.disk, s.runtimes[id].cache.root);
    OpenRuntimeSteps(s, s', id, Admit(s.runtimes[id], r, blank), n);
  }

  lemma RunningNotClosing(s: System, id: Id, n: Naming)
    requires SystemInv(s, n) && OpenId(s) == Some(id) && id in s.runtimes && !s.runtimes[id].stopping
    ensures !s.stage.ClosingCache?
  {
    hide AllSound, DiskSound, SeekersKnown, LeftoversAccounted;
  }

  lemma AdmitKeeps(s: System, k: Id, r: Id, blank: Req, n: Naming)
    requires SystemInv(s, n) && Allowed(s, AdmitSeeker(k, r, blank), n)
    ensures SystemInv(Next(s, AdmitSeeker(k, r, blank), n), n)
  {
    hide SystemInv;
    AdmittedKeeps(s, Next(s, AdmitSeeker(k, r, blank), n), k, s.seekers[k], r, blank, n);
  }

  lemma LocalKeeps(s: System, id: Id, a: Action, n: Naming)
    requires SystemInv(s, n) && Consistent(n) && Allowed(s, Local(id, a), n)
    ensures SystemInv(Next(s, Local(id, a), n), n)
  {
    hide Good, Step, Enabled, Consistent, SystemInv, OutsideSame;
    EnabledIsOpen(s, id, a, n);
    SoundOpen(s, id, n);
    var (rt', disk') := Step(s.runtimes[id], s.disk, a, n);
    StepGood(s.runtimes[id], s.disk, a, n);
    StepContinues(s.runtimes[id], s.disk, a, n);
    StepOutside(s.runtimes[id], s.disk, a, n);
    NotDrained(s, id, a, n);
    OpenRuntimeSteps(s, Next(s, Local(id, a), n), id, rt', n);
  }

  /** Once the wait group is at zero, no step is left. */
  lemma NotDrained(s: System, id: Id, a: Action, n: Naming)
    requires SystemInv(s, n) && OpenId(s) == Some(id) && id in s.runtimes && Enabled(s.runtimes[id], s.disk, a, n)
    ensures !s.stage.ClosingCache?
  {
    hide Good, Enabled, Sound, LeftoversAccounted, Ledger;
    if s.stage.ClosingCache? {
      assert SoundRuntime(s.runtimes[id], true, n);
      DrainedStuck(s.runtimes[id], s.disk, a, n);
    }
  }

  lemma DrainedStuck(rt: Rt, disk: Disk, a: Action, n: Naming)
    requires Sound(rt, n) && DrainedRuntime(rt)
    ensures !Enabled(rt, disk, a, n)
  {
    hide Sound, Enabled, Quiet;
    DrainedQuiet(rt, n);
    QuietStuck(rt, disk, a, n);
  }

  lemma NextKeeps(s: System, a: Act, n: Naming)
    requires SystemInv(s, n) && Consistent(n) && Allowed(s, a, n)
    ensures SystemInv(Next(s, a, n), n)
  {
    hide SystemInv, Next, Allowed, Consistent;
    match a {
      case Begin(next) => BeginKeeps(s, next, n);
      case SetStopping => SetStoppingKeeps(s, n);
      case Drained => DrainedKeeps(s, n);
      case CloseCache(ranges, faults) => CloseCacheKeeps(s, ranges, faults, n);
      case OpenFails(left) => OpenFailsKeeps(s, left, n);
      case OpenCache(id) => OpenCacheKeeps(s, id, n);
      case Publish => PublishKeeps(s, n);
      case Seek(k) => SeekKeeps(s, k, n);
      case AdmitSeeker(k, r, blank) => AdmitKeeps(s, k, r, blank, n);
      case Refuse(k) => RefuseKeeps(s, k, n);
      case Local(id, act) => LocalKeeps(s, id, act, n);
    }
  }

  // ----- Runs -----

  /** Every action of the run is possible when its turn comes. */
  ghost predicate Legal(s: System, run: seq<Act>, n: Naming)
    decreases |run|
  {
    run != [] ==> Legal(s, run[..|run| - 1], n) && Allowed(After(s, run[..|run| - 1], n), run[|run| - 1], n)
  }

  function After(s: System, run: seq<Act>, n: Naming): System
    decreases |run|
  {
    if run == [] then s else Next(After(s, run[..|run| - 1], n), run[|run| - 1], n)
  }

  lemma {:induction false} RunKeeps(s: System, run: seq<Act>, n: Naming)
    requires SystemInv(s, n) && Consistent(n) && Legal(s, run, n)
    ensures SystemInv(After(s, run, n), n)
    decreases |run|
  {
    hide SystemInv, Next, Allowed, Consistent;
    if run != [] {
      RunKeeps(s, run[..|run| - 1], n);
      NextKeeps(After(s, run[..|run| - 1], n), run[|run| - 1], n);
    }
  }

  /** The invariant holds at every state of every run of a new backend. */
  lemma ReachableSound(disk: Disk, run: seq<Act>, n: Naming)
    requires Consistent(n) && Legal(Start(disk), run, n)
    ensures SystemInv(After(Start(disk), run, n), n)
  {
    hide Next, Allowed, Consistent;
    RunKeeps(Start(disk), run, n);
  }
}
