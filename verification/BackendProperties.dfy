/** What the invariant of the backend means, at every state of every run. */
module BackendProperties {
  import opened Bytes
  import opened Options
  import opened Fingerprint
  import opened CacheModel
  import opened CacheProofs
  import opened CacheProperties
  import opened CacheLaws
  import opened Runtime
  import opened RuntimeInvariant
  import opened RequestSteps
  import opened JobEnding
  import opened JobUnwinding
  import opened Draining
  import opened Lifecycle

  // ----- Closing -----

  /** `cache.close` runs only when nothing of the runtime is left. */
  lemma CloseIsQuiet(s: System, ranges: Ranges, faults: Faults, n: Naming)
    requires SystemInv(s, n) && Allowed(s, CloseCache(ranges, faults), n)
    ensures s.stage.prev in s.runtimes && Quiet(s.runtimes[s.stage.prev])
  {
    hide OnDisk, Quiet, Sound, AllSound, LeftoversAccounted, DiskSound, OpenIsLatest;
    SoundOpen(s, s.stage.prev, n);
    GoodSound(s.runtimes[s.stage.prev], s.disk, n);
    DrainedQuiet(s.runtimes[s.stage.prev], n);
  }

  lemma GoodSound(rt: Rt, disk: Disk, n: Naming)
    requires Good(rt, disk, n)
    ensures Sound(rt, n)
  {
  }

  /** A runtime whose cache is closed is quiet. */
  lemma ClosedIsQuiet(s: System, id: Id, n: Naming)
    requires SystemInv(s, n) && id in s.runtimes && s.runtimes[id].cache.closed
    ensures Quiet(s.runtimes[id])
  {
    hide OnDisk, Quiet, Sound, AtStage;
    assert SoundRuntime(s.runtimes[id], OpenId(s) == Some(id), n);
    DrainedQuiet(s.runtimes[id], n);
  }

  /** No step touches a closed runtime. */
  lemma ClosedStays(s: System, id: Id, a: Act, n: Naming)
    requires SystemInv(s, n) && Allowed(s, a, n) && id in s.runtimes && s.runtimes[id].cache.closed
    ensures id in Next(s, a, n).runtimes && Next(s, a, n).runtimes[id] == s.runtimes[id]
  {
    hide SystemInv, Enabled, Step, Close, ClearRoot, PartlyCleared;
    ClosedNotOpen(s, id, n);
    if a.Local? {
      EnabledIsOpen(s, a.id, a.a, n);
    } else {
      BackendStepPlaces(s, a, n);
    }
  }

  lemma ClosedNotOpen(s: System, id: Id, n: Naming)
    requires SystemInv(s, n) && id in s.runtimes && s.runtimes[id].cache.closed
    ensures OpenId(s) != Some(id) && DrainedRuntime(s.runtimes[id])
  {
    hide OnDisk, Sound, Ledger, AtStage, LeftoversAccounted;
    assert SoundRuntime(s.runtimes[id], OpenId(s) == Some(id), n);
  }

  /** The runtime that a step of Configure, Close or admission changes has the open cache, or is new. */
  lemma BackendStepPlaces(s: System, a: Act, n: Naming)
    requires SystemInv(s, n) && Allowed(s, a, n)
    ensures a.AdmitSeeker? ==> OpenId(s) == Some(s.seekers[a.s])
    ensures a.SetStopping? || a.CloseCache? ==> OpenId(s) == Some(s.stage.prev)
    ensures a.OpenCache? ==> a.id !in s.runtimes
  {
    hide SystemInv, PartlyCleared, Enabled;
    if a.AdmitSeeker? {
      RunningIsOpen(s, s.seekers[a.s], n);
    }
  }

  /** ... for the rest of the run. */
  lemma {:induction false} ClosedForever(s: System, id: Id, run: seq<Act>, n: Naming)
    requires SystemInv(s, n) && Consistent(n) && Legal(s, run, n) && id in s.runtimes && s.runtimes[id].cache.closed
    ensures var s' := After(s, run, n);
            id in s'.runtimes && s'.runtimes[id] == s.runtimes[id]
    decreases |run|
  {
    hide SystemInv, Next, Allowed, Consistent;
    if run != [] {
      var most := run[..|run| - 1];
      ClosedForever(s, id, most, n);
      RunKeeps(s, most, n);
      ClosedStays(After(s, most, n), id, run[|run| - 1], n);
    }
  }

  /** At most one runtime has an open cache. */
  lemma OneOpenCache(s: System, id: Id, id': Id, n: Naming)
    requires SystemInv(s, n) && id in s.runtimes && id' in s.runtimes
    requires !s.runtimes[id].cache.closed && !s.runtimes[id'].cache.closed
    ensures id == id' && OpenId(s) == Some(id)
  {
    hide OnDisk, Sound, AtStage;
    assert SoundRuntime(s.runtimes[id], OpenId(s) == Some(id), n);
    assert SoundRuntime(s.runtimes[id'], OpenId(s) == Some(id'), n);
  }

  /** `current` never points at a stopping runtime, and its cache is open. */
  lemma CurrentRuns(s: System, n: Naming)
    requires SystemInv(s, n) && s.current.Some?
    ensures s.stage.Idle? && s.current.value in s.runtimes
    ensures !s.runtimes[s.current.value].stopping && !s.runtimes[s.current.value].cache.closed
  {
    hide Good, AllSound, LeftoversAccounted, DiskSound, OpenIsLatest;
    SoundOpen(s, s.current.value, n);
  }

  /** A runtime whose cache is open satisfies the whole invariant, with the cache its configuration asks for. */
  lemma OpenIsGood(s: System, id: Id, n: Naming)
    requires SystemInv(s, n) && id in s.runtimes && !s.runtimes[id].cache.closed
    ensures Good(s.runtimes[id], s.disk, n) && Configured(s.runtimes[id])
  {
    hide Good, SystemInv;
    OneOpenCache(s, id, id, n);
    SoundOpen(s, id, n);
  }

  // ----- The budget -----

  /** The books add up and stay within the cache size, in every runtime, open or closed. */
  lemma BooksWithinBudget(s: System, id: Id, n: Naming)
    requires SystemInv(s, n) && id in s.runtimes
    ensures var rt := s.runtimes[id];
            && Ledger(rt.cache) && rt.cache.usedBytes + rt.cache.reserved <= rt.cfg.cacheSize
  {
    hide OnDisk, AtStage, Sound, LeftoversAccounted;
    assert SoundRuntime(s.runtimes[id], OpenId(s) == Some(id), n);
  }

  lemma RootConfigured(s: System, id: Id, n: Naming)
    requires SystemInv(s, n) && id in s.runtimes
    ensures s.runtimes[id].cache.root == s.runtimes[id].cfg.root
  {
    hide OnDisk, AtStage, LeftoversAccounted, Ledger, Logged, JobBooks, Handles, Origins, FiledRequests, FiledJobs,
         Waiters;
    assert SoundRuntime(s.runtimes[id], OpenId(s) == Some(id), n);
  }

  lemma GoodAccounts(rt: Rt, disk: Disk, n: Naming)
    requires Good(rt, disk, n)
    ensures Accounted(rt.cache, disk)
  {
    hide Ledger, PinnedIntact, DirsThere, JobPlaces, Sound, Covered, FreshDirs;
  }

  /** What is on disk under a cache directory is in the books of the runtime opened there last, open or closed. */
  lemma LatestAccounts(s: System, root: nat, n: Naming)
    requires SystemInv(s, n) && root in s.latest
    ensures s.latest[root] in s.runtimes
    ensures s.runtimes[s.latest[root]].cache.root == root && Accounted(s.runtimes[s.latest[root]].cache, s.disk)
  {
    hide Accounted, Good;
    var id := s.latest[root];
    assert LatestAt(s.runtimes, root, id, s.disk);
    if !s.runtimes[id].cache.closed {
      OpenIsGood(s, id, n);
      GoodAccounts(s.runtimes[id], s.disk, n);
    }
  }

  /**
   At every state, under every cache directory, and whatever deletions failed: the bytes on disk are
   within what the books of the runtime opened there last charge, and those within its cache size.
   A closed cache whose deletions failed keeps accounting for what it left until the directory is
   opened again.
   */
  lemma BytesWithinBudget(s: System, root: nat, n: Naming)
    requires SystemInv(s, n) && root in s.latest
    ensures s.latest[root] in s.runtimes && WithinBudget(s.runtimes[s.latest[root]], s.disk)
    ensures s.runtimes[s.latest[root]].cfg.root == root
  {
    hide SystemInv;
    var id := s.latest[root];
    LatestAccounts(s, root, n);
    BooksWithinBudget(s, id, n);
    RootConfigured(s, id, n);
    DiskWithinBudget(WorldOf(s.runtimes[id], s.disk));
  }

  ghost predicate WithinBudget(rt: Rt, disk: Disk) {
    OwnedBytes(disk, rt.cfg.root) <= rt.cache.usedBytes + rt.cache.reserved <= rt.cfg.cacheSize
  }

  /** The open runtime is the one opened last at its cache directory. */
  lemma OpenLatest(s: System, id: Id, n: Naming)
    requires SystemInv(s, n) && id in s.runtimes && !s.runtimes[id].cache.closed
    ensures s.runtimes[id].cfg.root in s.latest && s.latest[s.runtimes[id].cfg.root] == id
  {
    hide AllSound, LeftoversAccounted, DiskSound, AtStage;
    OneOpenCache(s, id, id, n);
    RootConfigured(s, id, n);
  }

  // ----- Jobs -----

  /** The delete removes the deleting job itself, and no other. */
  lemma DeletesItself(rt: Rt, id: Id, n: Naming)
    requires Coherent(rt, n) && id in rt.work && rt.work[id].pc.ErrSet?
    ensures rt.work[id].key in rt.jobs && rt.jobs[rt.work[id].key] == id
    ensures forall k :: k in rt.jobs && rt.jobs[k] != id ==>
              k in DeleteJob(rt, id).jobs && DeleteJob(rt, id).jobs[k] == rt.jobs[k]
  {
    hide OneSlot, Results, Handles, Origins, Loans, FiledJobs, FiledRequests;
    DeletedTable(rt.work, id, rt.jobs);
  }

  /** The done channel is closed once, after the result is assigned and the reservation and the slot are back. */
  lemma ClosesDoneOnce(rt: Rt, id: Id, n: Naming)
    requires Coherent(rt, n) && id in rt.work && rt.work[id].pc.Deleted?
    ensures id !in rt.done && id in rt.results && id !in rt.cache.loans && !HoldsSlot(rt.work[id].pc)
    ensures rt.work[id].key in rt.jobs ==> rt.jobs[rt.work[id].key] != id
    ensures id in CloseDone(rt, id).done && CloseDone(rt, id).results == rt.results
  {
    hide Handles, Origins, FiledJobs, FiledRequests;
  }

  /** A job that was started is still running, or its result is assigned and its channel closed. */
  lemma StartedJobs(rt: Rt, id: Id, n: Naming)
    requires Coherent(rt, n) && id in rt.issued
    ensures id in rt.work || (id in rt.results && id in rt.done)
  {
    hide OneSlot, JobTable, Handles, Origins, Loans, FiledJobs, FiledRequests, Waiters;
  }

  /** So no waiter is left alone: its job is running, or its channel is closed. */
  lemma WaiterIsServed(rt: Rt, r: Id, n: Naming)
    requires Coherent(rt, n) && r in rt.requests && rt.requests[r].pc.Waiting?
    ensures var job := rt.requests[r].pc.job;
            job in rt.issued && (job in rt.work || (job in rt.results && job in rt.done))
  {
    hide OneSlot, JobTable, Handles, Origins, Loans, FiledJobs, FiledRequests;
    assert Waiter(rt.requests[r], rt.issued);
  }

  /** Whoever wakes up on a closed done channel reads a result that was assigned. */
  lemma WakesOnResult(rt: Rt, r: Id, n: Naming)
    requires Coherent(rt, n) && r in rt.requests && rt.requests[r].pc.Waiting? && rt.requests[r].pc.job in rt.done
    ensures rt.requests[r].pc.job in rt.results
    ensures Wake(rt, r).requests[r].pc == if rt.results[rt.requests[r].pc.job] then Ready else Leaving
  {
    hide OneSlot, JobTable, Handles, Origins, Loans, FiledJobs, FiledRequests;
  }

  // ----- Handles -----

  /** A request that holds a handle finds its entry and all its pages, whole. */
  lemma HeldPagesIntact(rt: Rt, disk: Disk, r: Id, n: Naming)
    requires Good(rt, disk, n) && r in rt.requests && Runtime.Pins(rt.requests[r])
    ensures var key := rt.requests[r].key;
            && key in rt.cache.entries && rt.cache.entries[key].active > 0
            && WholeAndReadable(disk, {}, rt.cache.entries[key])
  {
    hide Ledger, Covered, FreshDirs, DirsThere, JobPlaces, JobBooks, Origins, Loans, FiledJobs, FiledRequests, Logged,
         PagesOnDisk;
    var key := rt.requests[r].key;
    assert r in Holders(rt.requests, key);
    assert PinnedIntact(WorldOf(rt, disk));
    WholeMeans(disk, {}, rt.cache.entries[key]);
  }

  /** The handle count is the number of handles that were given out and not released. */
  lemma CountedHandles(rt: Rt, n: Naming, key: Key)
    requires Coherent(rt, n) && key in rt.cache.entries
    ensures rt.cache.entries[key].active == |Holders(rt.requests, key)|
  {
    hide JobBooks, Origins, Loans, FiledJobs, FiledRequests;
  }

  // ----- Answers -----

  /** Keys are the hash of the fingerprint; `hash` stands for hexadecimal SHA-256. */
  function HashNaming(hash: Text -> Text): Naming {
    Naming((v: Version) => Name(hash(FingerprintFor(v.req, v.head))), (v: Version) => Validated(v.req))
  }

  lemma HashNamingConsistent(hash: Text -> Text)
    ensures Consistent(HashNaming(hash))
  {
    var n := HashNaming(hash);
    forall a: Version, b: Version | SameVersion(a, b) ensures n.key(a) == n.key(b) && n.valid(a) == n.valid(b) {
      assert FingerprintFor(a.req, a.head) == FingerprintFor(b.req, b.head);
    }
  }

  /** The hash tells the fingerprints of these two versions apart, if they differ. */
  predicate NoCollision(hash: Text -> Text, a: Version, b: Version) {
    hash(FingerprintFor(a.req, a.head)) == hash(FingerprintFor(b.req, b.head)) ==>
      FingerprintFor(a.req, a.head) == FingerprintFor(b.req, b.head)
  }

  /** The assumptions under which a key tells two versions apart. */
  predicate Distinguished(hash: Text -> Text, a: Version, b: Version) {
    NoCollision(hash, a, b) && NulFree(a.head.etag) && NulFree(b.head.etag)
  }

  lemma SameKeySameVersion(hash: Text -> Text, a: Version, b: Version)
    requires HashNaming(hash).key(a) == HashNaming(hash).key(b) && HashNaming(hash).valid(a)
             && HashNaming(hash).valid(b)
    requires Distinguished(hash, a, b)
    ensures SameVersion(a, b)
  {
    FingerprintInjective(a.req, a.head, b.req, b.head);
  }

  /** An answer in the log is from the archive whose commit was the last one under its key. */
  lemma ServedAsPublished(s: System, id: Id, i: nat, n: Naming)
    requires SystemInv(s, n) && id in s.runtimes && i < |s.runtimes[id].log| && s.runtimes[id].log[i].Served?
    ensures Faithful(s.runtimes[id].log, i, n)
  {
    hide OnDisk, AtStage, Coherent, Timed, NeverStale, Traced, LeftoversAccounted, Ledger, Faithful;
    assert SoundRuntime(s.runtimes[id], OpenId(s) == Some(id), n);
  }

  /**
   Every answer in the log comes from an archive whose API version, content, file, size, ETag and
   Last-Modified are those that were asked for: for every answer whose ETags are NUL-free and whose
   two fingerprints the hash does not confuse.
   */
  lemma ServedAsAsked(s: System, id: Id, i: nat, hash: Text -> Text)
    requires SystemInv(s, HashNaming(hash)) && id in s.runtimes && i < |s.runtimes[id].log|
             && s.runtimes[id].log[i].Served?
    requires Distinguished(hash, s.runtimes[id].log[i].asked, s.runtimes[id].log[i].origin)
    ensures SameVersion(s.runtimes[id].log[i].asked, s.runtimes[id].log[i].origin)
  {
    hide SystemInv, SameVersion;
    ServedAsPublished(s, id, i, HashNaming(hash));
    SameKeySameVersion(hash, s.runtimes[id].log[i].asked, s.runtimes[id].log[i].origin);
  }

  lemma RespondNext(s: System, id: Id, r: Id, n: Naming)
    requires id in s.runtimes && r in s.runtimes[id].requests
    ensures id in Next(s, Local(id, DoRespond(r)), n).runtimes
    ensures Next(s, Local(id, DoRespond(r)), n).runtimes[id] == Respond(s.runtimes[id], r)
  {
    hide Respond, LookupStep, StartJob, SweepStep, CommitStep, ReleaseStep;
  }

  /**
   From rt to rt' request r is answered: the log gains the answer, its origin is the archive whose
   commit published the entry under the request's key, and that is filed under the same key.
   */
  ghost predicate AnswersFrom(rt: Rt, r: Id, rt': Rt, n: Naming)
    requires r in rt.requests
  {
    var req := rt.requests[r];
    && req.key in rt.cache.entries && req.key in rt.origins
    && rt'.log == rt.log + [Served(req.archive, rt.origins[req.key])]
    && LastPublished(rt.log, req.key).Some? && LastPublished(rt.log, req.key).value.origin == rt.origins[req.key]
    && n.key(req.archive) == n.key(rt.origins[req.key]) && n.valid(req.archive) && n.valid(rt.origins[req.key])
  }

  lemma HolderResponds(rt: Rt, disk: Disk, r: Id, n: Naming)
    requires Good(rt, disk, n) && ReqAt(rt, r, Holding)
    ensures AnswersFrom(rt, r, Respond(rt, r), n)
  {
    hide Good, Respond, WholeAndReadable;
    RespondGood(rt, disk, r, n);
    HeldPagesIntact(rt, disk, r, n);
    GoodSound(rt, disk, n);
    HeldOrigin(rt, r, n);
  }

  /** Every response is logged, as an answer from the archive whose commit published the entry it reads. */
  lemma ResponseLogged(s: System, id: Id, r: Id, n: Naming)
    requires SystemInv(s, n) && id in s.runtimes && ReqAt(s.runtimes[id], r, Holding)
    ensures id in Next(s, Local(id, DoRespond(r)), n).runtimes
    ensures AnswersFrom(s.runtimes[id], r, Next(s, Local(id, DoRespond(r)), n).runtimes[id], n)
  {
    hide SystemInv, Good, Respond, Next, Enabled, AnswersFrom;
    MayRespond(s.runtimes[id], s.disk, r, n);
    EnabledIsOpen(s, id, DoRespond(r), n);
    SoundOpen(s, id, n);
    HolderResponds(s.runtimes[id], s.disk, r, n);
    RespondNext(s, id, r, n);
  }

  lemma MayRespond(rt: Rt, disk: Disk, r: Id, n: Naming)
    ensures Enabled(rt, disk, DoRespond(r), n) <==> ReqAt(rt, r, Holding)
  {
  }

  lemma {:induction false} LastPublishedRight(log: seq<Event>, key: Key, n: Naming)
    requires FaithfulLog(log, n) && LastPublished(log, key).Some?
    ensures RightlyPublished(LastPublished(log, key).value, n)
  {
    var most, last := log[..|log| - 1], |log| - 1;
    assert Faithful(log, last, n);
    if !(log[last].Published? && log[last].key == key) {
      PrefixFaithful(log, last, n);
      LastPublishedRight(most, key, n);
    }
  }

  lemma PrefixFaithful(log: seq<Event>, m: nat, n: Naming)
    requires FaithfulLog(log, n) && m <= |log|
    ensures FaithfulLog(log[..m], n)
  {
    forall i: nat | i < m ensures Faithful(log[..m], i, n) {
      assert Faithful(log, i, n);
      assert log[..m][..i] == log[..i];
    }
  }

  /**
   No runtime ever hands out an entry idle for thirty minutes, nor, if its archive came without an
   ETag and Last-Modified, at or after its deadline.
   */
  lemma NeverHandsOutStale(s: System, id: Id, i: nat, n: Naming)
    requires SystemInv(s, n) && id in s.runtimes && i < |s.runtimes[id].log| && s.runtimes[id].log[i].HandedOut?
    ensures var rt := s.runtimes[id];
            var touched, published := LastTouched(rt.log[..i], rt.log[i].key),
              LastPublished(rt.log[..i], rt.log[i].key);
            && touched.Some? && rt.log[i].at < touched.value + 1_800_000_000_000
            && published.Some?
            && var head := published.value.origin.head;
               (head.etag == [] && head.lastModified == [] && published.value.at + rt.cfg.cacheTtl != 0 ==>
                 rt.log[i].at < published.value.at + rt.cfg.cacheTtl)
  {
    hide OnDisk, AtStage, Coherent, Timed, FaithfulLog, Traced, LeftoversAccounted, Ledger;
    assert SoundRuntime(s.runtimes[id], OpenId(s) == Some(id), n);
    assert InTime(s.runtimes[id].log, i, s.runtimes[id].cache.fallbackTtl);
    PrefixFaithful(s.runtimes[id].log, i, n);
    LastPublishedRight(s.runtimes[id].log[..i], s.runtimes[id].log[i].key, n);
  }

  // ----- Configure and Close come to their end -----

  lemma {:induction false} Prepend(s: System, a: Act, rest: seq<Act>, n: Naming)
    requires Allowed(s, a, n) && Legal(Next(s, a, n), rest, n)
    ensures Legal(s, [a] + rest, n) && After(s, [a] + rest, n) == After(Next(s, a, n), rest, n)
    decreases |rest|
  {
    hide Allowed, Next;
    var run := [a] + rest;
    if rest == [] {
      assert run[..0] == [];
    } else {
      assert run[..|run| - 1] == [a] + rest[..|rest| - 1];
      Prepend(s, a, rest[..|rest| - 1], n);
    }
  }

  lemma DrainingRuntime(s: System, n: Naming)
    requires SystemInv(s, n) && s.stage.Draining?
    ensures s.stage.prev in s.runtimes && WaitGroup(s.runtimes[s.stage.prev]) && s.runtimes[s.stage.prev].stopping
  {
    hide OnDisk, JobBooks, Handles, Origins;
    SoundOpen(s, s.stage.prev, n);
  }

  /** From every draining state some run brings the wait group to zero, so that `wg.Wait` returns. */
  lemma {:induction false} DrainCompletes(s: System, n: Naming) returns (run: seq<Act>)
    requires SystemInv(s, n) && Consistent(n) && s.stage.Draining?
    ensures Legal(s, run, n) && After(s, run, n).stage == ClosingCache(s.stage.prev, s.stage.next)
    decreases s.stage.prev in s.runtimes, if s.stage.prev in s.runtimes then Rank(s.runtimes[s.stage.prev]) else 0
  {
    hide SystemInv, Enabled, Step, Rank, Consistent, WaitGroup;
    var id := s.stage.prev;
    DrainingRuntime(s, n);
    if s.runtimes[id].wg == 0 {
      Prepend(s, Drained, [], n);
      run := [Drained] + [];
    } else {
      var a := DrainStep(s.runtimes[id], s.disk, n);
      var s' := Next(s, Local(id, a), n);
      RankNonNegative(s.runtimes[id]);
      RankNonNegative(s'.runtimes[id]);
      NextKeeps(s, Local(id, a), n);
      var rest := DrainCompletes(s', n);
      Prepend(s, Local(id, a), rest, n);
      run := [Local(id, a)] + rest;
    }
  }

  // ----- Every run of a new backend -----

  /** Slot, reservation and cleanup bounds; and no job ends without its result and its closed channel. */
  ghost predicate JobsBounded(rt: Rt) {
    && |rt.cache.pending| + |rt.cache.loans| <= 128
    && (forall i :: i in rt.cache.loans ==>
      rt.slotFull && rt.cache.loans.Keys == {i} && i in rt.work && HoldsSlot(rt.work[i].pc)
      && rt.work[i].key in rt.jobs && rt.jobs[rt.work[i].key] == i)
    && (forall i :: i in rt.done ==> i in rt.results)
    && (forall i :: i in rt.issued ==> i in rt.work || (i in rt.results && i in rt.done))
    && (forall r :: r in rt.requests && rt.requests[r].pc.Waiting? ==> rt.requests[r].pc.job in rt.issued)
  }

  ghost predicate HandlesIntact(rt: Rt, disk: Disk) {
    && (forall k :: k in rt.cache.entries ==> rt.cache.entries[k].active == |Holders(rt.requests, k)|)
    && (forall r :: r in rt.requests && Runtime.Pins(rt.requests[r]) ==>
      rt.requests[r].key in rt.cache.entries && WholeAndReadable(disk, {}, rt.cache.entries[rt.requests[r].key]))
  }

  lemma CoherentJobs(rt: Rt, n: Naming)
    requires Coherent(rt, n)
    ensures JobsBounded(rt)
  {
    hide Handles, Origins, FiledJobs, FiledRequests, OneSlot, JobTable;
    forall i | i in rt.cache.loans
      ensures rt.slotFull && rt.cache.loans.Keys == {i} && rt.work[i].key in rt.jobs && rt.jobs[rt.work[i].key] == i
    {
      OnlyReservation(rt, i, n);
      HeldSlot(rt.work, rt.slotFull, i);
      Listed(rt.work, rt.jobs, i);
    }
    forall r | r in rt.requests && rt.requests[r].pc.Waiting? ensures rt.requests[r].pc.job in rt.issued {
      assert Waiter(rt.requests[r], rt.issued);
    }
  }

  lemma Listed(work: map<Id, Job>, jobs: map<Key, Id>, id: Id)
    requires JobTable(work, jobs) && id in work && InTable(work[id].pc)
    ensures work[id].key in jobs && jobs[work[id].key] == id
  {
  }

  lemma SoundCoherent(s: System, id: Id, n: Naming)
    requires SystemInv(s, n) && id in s.runtimes
    ensures Coherent(s.runtimes[id], n)
  {
    hide Coherent, Logged, OnDisk, AtStage;
    assert SoundRuntime(s.runtimes[id], OpenId(s) == Some(id), n);
  }

  lemma OpenHandlesIntact(rt: Rt, disk: Disk, n: Naming)
    requires Good(rt, disk, n)
    ensures HandlesIntact(rt, disk)
  {
    hide Good, WholeAndReadable, Coherent;
    GoodSound(rt, disk, n);
    forall k | k in rt.cache.entries ensures rt.cache.entries[k].active == |Holders(rt.requests, k)| {
      CountedHandles(rt, n, k);
    }
    forall r | r in rt.requests && Runtime.Pins(rt.requests[r])
      ensures rt.requests[r].key in rt.cache.entries && WholeAndReadable(disk, {}, rt.cache.entries[rt.requests[r].key])
    {
      HeldPagesIntact(rt, disk, r, n);
    }
  }

  /**
   At every state of every run: the books of every runtime add up within its cache size; the runtime
   opened last at its cache directory, open or closed, accounts for the bytes there; a closed
   runtime is quiet; an open one is the only one, is the last at its directory and finds held pages
   whole; `current` is open and not stopping; jobs, slot, reservation and cleanup stay within their
   bounds, every started job runs or has closed its channel, and every waiter waits for one of them.
   */
  lemma EveryRunIsSafe(disk: Disk, run: seq<Act>, n: Naming, id: Id)
    requires Consistent(n) && Legal(Start(disk), run, n) && id in After(Start(disk), run, n).runtimes
    ensures var s := After(Start(disk), run, n);
            var rt := s.runtimes[id];
            && JobsBounded(rt) && Ledger(rt.cache) && rt.cache.usedBytes + rt.cache.reserved <= rt.cfg.cacheSize
            && (rt.cfg.root in s.latest && s.latest[rt.cfg.root] == id ==> WithinBudget(rt, s.disk))
            && (rt.cache.closed ==> Quiet(rt))
            && (!rt.cache.closed ==>
              && rt.cfg.root in s.latest && s.latest[rt.cfg.root] == id && HandlesIntact(rt, s.disk)
              && forall other :: other in s.runtimes && other != id ==> s.runtimes[other].cache.closed)
            && (s.current == Some(id) ==> !rt.stopping && !rt.cache.closed)
  {
    hide SystemInv, After, Legal, Consistent, Coherent, Good, Quiet, JobsBounded, WithinBudget, HandlesIntact, Ledger;
    var s := After(Start(disk), run, n);
    ReachableSound(disk, run, n);
    SoundCoherent(s, id, n);
    CoherentJobs(s.runtimes[id], n);
    BooksWithinBudget(s, id, n);
    if s.runtimes[id].cfg.root in s.latest {
      BytesWithinBudget(s, s.runtimes[id].cfg.root, n);
    }
    if s.runtimes[id].cache.closed {
      ClosedIsQuiet(s, id, n);
    } else {
      OpenLatest(s, id, n);
      OpenIsGood(s, id, n);
      OpenHandlesIntact(s.runtimes[id], s.disk, n);
      OthersClosed(s, id, n);
    }
    if s.current == Some(id) {
      CurrentRuns(s, n);
    }
  }

  lemma OthersClosed(s: System, id: Id, n: Naming)
    requires SystemInv(s, n) && id in s.runtimes && !s.runtimes[id].cache.closed
    ensures forall other :: other in s.runtimes && other != id ==> s.runtimes[other].cache.closed
  {
    hide SystemInv;
    forall other | other in s.runtimes && other != id ensures s.runtimes[other].cache.closed {
      if !s.runtimes[other].cache.closed {
        OneOpenCache(s, id, other, n);
      }
    }
  }

  /** Every answer that any run logs is an answer about the version that was asked for. */
  lemma EveryAnswerIsFaithful(disk: Disk, run: seq<Act>, hash: Text -> Text, id: Id, i: nat)
    requires Legal(Start(disk), run, HashNaming(hash))
    requires var s := After(Start(disk), run, HashNaming(hash));
             && id in s.runtimes && i < |s.runtimes[id].log| && s.runtimes[id].log[i].Served?
             && Distinguished(hash, s.runtimes[id].log[i].asked, s.runtimes[id].log[i].origin)
    ensures var e := After(Start(disk), run, HashNaming(hash)).runtimes[id].log[i];
            SameVersion(e.asked, e.origin)
  {
    hide SystemInv, Legal, Consistent, After;
    HashNamingConsistent(hash);
    ReachableSound(disk, run, HashNaming(hash));
    ServedAsAsked(After(Start(disk), run, HashNaming(hash)), id, i, hash);
  }

  /**
   Every response of every run: it is logged, with the archive whose commit published the entry it
   reads, and that archive is the version that was asked for.
   */
  lemma EveryResponseIsFaithful(disk: Disk, run: seq<Act>, hash: Text -> Text, id: Id, r: Id)
    requires Legal(Start(disk), run, HashNaming(hash))
    requires id in After(Start(disk), run, HashNaming(hash)).runtimes
    requires ReqAt(After(Start(disk), run, HashNaming(hash)).runtimes[id], r, Holding)
    ensures var s := After(Start(disk), run, HashNaming(hash));
            var rt, req := s.runtimes[id], s.runtimes[id].requests[r];
            && id in Next(s, Local(id, DoRespond(r)), HashNaming(hash)).runtimes
            && AnswersFrom(rt, r, Next(s, Local(id, DoRespond(r)), HashNaming(hash)).runtimes[id], HashNaming(hash))
            && (Distinguished(hash, req.archive, rt.origins[req.key]) ==> SameVersion(req.archive, rt.origins[req.key]))
  {
    hide SystemInv, Legal, Consistent, After, Next, SameVersion;
    var s := After(Start(disk), run, HashNaming(hash));
    HashNamingConsistent(hash);
    ReachableSound(disk, run, HashNaming(hash));
    ResponseLogged(s, id, r, HashNaming(hash));
    var req := s.runtimes[id].requests[r];
    if Distinguished(hash, req.archive, s.runtimes[id].origins[req.key]) {
      SameKeySameVersion(hash, req.archive, s.runtimes[id].origins[req.key]);
    }
  }
}
