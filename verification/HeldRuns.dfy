/**
 What a handle and a retirement promise over whole runs of the backend, whoever takes the steps:
 requests, jobs and sweepers, and those who configure, close and open caches.
 */
module HeldRuns {
  import opened Options
  import opened CacheModel
  import opened CacheProofs
  import opened CacheLaws
  import opened Runtime
  import opened RuntimeInvariant
  import opened RuntimeHistory
  import opened HeldEntries
  import opened Lifecycle
  import opened RunHistory

  /** The state of runtime id's cache and of the disk. */
  function CacheOf(s: System, id: Id): World
    requires id in s.runtimes
  {
    WorldOf(s.runtimes[id], s.disk)
  }

  ghost predicate HeldAt(s: System, id: Id, k: Key) {
    id in s.runtimes && HeldIn(s.runtimes[id].cache, k)
  }

  /** Request r of runtime id holds a handle on the entry under k. */
  predicate HoldsHandle(s: System, id: Id, r: Id, k: Key) {
    && id in s.runtimes && r in s.runtimes[id].requests
    && Runtime.Pins(s.runtimes[id].requests[r]) && s.runtimes[id].requests[r].key == k
  }

  lemma HandleHolds(s: System, id: Id, r: Id, k: Key, n: Naming)
    requires SystemInv(s, n) && HoldsHandle(s, id, r, k)
    ensures HeldAt(s, id, k)
  {
    hide JobBooks, Origins, Loans, FiledJobs, FiledRequests, Waiters, Logged, OnDisk, AtStage, LeftoversAccounted,
         Ledger;
    var rt := s.runtimes[id];
    assert SoundRuntime(rt, OpenId(s) == Some(id), n);
    assert r in Holders(rt.requests, k);
  }

  /** An entry under a handle belongs to the runtime whose cache is open, which is not drained. */
  lemma HeldIsOpen(s: System, id: Id, k: Key, n: Naming)
    requires SystemInv(s, n) && HeldAt(s, id, k)
    ensures OpenId(s) == Some(id) && !DrainedRuntime(s.runtimes[id])
  {
    hide OnDisk, Sound, AtStage, LeftoversAccounted, Ledger;
    var rt := s.runtimes[id];
    assert SoundRuntime(rt, OpenId(s) == Some(id), n);
    if DrainedRuntime(rt) {
      DrainedQuiet(rt, n);
    }
  }

  lemma Untouched(w: World, w': World, k: Key)
    requires k in w.cache.entries && w'.cache == w.cache && w'.disk == w.disk
    ensures Undisturbed(w, w', k)
  {
  }

  /** Neither Configure nor Close changes the cache of a runtime with a held entry, nor the disk. */
  lemma BackendStepUntouched(s: System, a: Act, n: Naming, id: Id, k: Key)
    requires SystemInv(s, n) && Allowed(s, a, n) && HeldAt(s, id, k) && !a.Local?
    ensures id in Next(s, a, n).runtimes
    ensures Next(s, a, n).runtimes[id].cache == s.runtimes[id].cache && Next(s, a, n).disk == s.disk
  {
    hide AllSound, LeftoversAccounted, DiskSound, SeekersKnown, Close, ClearRoot;
    HeldIsOpen(s, id, k, n);
  }

  lemma LocalUndisturbed(s: System, actor: Id, a: Action, n: Naming, id: Id, k: Key)
    requires SystemInv(s, n) && Allowed(s, Local(actor, a), n) && HeldAt(s, id, k)
    ensures id in Next(s, Local(actor, a), n).runtimes
    ensures Undisturbed(CacheOf(s, id), CacheOf(Next(s, Local(actor, a), n), id), k)
  {
    hide SystemInv, Enabled, Step, Good, Undisturbed;
    HeldIsOpen(s, id, k, n);
    EnabledIsOpen(s, actor, a, n);
    SoundOpen(s, id, n);
    HeldEntryStays(s.runtimes[id], s.disk, a, n, k);
  }

  /** No step of anybody disturbs an entry under a handle. */
  lemma HeldUndisturbed(s: System, a: Act, n: Naming, id: Id, k: Key)
    requires SystemInv(s, n) && Allowed(s, a, n) && HeldAt(s, id, k)
    ensures id in Next(s, a, n).runtimes && Undisturbed(CacheOf(s, id), CacheOf(Next(s, a, n), id), k)
  {
    hide SystemInv, Next, Allowed, Undisturbed;
    if a.Local? {
      LocalUndisturbed(s, a.id, a.a, n, id, k);
    } else {
      BackendStepUntouched(s, a, n, id, k);
      Untouched(CacheOf(s, id), CacheOf(Next(s, a, n), id), k);
    }
  }

  /** As long as an entry stays held, no run of the backend disturbs it. */
  lemma {:induction false} HeldThroughRun(s: System, run: seq<Act>, n: Naming, id: Id, k: Key)
    requires SystemInv(s, n) && Consistent(n) && Legal(s, run, n)
    requires forall m :: 0 <= m <= |run| ==> HeldAt(After(s, run[..m], n), id, k)
    ensures HeldAt(s, id, k) && HeldAt(After(s, run, n), id, k)
    ensures Undisturbed(CacheOf(s, id), CacheOf(After(s, run, n), id), k)
    decreases |run|
  {
    hide SystemInv, Next, Allowed, Consistent, Undisturbed, HeldAt;
    assert run[..0] == [] && run[..|run|] == run;
    HeldKnown(s, id, k);
    if run == [] {
      Untouched(CacheOf(s, id), CacheOf(s, id), k);
    } else {
      var most, last := run[..|run| - 1], run[|run| - 1];
      forall m | 0 <= m <= |most| ensures HeldAt(After(s, most[..m], n), id, k) {
        assert most[..m] == run[..m];
      }
      HeldThroughRun(s, most, n, id, k);
      var s' := After(s, most, n);
      RunKeeps(s, most, n);
      HeldKnown(s', id, k);
      HeldUndisturbed(s', last, n, id, k);
      UndisturbedTransitive(CacheOf(s, id), CacheOf(s', id), CacheOf(Next(s', last, n), id), k);
    }
  }

  lemma HeldKnown(s: System, id: Id, k: Key)
    requires HeldAt(s, id, k)
    ensures id in s.runtimes && k in s.runtimes[id].cache.entries
  {
  }

  /**
   From the state in which a request holds a handle to its release, through every run of the
   backend, its entry keeps directory, pages, total, deadline and files, and its pages are whole.
   */
  lemma HandleProtects(s: System, run: seq<Act>, n: Naming, id: Id, r: Id, k: Key)
    requires SystemInv(s, n) && Consistent(n) && Legal(s, run, n)
    requires forall m :: 0 <= m <= |run| ==> HoldsHandle(After(s, run[..m], n), id, r, k)
    ensures HeldAt(s, id, k) && HeldAt(After(s, run, n), id, k)
    ensures Undisturbed(CacheOf(s, id), CacheOf(After(s, run, n), id), k)
    ensures WholeAndReadable(After(s, run, n).disk, {}, After(s, run, n).runtimes[id].cache.entries[k])
  {
    hide SystemInv, Consistent, Undisturbed, HeldAt, HoldsHandle, After, Legal, WholeAndReadable;
    forall m | 0 <= m <= |run| ensures HeldAt(After(s, run[..m], n), id, k) {
      PrefixLegal(s, run, n, m);
      RunKeeps(s, run[..m], n);
      HandleHolds(After(s, run[..m], n), id, r, k, n);
    }
    HeldThroughRun(s, run, n, id, k);
    RunKeeps(s, run, n);
    HeldPages(After(s, run, n), id, k, n);
  }

  lemma HeldPages(s: System, id: Id, k: Key, n: Naming)
    requires SystemInv(s, n) && HeldAt(s, id, k)
    ensures WholeAndReadable(s.disk, {}, s.runtimes[id].cache.entries[k])
  {
    hide Sound, Ledger, Covered, FreshDirs, DirsThere, JobPlaces, PagesOnDisk, AtStage, LeftoversAccounted;
    HeldIsOpen(s, id, k, n);
    assert PinnedIntact(CacheOf(s, id));
    WholeMeans(s.disk, {}, s.runtimes[id].cache.entries[k]);
  }

  lemma {:induction false} PrefixLegal(s: System, run: seq<Act>, n: Naming, m: nat)
    requires Legal(s, run, n) && m <= |run|
    ensures Legal(s, run[..m], n)
    decreases |run|
  {
    hide Allowed, Next;
    if m == |run| {
      assert run[..m] == run;
    } else {
      assert run[..|run| - 1][..m] == run[..m];
      PrefixLegal(s, run[..|run| - 1], n, m);
    }
  }

  // ----- Retirement -----

  lemma SameRetired(rt: Rt, rt': Rt, k: Key)
    requires NotLive(rt.cache, k) && NotLive(rt'.cache, k) && rt'.log == rt.log
    ensures StaysRetired(rt, rt', k)
  {
    assert rt'.log[|rt.log|..] == [];
  }

  lemma {:induction false} EvictNotLive(w: World, victims: seq<Key>, faults: Faults, k: Key)
    requires Ledger(w.cache) && NotLive(w.cache, k)
    ensures NotLive(Evict(w, victims, faults).cache, k)
  {
    EvictCalm(w, victims, faults);
    CalmNotLive(w, Evict(w, victims, faults), k);
  }

  lemma CloseNotLive(w: World, ranges: Ranges, faults: Faults, k: Key)
    requires Ledger(w.cache) && NotLive(w.cache, k)
    ensures NotLive(Close(w, ranges, faults).cache, k)
  {
    hide Calm, Ledger, Evict, RetryPending;
    if !w.cache.closed {
      var w1 := Evict(w, ranges.entries, faults);
      EvictCalm(w, ranges.entries, faults);
      EvictNotLive(w, ranges.entries, faults, k);
      RetryPendingCalm(w1, ranges.pending, faults);
      CalmNotLive(w1, RetryPending(w1, ranges.pending, faults), k);
    }
  }

  lemma KnownLedger(s: System, id: Id, n: Naming)
    requires SystemInv(s, n) && id in s.runtimes
    ensures Ledger(s.runtimes[id].cache)
  {
    hide Sound, OnDisk, AtStage, LeftoversAccounted, Ledger;
    assert SoundRuntime(s.runtimes[id], OpenId(s) == Some(id), n);
  }

  lemma BackendStepRetired(s: System, a: Act, n: Naming, id: Id, k: Key)
    requires SystemInv(s, n) && Allowed(s, a, n) && id in s.runtimes && NotLive(s.runtimes[id].cache, k) && !a.Local?
    ensures id in Next(s, a, n).runtimes && StaysRetired(s.runtimes[id], Next(s, a, n).runtimes[id], k)
  {
    hide SystemInv, Close, ClearRoot, Ledger, StaysRetired, NotLive, PartlyCleared;
    KnownLedger(s, id, n);
    if a.CloseCache? {
      CloseNotLive(WorldOf(s.runtimes[id], s.disk), a.ranges, a.faults, k);
    }
    AdmitSameCache(s, a);
    SameRetired(s.runtimes[id], Next(s, a, n).runtimes[id], k);
  }

  lemma AdmitSameCache(s: System, a: Act)
    ensures a.AdmitSeeker? && a.s in s.seekers && s.seekers[a.s] in s.runtimes ==>
              var rt := s.runtimes[s.seekers[a.s]];
              Admit(rt, a.r, a.blank).cache == rt.cache && Admit(rt, a.r, a.blank).log == rt.log
  {
  }

  lemma LocalRetired(s: System, actor: Id, a: Action, n: Naming, id: Id, k: Key)
    requires SystemInv(s, n) && Allowed(s, Local(actor, a), n) && id in s.runtimes && NotLive(s.runtimes[id].cache, k)
    ensures id in Next(s, Local(actor, a), n).runtimes
    ensures StaysRetired(s.runtimes[id], Next(s, Local(actor, a), n).runtimes[id], k)
  {
    hide SystemInv, Enabled, Step, Good, StaysRetired, NotLive;
    if actor == id {
      EnabledIsOpen(s, id, a, n);
      SoundOpen(s, id, n);
      RetiredEntryStays(s.runtimes[id], s.disk, a, n, k);
    } else {
      SameRetired(s.runtimes[id], s.runtimes[id], k);
    }
  }

  lemma StepRetired(s: System, a: Act, n: Naming, id: Id, k: Key)
    requires SystemInv(s, n) && Allowed(s, a, n) && id in s.runtimes && NotLive(s.runtimes[id].cache, k)
    ensures id in Next(s, a, n).runtimes && StaysRetired(s.runtimes[id], Next(s, a, n).runtimes[id], k)
  {
    hide SystemInv, Next, Allowed, StaysRetired, NotLive;
    if a.Local? {
      LocalRetired(s, a.id, a.a, n, id, k);
    } else {
      BackendStepRetired(s, a, n, id, k);
    }
  }

  lemma SuffixParts(log: seq<Event>, log': seq<Event>, log'': seq<Event>)
    requires |log| <= |log'| <= |log''| && log'[..|log|] == log && log''[..|log'|] == log'
    ensures log''[|log|..] == log'[|log|..] + log''[|log'|..] && log''[..|log|] == log
  {
    assert log''[..|log|] == log''[..|log'|][..|log|];
  }

  lemma UnpublishedParts(log: seq<Event>, log': seq<Event>, k: Key)
    ensures Unpublished(log + log', k) <==> Unpublished(log, k) && Unpublished(log', k)
    ensures NotHandedOut(log + log', k) <==> NotHandedOut(log, k) && NotHandedOut(log', k)
  {
    var both := log + log';
    assert forall i :: 0 <= i < |log| ==> both[i] == log[i];
    assert forall i :: 0 <= i < |log'| ==> both[|log| + i] == log'[i];
  }

  lemma RetiredTransitive(rt: Rt, rt': Rt, rt'': Rt, k: Key)
    requires StaysRetired(rt, rt', k) && (NotLive(rt'.cache, k) ==> StaysRetired(rt', rt'', k)) && Remembers(rt', rt'')
    ensures StaysRetired(rt, rt'', k)
  {
    hide Unpublished, NotHandedOut, NotLive;
    SuffixParts(rt.log, rt'.log, rt''.log);
    UnpublishedParts(rt'.log[|rt.log|..], rt''.log[|rt'.log|..], k);
  }

  /**
   Retirement is permanent: through every run, an entry that is retired, held or not, stays retired
   or goes away, and its key is not handed out again before a new publication.
   */
  lemma {:induction false} RetiredForGood(s: System, run: seq<Act>, n: Naming, id: Id, k: Key)
    requires SystemInv(s, n) && Consistent(n) && Legal(s, run, n)
    requires id in s.runtimes && NotLive(s.runtimes[id].cache, k)
    ensures id in After(s, run, n).runtimes && StaysRetired(s.runtimes[id], After(s, run, n).runtimes[id], k)
    decreases |run|
  {
    hide SystemInv, Next, Allowed, Consistent, StaysRetired, NotLive, Remembers;
    if run == [] {
      SameRetired(s.runtimes[id], s.runtimes[id], k);
    } else {
      var most, last := run[..|run| - 1], run[|run| - 1];
      var s' := After(s, most, n);
      RetiredForGood(s, most, n, id, k);
      RunKeeps(s, most, n);
      NextRemembers(s', last, n, id);
      if NotLive(s'.runtimes[id].cache, k) {
        StepRetired(s', last, n, id, k);
      }
      RetiredTransitive(s.runtimes[id], s'.runtimes[id], Next(s', last, n).runtimes[id], k);
    }
  }
}
