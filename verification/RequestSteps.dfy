/** The steps of request handlers and of the sweeper keep the invariant of the runtime. */
module RequestSteps {
  import opened CacheModel
  import opened CacheProofs
  import opened CacheOperations
  import opened Runtime
  import opened RuntimeInvariant

  // ----- Sizes -----

  lemma SubmapSize<K, V>(m: map<K, V>, n: map<K, V>)
    requires m.Keys <= n.Keys
    ensures |m| <= |n|
  {
    SubsetSize(m.Keys, n.Keys);
  }

  lemma {:induction false} SubsetSize<T>(s: set<T>, t: set<T>)
    requires s <= t
    ensures |s| <= |t|
    decreases s
  {
    if s != {} {
      var x :| x in s;
      SubsetSize(s - {x}, t - {x});
    }
  }

  lemma RemovedSize<K, V>(m: map<K, V>, k: K)
    requires k in m
    ensures |m - {k}| == |m| - 1
  {
    assert (m - {k}).Keys == m.Keys - {k};
  }

  // ----- A cache step that only takes away -----

  lemma CalmHandles(requests: map<Id, Req>, w: World, w': World)
    requires Handles(requests, w.cache.entries) && Calm(w, w')
    ensures Handles(requests, w'.cache.entries)
  {
    var entries, entries' := w.cache.entries, w'.cache.entries;
    forall k | k in entries' ensures entries'[k].active == |Holders(requests, k)| {
      assert SameOrRetired(entries[k], entries'[k]);
    }
    forall r | r in requests && Runtime.Pins(requests[r]) ensures requests[r].key in entries' {
      assert r in Holders(requests, requests[r].key);
    }
  }

  lemma CalmTimed(log: seq<Event>, w: World, w': World)
    requires Timed(log, w.cache) && Calm(w, w')
    ensures Timed(log, w'.cache)
  {
    forall k | k in w'.cache.entries ensures TimedEntry(log, w'.cache, k, w'.cache.entries[k]) {
      assert TimedEntry(log, w.cache, k, w.cache.entries[k]);
      assert SameOrRetired(w.cache.entries[k], w'.cache.entries[k]);
    }
  }

  lemma CalmTraced(log: seq<Event>, w: World, w': World, origins: map<Key, Version>)
    requires Traced(log, w.cache.entries.Keys, origins) && Calm(w, w')
    ensures Traced(log, w'.cache.entries.Keys, origins)
  {
  }

  lemma CalmOnDisk(rt: Rt, disk: Disk, w': World)
    requires OnDisk(rt, disk) && Calm(WorldOf(rt, disk), w') && Ledger(w'.cache)
    ensures OnDisk(rt.(cache := w'.cache), w'.disk)
  {
    hide Ledger, Covered, PinnedIntact, Calm, DirsThere, JobPlaces;
    CalmKeeps(WorldOf(rt, disk), w');
    CalmDirs(WorldOf(rt, disk), w');
    CalmPlaces(rt.cfg, rt.work, WorldOf(rt, disk), w');
  }

  /** The directory of a reservation is not one that a deletion may touch. */
  lemma LentStays(w: World, w': World, i: Id)
    requires DirsThere(w.cache, w.disk) && FreshDirs(w.cache) && Calm(w, w')
    requires i in w.cache.loans && w.cache.loans[i].dir.Some?
    ensures DirThere(w'.cache, w'.disk, w.cache.loans[i].dir.value)
    ensures w'.disk[w.cache.loans[i].dir.value] == w.disk[w.cache.loans[i].dir.value]
  {
    assert DirThere(w.cache, w.disk, w.cache.loans[i].dir.value);
    assert !Exposed(w.cache, w.cache.loans[i].dir.value);
  }

  lemma CalmDirs(w: World, w': World)
    requires DirsThere(w.cache, w.disk) && FreshDirs(w.cache) && Calm(w, w')
    ensures DirsThere(w'.cache, w'.disk)
  {
    forall p | p in w'.cache.pending ensures DirThere(w'.cache, w'.disk, p) {
      assert DirThere(w.cache, w.disk, p);
    }
    forall i | i in w'.cache.loans && w'.cache.loans[i].dir.Some?
      ensures DirThere(w'.cache, w'.disk, w'.cache.loans[i].dir.value) {
      LentStays(w, w', i);
    }
  }

  lemma CalmPlaces(cfg: Config, work: map<Id, Job>, w: World, w': World)
    requires JobPlaces(cfg, work, w.cache, w.disk) && DirsThere(w.cache, w.disk) && FreshDirs(w.cache) && Calm(w, w')
    ensures JobPlaces(cfg, work, w'.cache, w'.disk)
  {
    hide DirsThere, FreshDirs;
    forall i | i in work && i in w'.cache.loans
      ensures JobPlace(cfg, work[i].pc, work[i].archive, w'.cache.loans[i], w'.disk)
    {
      assert JobPlace(cfg, work[i].pc, work[i].archive, w.cache.loans[i], w.disk);
      if w.cache.loans[i].dir.Some? {
        LentStays(w, w', i);
      }
    }
  }

  lemma CalmCoherent(rt: Rt, disk: Disk, w': World, n: Naming)
    requires Coherent(rt, n) && Calm(WorldOf(rt, disk), w')
    ensures Coherent(rt.(cache := w'.cache), n)
  {
    CalmHandles(rt.requests, WorldOf(rt, disk), w');
    SubmapSize(w'.cache.pending, rt.cache.pending);
  }

  /** Sweeps, evictions and failed lookups. */
  lemma CalmGood(rt: Rt, disk: Disk, w': World, n: Naming)
    requires Good(rt, disk, n) && Calm(WorldOf(rt, disk), w') && Ledger(w'.cache)
    ensures Good(rt.(cache := w'.cache), w'.disk, n)
  {
    CalmOnDisk(rt, disk, w');
    CalmCoherent(rt, disk, w', n);
    CalmTimed(rt.log, WorldOf(rt, disk), w');
    CalmTraced(rt.log, WorldOf(rt, disk), w', rt.origins);
  }

  // ----- Requests that move without touching a handle -----

  lemma HoldersMoved(requests: map<Id, Req>, r: Id, req: Req, key: Key)
    ensures Holders(requests[r := req], key) ==
            if Runtime.Pins(req) && req.key == key then Holders(requests, key) + {r} else Holders(requests, key) - {r}
  {
  }

  lemma UnpinnedMoveHandles(requests: map<Id, Req>, r: Id, req: Req, entries: map<Key, Entry>)
    requires Handles(requests, entries) && !Runtime.Pins(req) && (r in requests ==> !Runtime.Pins(requests[r]))
    ensures Handles(requests[r := req], entries)
  {
    forall k | k in entries ensures entries[k].active == |Holders(requests[r := req], k)| {
      HoldersMoved(requests, r, req, k);
      assert Holders(requests, k) - {r} == Holders(requests, k);
    }
  }

  lemma FiledMove(requests: map<Id, Req>, r: Id, req: Req, n: Naming)
    requires FiledRequests(requests, n) && FiledRequest(req, n)
    ensures FiledRequests(requests[r := req], n)
  {
    var requests' := requests[r := req];
    forall q | q in requests' ensures FiledRequest(requests'[q], n) {
      assert q != r ==> FiledRequest(requests[q], n);
    }
  }

  lemma WaitersMove(requests: map<Id, Req>, r: Id, req: Req, issued: set<Id>)
    requires Waiters(requests, issued) && Waiter(req, issued)
    ensures Waiters(requests[r := req], issued)
  {
    var requests' := requests[r := req];
    forall q | q in requests' ensures Waiter(requests'[q], issued) {
      assert q != r ==> Waiter(requests[q], issued);
    }
  }

  /** Replacing a request that holds no handle by one that holds none. */
  lemma ReplacedCoherent(rt: Rt, r: Id, req: Req, n: Naming)
    requires Coherent(rt, n) && r in rt.requests && !Runtime.Pins(rt.requests[r])
    requires !Runtime.Pins(req) && FiledRequest(req, n) && Waiter(req, rt.issued)
    ensures Coherent(rt.(requests := rt.requests[r := req]), n)
  {
    UnpinnedMoveHandles(rt.requests, r, req, rt.cache.entries);
    FiledMove(rt.requests, r, req, n);
    WaitersMove(rt.requests, r, req, rt.issued);
  }

  /** A request without a handle goes elsewhere without getting one. */
  lemma MoveGood(rt: Rt, disk: Disk, r: Id, pc: ReqPc, n: Naming)
    requires Good(rt, disk, n) && r in rt.requests && !Runtime.Pins(rt.requests[r])
    requires pc != Holding && pc != Responded && (pc.Waiting? ==> pc.job in rt.issued)
    requires pc == Leaving || (rt.requests[r].pc != Admitted && rt.requests[r].pc != Leaving)
    ensures Good(Move(rt, r, pc), disk, n)
  {
    assert FiledRequest(rt.requests[r], n);
    ReplacedCoherent(rt, r, rt.requests[r].(pc := pc), n);
  }

  lemma AuthorizeGood(rt: Rt, disk: Disk, r: Id, archive: Version, keyGiven: bool, n: Naming)
    requires Good(rt, disk, n) && MayAuthorize(rt, r, archive, n)
    ensures Good(Authorize(rt, r, archive, keyGiven, n), disk, n)
  {
    ReplacedCoherent(rt, r, Req(archive, n.key(archive), keyGiven, Authorized), n);
  }

  lemma AdmitGood(rt: Rt, disk: Disk, r: Id, blank: Req, n: Naming)
    requires Good(rt, disk, n) && r !in rt.requests
    ensures Good(Admit(rt, r, blank), disk, n)
  {
    UnpinnedMoveHandles(rt.requests, r, blank.(pc := Admitted), rt.cache.entries);
    FiledMove(rt.requests, r, blank.(pc := Admitted), n);
    WaitersMove(rt.requests, r, blank.(pc := Admitted), rt.issued);
  }

  lemma LeaveHandles(requests: map<Id, Req>, r: Id, entries: map<Key, Entry>)
    requires Handles(requests, entries) && (r in requests ==> !Runtime.Pins(requests[r]))
    ensures Handles(requests - {r}, entries)
  {
    forall k | k in entries ensures entries[k].active == |Holders(requests - {r}, k)| {
      assert Holders(requests - {r}, k) == Holders(requests, k);
    }
  }

  lemma LeaveGood(rt: Rt, disk: Disk, r: Id, n: Naming)
    requires Good(rt, disk, n) && ReqAt(rt, r, Leaving)
    ensures Good(Leave(rt, r), disk, n)
  {
    hide JobBooks, Handles, Origins, FiledRequests, FiledJobs, Loans, Waiters, Logged, OnDisk;
    RemovedSize(rt.requests, r);
    LeaveHandles(rt.requests, r, rt.cache.entries);
    LeaveFiled(rt.requests, r, rt.issued, n);
    SameOnDisk(rt, Leave(rt, r), disk);
    SameLogged(rt, Leave(rt, r), n);
  }

  lemma LeaveFiled(requests: map<Id, Req>, r: Id, issued: set<Id>, n: Naming)
    requires FiledRequests(requests, n) && Waiters(requests, issued)
    ensures FiledRequests(requests - {r}, n) && Waiters(requests - {r}, issued)
  {
  }

  /** The disk side of the invariant is about configuration, jobs and cache. */
  lemma SameOnDisk(rt: Rt, rt': Rt, disk: Disk)
    requires OnDisk(rt, disk) && rt'.cfg == rt.cfg && rt'.work == rt.work && rt'.cache == rt.cache
    ensures OnDisk(rt', disk)
  {
    hide Inv, DirsThere, JobPlaces;
  }

  lemma SameLogged(rt: Rt, rt': Rt, n: Naming)
    requires Logged(rt, n) && rt'.log == rt.log && rt'.origins == rt.origins && rt'.cache == rt.cache
    ensures Logged(rt', n)
  {
    hide FaithfulLog, Traced, Timed, NeverStale;
  }

  // ----- The log -----

  lemma LogGrows(log: seq<Event>, e: Event, ttl: int)
    requires NeverStale(log, ttl) && InTime(log + [e], |log|, ttl)
    ensures NeverStale(log + [e], ttl)
  {
    forall i: nat | i < |log| + 1 ensures InTime(log + [e], i, ttl) {
      if i < |log| {
        assert InTime(log, i, ttl);
        assert (log + [e])[..i] == log[..i];
      }
    }
  }

  lemma FaithfulGrows(log: seq<Event>, e: Event, n: Naming)
    requires FaithfulLog(log, n) && Faithful(log + [e], |log|, n)
    ensures FaithfulLog(log + [e], n)
  {
    forall i: nat | i < |log| + 1 ensures Faithful(log + [e], i, n) {
      if i < |log| {
        assert Faithful(log, i, n);
        assert (log + [e])[..i] == log[..i];
      }
    }
  }

  /** Hand-outs and answers publish nothing. */
  lemma TracedGrows(log: seq<Event>, e: Event, keys: set<Key>, origins: map<Key, Version>)
    requires Traced(log, keys, origins) && !e.Published?
    ensures Traced(log + [e], keys, origins)
  {
    assert (log + [e])[..|log|] == log;
    forall k | k in keys ensures TracedKey(log + [e], k, origins) {
      assert TracedKey(log, k, origins);
    }
  }

  lemma ServedFaithful(log: seq<Event>, asked: Version, key: Key, origins: map<Key, Version>, n: Naming)
    requires TracedKey(log, key, origins) && n.key(asked) == key && n.valid(asked)
    requires n.key(origins[key]) == key && n.valid(origins[key])
    ensures Faithful(log + [Served(asked, origins[key])], |log|, n)
  {
    assert (log + [Served(asked, origins[key])])[..|log|] == log;
  }

  lemma ServedTimed(log: seq<Event>, e: Event, c: Cache)
    requires Timed(log, c) && NeverStale(log, c.fallbackTtl) && e.Served?
    ensures Timed(log + [e], c) && NeverStale(log + [e], c.fallbackTtl)
  {
    assert (log + [e])[..|log|] == log;
    forall k | k in c.entries ensures TimedEntry(log + [e], c, k, c.entries[k]) {
      assert TimedEntry(log, c, k, c.entries[k]);
    }
    LogGrows(log, e, c.fallbackTtl);
  }

  // ----- Lookup -----

  lemma PinnedMoveHandles(requests: map<Id, Req>, r: Id, req: Req, entries: map<Key, Entry>, e: Entry)
    requires Handles(requests, entries) && r in requests && !Runtime.Pins(requests[r])
    requires Runtime.Pins(req) && req.key in entries && e.active == entries[req.key].active + 1
    ensures Handles(requests[r := req], entries[req.key := e])
  {
    var requests', entries' := requests[r := req], entries[req.key := e];
    forall k | k in entries' ensures entries'[k].active == |Holders(requests', k)| {
      HoldersMoved(requests, r, req, k);
      assert Holders(requests, k) - {r} == Holders(requests, k);
    }
  }

  /** The event of a successful lookup is in time. */
  lemma HandOutInTime(log: seq<Event>, c: Cache, key: Key, now: int)
    requires Timed(log, c) && NeverStale(log, c.fallbackTtl) && key in c.entries && !Expired(c.entries[key], now)
    ensures NeverStale(log + [HandedOut(key, now)], c.fallbackTtl)
  {
    var e := HandedOut(key, now);
    assert TimedEntry(log, c, key, c.entries[key]);
    assert (log + [e])[..|log|] == log;
    assert InTime(log + [e], |log|, c.fallbackTtl);
    LogGrows(log, e, c.fallbackTtl);
  }

  function HandedOutEntry(e: Entry, now: int): Entry {
    e.(active := e.active + 1, lastUsed := now)
  }

  lemma HandOutTimed(log: seq<Event>, c: Cache, key: Key, now: int)
    requires Timed(log, c) && key in c.entries
    ensures Timed(log + [HandedOut(key, now)], c.(entries := c.entries[key := HandedOutEntry(c.entries[key], now)]))
  {
    var log', c' := log + [HandedOut(key, now)], c.(entries := c.entries[key := HandedOutEntry(c.entries[key], now)]);
    assert log'[..|log|] == log;
    forall k | k in c'.entries ensures TimedEntry(log', c', k, c'.entries[k]) {
      assert TimedEntry(log, c, k, c.entries[k]);
    }
  }

  /** The runtime after a hit. */
  function Hit(rt: Rt, r: Id, now: int): Rt
    requires r in rt.requests && rt.requests[r].key in rt.cache.entries
  {
    var key := rt.requests[r].key;
    Move(rt, r, Holding).(
      cache := rt.cache.(entries := rt.cache.entries[key := HandedOutEntry(rt.cache.entries[key], now)]),
      log := rt.log + [HandedOut(key, now)])
  }

  /** Only requests and handle counts changed. */
  lemma Reassembled(rt: Rt, rt': Rt, n: Naming)
    requires Coherent(rt, n)
    requires rt'.(requests := rt.requests, cache := rt.cache, log := rt.log) == rt
    requires rt'.cache.(entries := rt.cache.entries) == rt.cache && rt'.cache.entries.Keys == rt.cache.entries.Keys
    requires |rt'.requests| == |rt.requests|
    requires Handles(rt'.requests, rt'.cache.entries) && FiledRequests(rt'.requests, n)
             && Waiters(rt'.requests, rt'.issued)
    ensures Coherent(rt', n)
  {
    hide JobBooks, Handles, Origins, FiledRequests, FiledJobs, Waiters, Loans;
  }

  lemma HitRequests(rt: Rt, r: Id, e: Entry, n: Naming)
    requires Coherent(rt, n) && MayLookup(rt, r) && rt.requests[r].key in rt.cache.entries
    requires e.active == rt.cache.entries[rt.requests[r].key].active + 1
    ensures var requests' := rt.requests[r := rt.requests[r].(pc := Holding)];
            && |requests'| == |rt.requests| && FiledRequests(requests', n) && Waiters(requests', rt.issued)
            && Handles(requests', rt.cache.entries[rt.requests[r].key := e])
  {
    var req := rt.requests[r];
    assert FiledRequest(req, n);
    PinnedMoveHandles(rt.requests, r, req.(pc := Holding), rt.cache.entries, e);
    FiledMove(rt.requests, r, req.(pc := Holding), n);
    WaitersMove(rt.requests, r, req.(pc := Holding), rt.issued);
  }

  lemma HitCoherent(rt: Rt, r: Id, now: int, n: Naming)
    requires Coherent(rt, n) && MayLookup(rt, r) && rt.requests[r].key in rt.cache.entries
    ensures Coherent(Hit(rt, r, now), n)
  {
    HitRequests(rt, r, HandedOutEntry(rt.cache.entries[rt.requests[r].key], now), n);
    Reassembled(rt, Hit(rt, r, now), n);
  }

  lemma HandOutFaithful(log: seq<Event>, key: Key, now: int, n: Naming)
    requires FaithfulLog(log, n)
    ensures FaithfulLog(log + [HandedOut(key, now)], n)
  {
    FaithfulGrows(log, HandedOut(key, now), n);
  }

  lemma HitLogged(rt: Rt, r: Id, now: int, n: Naming)
    requires Logged(rt, n) && r in rt.requests && rt.requests[r].key in rt.cache.entries
    requires !Expired(rt.cache.entries[rt.requests[r].key], now)
    ensures Logged(Hit(rt, r, now), n)
  {
    hide Faithful, TracedKey, TimedEntry;
    var key := rt.requests[r].key;
    HandOutInTime(rt.log, rt.cache, key, now);
    HandOutTimed(rt.log, rt.cache, key, now);
    HandOutFaithful(rt.log, key, now, n);
    TracedGrows(rt.log, HandedOut(key, now), rt.cache.entries.Keys, rt.origins);
    assert Hit(rt, r, now).cache.entries.Keys == rt.cache.entries.Keys;
  }

  /** Directories and reservations do not depend on handle counts. */
  lemma EntryUpdateOnDisk(c: Cache, c': Cache, cfg: Config, work: map<Id, Job>, disk: Disk)
    requires DirsThere(c, disk) && JobPlaces(cfg, work, c, disk)
    requires c'.loans == c.loans && c'.pending == c.pending && c'.root == c.root
    ensures DirsThere(c', disk) && JobPlaces(cfg, work, c', disk)
  {
    forall p | p in c'.pending ensures DirThere(c', disk, p) {
      assert DirThere(c, disk, p);
    }
    forall i | i in c'.loans && c'.loans[i].dir.Some? ensures DirThere(c', disk, c'.loans[i].dir.value) {
      assert DirThere(c, disk, c.loans[i].dir.value);
    }
  }

  lemma HitShape(rt: Rt, disk: Disk, r: Id, now: int, unreadable: Unreadable, faults: Faults)
    requires r in rt.requests && Lookup(WorldOf(rt, disk), rt.requests[r].key, now, unreadable, faults).1
    ensures rt.requests[r].key in rt.cache.entries && !Expired(rt.cache.entries[rt.requests[r].key], now)
    ensures LookupStep(rt, disk, r, now, unreadable, faults) == (Hit(rt, r, now), disk)
  {
    hide PagesOnDisk, Expired, Remove;
  }

  lemma HitOnDisk(rt: Rt, disk: Disk, r: Id, now: int, unreadable: Unreadable, faults: Faults)
    requires OnDisk(rt, disk) && r in rt.requests && rt.requests[r].key in rt.cache.entries
    requires Lookup(WorldOf(rt, disk), rt.requests[r].key, now, unreadable, faults).1
    ensures OnDisk(Hit(rt, r, now), disk)
  {
    hide PagesOnDisk, Expired, Remove, Inv, DirsThere, JobPlaces;
    LookupKeeps(WorldOf(rt, disk), rt.requests[r].key, now, unreadable, faults);
    EntryUpdateOnDisk(rt.cache, Hit(rt, r, now).cache, rt.cfg, rt.work, disk);
  }

  lemma HitGood(rt: Rt, disk: Disk, r: Id, now: int, unreadable: Unreadable, faults: Faults, n: Naming)
    requires Good(rt, disk, n) && MayLookup(rt, r)
    requires Lookup(WorldOf(rt, disk), rt.requests[r].key, now, unreadable, faults).1
    ensures LookupStep(rt, disk, r, now, unreadable, faults) == (Hit(rt, r, now), disk)
    ensures Good(Hit(rt, r, now), disk, n)
  {
    hide Coherent, Logged, OnDisk, Lookup, LookupStep, Hit;
    HitShape(rt, disk, r, now, unreadable, faults);
    HitCoherent(rt, r, now, n);
    HitLogged(rt, r, now, n);
    HitOnDisk(rt, disk, r, now, unreadable, faults);
  }

  /** A request that moves after a step that only took away. */
  lemma CalmMoveGood(rt: Rt, disk: Disk, w': World, r: Id, pc: ReqPc, n: Naming)
    requires Good(rt, disk, n) && Calm(WorldOf(rt, disk), w') && Ledger(w'.cache)
    requires r in rt.requests && !Runtime.Pins(rt.requests[r]) && pc != Holding && pc != Responded
    requires pc.Waiting? ==> pc.job in rt.issued
    requires pc == Leaving || (rt.requests[r].pc != Admitted && rt.requests[r].pc != Leaving)
    ensures Good(Move(rt, r, pc).(cache := w'.cache), w'.disk, n)
  {
    hide Good, Calm, Ledger;
    CalmGood(rt, disk, w', n);
    MoveGood(rt.(cache := w'.cache), w'.disk, r, pc, n);
  }

  lemma MissCalm(w: World, key: Key, now: int, unreadable: Unreadable, faults: Faults)
    requires Ledger(w.cache) && !Lookup(w, key, now, unreadable, faults).1
    ensures Calm(w, Lookup(w, key, now, unreadable, faults).0)
            && Ledger(Lookup(w, key, now, unreadable, faults).0.cache)
  {
    CalmRefl(w);
    RemoveCalm(w, key, faults);
  }

  /** A lookup is a hit, or a step that only takes away followed by a move. */
  lemma LookupCases(rt: Rt, disk: Disk, r: Id, now: int, unreadable: Unreadable, faults: Faults)
    returns (hit: bool, w': World, pc: ReqPc)
    requires Inv(WorldOf(rt, disk)) && MayLookup(rt, r)
    ensures hit == Lookup(WorldOf(rt, disk), rt.requests[r].key, now, unreadable, faults).1
    ensures !hit ==>
              && Calm(WorldOf(rt, disk), w') && Ledger(w'.cache)
              && (pc == Leaving || (pc == Missed && rt.requests[r].pc == Authorized))
              && LookupStep(rt, disk, r, now, unreadable, faults) == (Move(rt, r, pc).(cache := w'.cache), w'.disk)
  {
    hide Covered, PinnedIntact, FreshDirs, Ledger, Calm, PagesOnDisk, Remove;
    var req := rt.requests[r];
    pc := if req.pc == Authorized && !req.keyGiven then Missed else Leaving;
    w', hit := Lookup(WorldOf(rt, disk), req.key, now, unreadable, faults).0,
        Lookup(WorldOf(rt, disk), req.key, now, unreadable, faults).1;
    if !hit {
      MissCalm(WorldOf(rt, disk), req.key, now, unreadable, faults);
    }
  }

  lemma LookupGood(rt: Rt, disk: Disk, r: Id, now: int, unreadable: Unreadable, faults: Faults, rt': Rt, disk': Disk,
                   n: Naming)
    requires Good(rt, disk, n) && MayLookup(rt, r)
    requires (rt', disk') == LookupStep(rt, disk, r, now, unreadable, faults)
    ensures Good(rt', disk', n)
  {
    hide Lookup, LookupStep, Coherent, Logged, DirsThere, JobPlaces, Covered, PinnedIntact, FreshDirs, Ledger, Calm;
    var hit, w', pc := LookupCases(rt, disk, r, now, unreadable, faults);
    if hit {
      HitGood(rt, disk, r, now, unreadable, faults, n);
    } else {
      CalmMoveGood(rt, disk, w', r, pc, n);
    }
  }

  // ----- Respond and release -----

  lemma RespondedHandles(requests: map<Id, Req>, r: Id, entries: map<Key, Entry>)
    requires Handles(requests, entries) && r in requests && Runtime.Pins(requests[r])
    ensures Handles(requests[r := requests[r].(pc := Responded)], entries)
  {
    var requests' := requests[r := requests[r].(pc := Responded)];
    forall k | k in entries ensures entries[k].active == |Holders(requests', k)| {
      assert Holders(requests', k) == Holders(requests, k);
    }
  }

  /** The entry under a handle has a recorded origin, filed under the request's key. */
  lemma HeldOrigin(rt: Rt, r: Id, n: Naming)
    requires Sound(rt, n) && ReqAt(rt, r, Holding)
    ensures var req := rt.requests[r];
            && req.key in rt.origins && TracedKey(rt.log, req.key, rt.origins)
            && n.key(req.archive) == req.key && n.valid(req.archive)
            && n.key(rt.origins[req.key]) == req.key && n.valid(rt.origins[req.key])
  {
    hide JobBooks, Loans, FiledJobs, Waiters, Timed, NeverStale, FaithfulLog, TracedKey;
    assert FiledRequest(rt.requests[r], n);
  }

  lemma RespondCoherent(rt: Rt, r: Id, n: Naming)
    requires Coherent(rt, n) && ReqAt(rt, r, Holding)
    ensures Coherent(Move(rt, r, Responded), n)
  {
    hide JobBooks, Loans, FiledJobs, Origins;
    var req := rt.requests[r];
    assert FiledRequest(req, n);
    RespondedHandles(rt.requests, r, rt.cache.entries);
    FiledMove(rt.requests, r, req.(pc := Responded), n);
    WaitersMove(rt.requests, r, req.(pc := Responded), rt.issued);
  }

  lemma RespondLogged(rt: Rt, r: Id, e: Event, n: Naming)
    requires Sound(rt, n) && ReqAt(rt, r, Holding) && rt.requests[r].key in rt.origins
    requires e == Served(rt.requests[r].archive, rt.origins[rt.requests[r].key])
    ensures Logged(Move(rt, r, Responded).(log := rt.log + [e]), n)
  {
    hide Coherent, Faithful, Timed, NeverStale, TracedKey;
    var req := rt.requests[r];
    HeldOrigin(rt, r, n);
    ServedFaithful(rt.log, req.archive, req.key, rt.origins, n);
    FaithfulGrows(rt.log, e, n);
    TracedGrows(rt.log, e, rt.cache.entries.Keys, rt.origins);
    ServedTimed(rt.log, e, rt.cache);
  }

  /** The log is no part of the coherence of requests, jobs and handles. */
  lemma LogCoherent(rt: Rt, log: seq<Event>, n: Naming)
    requires Coherent(rt, n)
    ensures Coherent(rt.(log := log), n)
  {
    hide JobBooks, Handles, Origins, FiledRequests, FiledJobs, Waiters, Loans;
  }

  /** A response is logged as an answer from the archive whose commit published the entry. */
  lemma RespondGood(rt: Rt, disk: Disk, r: Id, n: Naming)
    requires Good(rt, disk, n) && ReqAt(rt, r, Holding)
    ensures Good(Respond(rt, r), disk, n)
    ensures var req := rt.requests[r];
            && req.key in rt.origins && Respond(rt, r).log == rt.log + [Served(req.archive, rt.origins[req.key])]
            && LastPublished(rt.log, req.key).Some?
                && LastPublished(rt.log, req.key).value.origin == rt.origins[req.key]
  {
    hide Coherent, Logged, Inv, DirsThere, JobPlaces;
    var req := rt.requests[r];
    HeldOrigin(rt, r, n);
    var e := Served(req.archive, rt.origins[req.key]);
    RespondCoherent(rt, r, n);
    LogCoherent(Move(rt, r, Responded), rt.log + [e], n);
    RespondLogged(rt, r, e, n);
  }

  lemma UnpinnedHandles(requests: map<Id, Req>, r: Id, entries: map<Key, Entry>)
    requires Handles(requests, entries) && r in requests && Runtime.Pins(requests[r])
    ensures var key, requests' := requests[r].key, requests[r := requests[r].(pc := Leaving)];
            && entries[key].active > 0
            && Handles(requests', entries[key := entries[key].(active := entries[key].active - 1)])
  {
    var key, requests' := requests[r].key, requests[r := requests[r].(pc := Leaving)];
    assert r in Holders(requests, key);
    forall k | k in entries
      ensures |Holders(requests', k)| == if k == key then entries[k].active - 1 else entries[k].active
    {
      HoldersMoved(requests, r, requests[r].(pc := Leaving), k);
      assert k != key ==> Holders(requests, k) - {r} == Holders(requests, k);
    }
  }

  lemma UnpinnedTimed(log: seq<Event>, c: Cache, key: Key)
    requires Timed(log, c) && key in c.entries
    ensures Timed(log, c.(entries := c.entries[key := c.entries[key].(active := c.entries[key].active - 1)]))
  {
    var c' := c.(entries := c.entries[key := c.entries[key].(active := c.entries[key].active - 1)]);
    forall k | k in c'.entries ensures TimedEntry(log, c', k, c'.entries[k]) {
      assert TimedEntry(log, c, k, c.entries[k]);
    }
  }

  function UnpinnedCache(c: Cache, key: Key): Cache
    requires key in c.entries
  {
    c.(entries := c.entries[key := c.entries[key].(active := c.entries[key].active - 1)])
  }

  lemma UnpinnedCoherent(rt: Rt, r: Id, n: Naming)
    requires Coherent(rt, n) && r in rt.requests && Runtime.Pins(rt.requests[r])
    ensures rt.requests[r].key in rt.cache.entries && rt.cache.entries[rt.requests[r].key].active > 0
    ensures Coherent(Move(rt, r, Leaving).(cache := UnpinnedCache(rt.cache, rt.requests[r].key)), n)
  {
    UnpinnedHandles(rt.requests, r, rt.cache.entries);
    FiledMove(rt.requests, r, rt.requests[r].(pc := Leaving), n);
    WaitersMove(rt.requests, r, rt.requests[r].(pc := Leaving), rt.issued);
    Reassembled(rt, Move(rt, r, Leaving).(cache := UnpinnedCache(rt.cache, rt.requests[r].key)), n);
  }

  lemma ReleaseHandleShape(rt: Rt, r: Id)
    requires r in rt.requests && rt.requests[r].key in rt.cache.entries
             && rt.cache.entries[rt.requests[r].key].active > 0
    ensures ReleaseHandle(rt, r) == Move(rt, r, Leaving).(cache := UnpinnedCache(rt.cache, rt.requests[r].key))
  {
  }

  lemma UnpinnedLogged(rt: Rt, rt': Rt, key: Key, n: Naming)
    requires Logged(rt, n) && key in rt.cache.entries && rt'.cache == UnpinnedCache(rt.cache, key)
    requires rt'.log == rt.log && rt'.origins == rt.origins
    ensures Logged(rt', n)
  {
    hide TracedKey, TimedEntry, Faithful, InTime;
    UnpinnedTimed(rt.log, rt.cache, key);
    assert rt'.cache.entries.Keys == rt.cache.entries.Keys;
  }

  lemma UnpinnedOnDisk(rt: Rt, disk: Disk, rt': Rt, key: Key)
    requires OnDisk(rt, disk) && key in rt.cache.entries && rt.cache.entries[key].active > 0
    requires rt'.cfg == rt.cfg && rt'.work == rt.work && rt'.cache == UnpinnedCache(rt.cache, key)
    ensures OnDisk(rt', disk)
  {
    hide Inv, DirsThere, JobPlaces;
    UnpinKeeps(WorldOf(rt, disk), key);
    EntryUpdateOnDisk(rt.cache, rt'.cache, rt.cfg, rt.work, disk);
  }

  /** A release takes one from the handle count of its entry. */
  lemma ReleaseHandleGood(rt: Rt, disk: Disk, r: Id, n: Naming)
    requires Good(rt, disk, n) && r in rt.requests && Runtime.Pins(rt.requests[r])
    ensures Good(ReleaseHandle(rt, r), disk, n)
    ensures var key, entries := rt.requests[r].key, rt.cache.entries;
            && key in entries && entries[key].active > 0
            && ReleaseHandle(rt, r).cache.entries == entries[key := entries[key].(active := entries[key].active - 1)]
  {
    hide Coherent, Logged, OnDisk, ReleaseHandle;
    var key := rt.requests[r].key;
    UnpinnedCoherent(rt, r, n);
    ReleaseHandleShape(rt, r);
    UnpinnedLogged(rt, ReleaseHandle(rt, r), key, n);
    UnpinnedOnDisk(rt, disk, ReleaseHandle(rt, r), key);
  }

  // ----- The sweeper -----

  lemma SweepGood(rt: Rt, disk: Disk, now: int, ranges: Ranges, faults: Faults, n: Naming)
    requires Good(rt, disk, n)
    ensures Good(SweepStep(rt, disk, now, ranges, faults).0, SweepStep(rt, disk, now, ranges, faults).1, n)
  {
    if !rt.cache.closed {
      SweepCalm(WorldOf(rt, disk), ranges, now, faults);
      CalmGood(rt, disk, Sweep(WorldOf(rt, disk), ranges, now, faults), n);
    }
  }

  lemma StopSweeperGood(rt: Rt, disk: Disk, n: Naming)
    requires Good(rt, disk, n) && rt.sweeping
    ensures Good(StopSweeper(rt), disk, n)
  {
  }
}
