/**
 Configure and Close come to their end: from every state in which nobody holds the lifecycle lock
 some run takes the old runtime down and, for Configure, opens the new one and publishes it.
 */
module Configuring {
  import opened Options
  import opened CacheModel
  import opened Runtime
  import opened Draining
  import opened Lifecycle
  import opened BackendProperties

  // ----- Runs one after the other -----

  lemma {:induction false} Follow(s: System, run: seq<Act>, rest: seq<Act>, n: Naming)
    requires Legal(s, run, n) && Legal(After(s, run, n), rest, n)
    ensures Legal(s, run + rest, n) && After(s, run + rest, n) == After(After(s, run, n), rest, n)
    decreases |rest|
  {
    hide Allowed, Next;
    if rest == [] {
      assert run + rest == run;
    } else {
      var most := rest[..|rest| - 1];
      Follow(s, run, most, n);
      assert (run + rest)[..|run + rest| - 1] == run + most;
      assert (run + rest)[|run + rest| - 1] == rest[|rest| - 1];
    }
  }

  lemma One(s: System, a: Act, n: Naming)
    requires Allowed(s, a, n)
    ensures Legal(s, [a], n) && After(s, [a], n) == Next(s, a, n)
  {
    hide Allowed, Next;
    assert [a][..0] == [];
    assert After(s, [], n) == s && Legal(s, [], n);
  }

  lemma {:induction false} Enumeration<T(!new)>(s: set<T>) returns (order: seq<T>)
    ensures Enumerates(order, s)
    decreases s
  {
    order := [];
    if s != {} {
      var x :| x in s;
      var rest := Enumeration(s - {x});
      order := [x] + rest;
      forall y ensures y in order <==> y in s {
        assert y in order <==> y == x || y in rest;
      }
    }
  }

  // ----- The end of Configure -----

  /** The backend has come to rest with a running runtime for exactly this configuration. */
  ghost predicate Serves(s: System, cfg: Config) {
    && s.stage == Idle && s.current.Some? && s.current.value in s.runtimes
    && var rt := s.runtimes[s.current.value];
       && rt.cfg == cfg && !rt.stopping && rt.sweeping && rt.wg == 1
       && rt.requests == map[] && rt.work == map[] && rt.jobs == map[] && !rt.slotFull && rt.log == []
       && rt.issued == {} && rt.results == map[] && rt.done == {}
       && !rt.cache.closed && rt.cache.root == cfg.root && rt.cache.maxBytes == cfg.cacheSize
       && rt.cache.fallbackTtl == cfg.cacheTtl && rt.cache.entries == map[] && rt.cache.loans == map[]
       && rt.cache.pending == map[] && rt.cache.usedBytes == 0 && rt.cache.reserved == 0
       && forall p :: p in s.disk ==> !PluginDir(p, cfg.root)
  }

  /** The backend has come to rest without a runtime. */
  ghost predicate Unconfigured(s: System) {
    s.stage == Idle && s.current == None
  }

  /** What a lifecycle operation with this argument comes to. */
  ghost predicate Finished(s: System, next: Option<Config>) {
    match next
    case Some(cfg) => Serves(s, cfg)
    case None => Unconfigured(s)
  }

  lemma OpenSteps(s: System, cfg: Config, id: Id, n: Naming)
    requires s.stage == Opening(cfg) && id !in s.runtimes
    ensures Allowed(s, OpenCache(id), n) && Allowed(Next(s, OpenCache(id), n), Publish, n)
    ensures var s' := Next(Next(s, OpenCache(id), n), Publish, n);
            && Serves(s', cfg) && s'.current == Some(id)
            && forall i :: i in s.runtimes ==> i in s'.runtimes && s'.runtimes[i] == s.runtimes[i]
  {
  }

  /** With the old runtime gone, the cache is opened and the new runtime published. */
  lemma OpeningFinishes(s: System, n: Naming) returns (run: seq<Act>)
    requires s.stage.Opening?
    ensures Legal(s, run, n) && Serves(After(s, run, n), s.stage.cfg)
    ensures After(s, run, n).current.Some? && After(s, run, n).current.value !in s.runtimes
    ensures forall i :: i in s.runtimes ==>
              i in After(s, run, n).runtimes && After(s, run, n).runtimes[i] == s.runtimes[i]
  {
    hide Allowed, Next, Serves, Legal, After;
    var id := Unused(s.runtimes.Keys);
    OpenSteps(s, s.stage.cfg, id, n);
    var s1 := Next(s, OpenCache(id), n);
    One(s, OpenCache(id), n);
    One(s1, Publish, n);
    Follow(s, [OpenCache(id)], [Publish], n);
    run := [OpenCache(id)] + [Publish];
  }

  /** What is left to do after the old runtime is closed. */
  ghost predicate ReadyFor(s: System, next: Option<Config>) {
    match next
    case Some(cfg) => s.stage == Opening(cfg)
    case None => s.stage == Idle && s.current == None
  }

  lemma ReadyFinishes(s: System, next: Option<Config>, n: Naming) returns (run: seq<Act>)
    requires ReadyFor(s, next)
    ensures Legal(s, run, n) && Finished(After(s, run, n), next)
    ensures next.Some? ==> After(s, run, n).current.Some? && After(s, run, n).current.value !in s.runtimes
    ensures forall i :: i in s.runtimes ==>
              i in After(s, run, n).runtimes && After(s, run, n).runtimes[i] == s.runtimes[i]
  {
    hide Allowed, Next, Serves;
    if next.Some? {
      run := OpeningFinishes(s, n);
    } else {
      run := [];
    }
  }

  lemma CloseStep(s: System, ranges: Ranges, n: Naming)
    requires SystemInv(s, n) && s.stage.ClosingCache? && Allowed(s, CloseCache(ranges, map[]), n)
    ensures var s' := Next(s, CloseCache(ranges, map[]), n);
            && ReadyFor(s', s.stage.next)
            && s.stage.prev in s'.runtimes && s'.runtimes[s.stage.prev].cache.closed
  {
    hide AllSound, LeftoversAccounted, DiskSound, SeekersKnown, Evict, RetryPending, RangesOver;
  }

  /** The wait group is at zero: the cache is closed, and then the rest. */
  lemma ClosingFinishes(s: System, n: Naming) returns (run: seq<Act>)
    requires SystemInv(s, n) && s.stage.ClosingCache?
    ensures Legal(s, run, n) && Finished(After(s, run, n), s.stage.next)
    ensures var s' := After(s, run, n);
            && s.stage.prev in s'.runtimes && s'.runtimes[s.stage.prev].cache.closed
            && (s.stage.next.Some? ==> s'.current.Some? && s'.current.value != s.stage.prev)
  {
    hide Next, Legal, After, Finished, SystemInv;
    ClosingKnown(s, n);
    var w := WorldOf(s.runtimes[s.stage.prev], s.disk);
    var pending := Enumeration(w.cache.pending.Keys);
    var entries := Enumeration(w.cache.entries.Keys);
    var a := CloseCache(Ranges(pending, entries), map[]);
    CloseStep(s, Ranges(pending, entries), n);
    var rest := ReadyFinishes(Next(s, a, n), s.stage.next, n);
    One(s, a, n);
    Follow(s, [a], rest, n);
    run := [a] + rest;
  }

  lemma ClosingKnown(s: System, n: Naming)
    requires SystemInv(s, n) && s.stage.ClosingCache?
    ensures s.stage.prev in s.runtimes
  {
    hide AllSound, LeftoversAccounted, DiskSound, SeekersKnown;
  }

  /** The old runtime is stopping: it drains, and then the rest. */
  lemma DrainingFinishes(s: System, n: Naming) returns (run: seq<Act>)
    requires SystemInv(s, n) && Consistent(n) && s.stage.Draining?
    ensures Legal(s, run, n) && Finished(After(s, run, n), s.stage.next)
    ensures var s' := After(s, run, n);
            && s.stage.prev in s'.runtimes && s'.runtimes[s.stage.prev].cache.closed
            && (s.stage.next.Some? ==> s'.current.Some? && s'.current.value != s.stage.prev)
  {
    hide Legal, After, Finished, SystemInv, Consistent;
    var drain := DrainCompletes(s, n);
    RunKeeps(s, drain, n);
    var rest := ClosingFinishes(After(s, drain, n), n);
    Follow(s, drain, rest, n);
    run := drain + rest;
  }

  lemma StopSteps(s: System, next: Option<Config>, n: Naming)
    requires SystemInv(s, n) && s.stage == Idle && s.current.Some? && ValidNext(next)
    ensures Allowed(s, Begin(next), n) && Allowed(Next(s, Begin(next), n), SetStopping, n)
    ensures Next(Next(s, Begin(next), n), SetStopping, n).stage == Draining(s.current.value, next)
  {
    hide AllSound, LeftoversAccounted, DiskSound, SeekersKnown, ValidConfig;
  }

  lemma BeginReady(s: System, next: Option<Config>, n: Naming)
    requires s.stage == Idle && s.current == None && ValidNext(next)
    ensures Allowed(s, Begin(next), n) && ReadyFor(Next(s, Begin(next), n), next)
    ensures Next(s, Begin(next), n).runtimes == s.runtimes
  {
    hide ValidConfig;
  }

  /** The old runtime, if there is one, is stopped, drained and closed. */
  lemma StoppingFinishes(s: System, next: Option<Config>, n: Naming) returns (run: seq<Act>)
    requires SystemInv(s, n) && Consistent(n) && s.stage == Idle && s.current.Some? && ValidNext(next)
    ensures run != [] && run[0] == Begin(next) && Legal(s, run, n) && Finished(After(s, run, n), next)
    ensures var s' := After(s, run, n);
            && s.current.value in s'.runtimes && s'.runtimes[s.current.value].cache.closed
            && (next.Some? ==> s'.current.Some? && s'.current.value != s.current.value)
  {
    hide Legal, After, Finished, SystemInv, Consistent, Next, Allowed;
    StopSteps(s, next, n);
    var s1 := Next(s, Begin(next), n);
    var s2 := Next(s1, SetStopping, n);
    NextKeeps(s, Begin(next), n);
    NextKeeps(s1, SetStopping, n);
    var rest := DrainingFinishes(s2, n);
    One(s, Begin(next), n);
    One(s1, SetStopping, n);
    Follow(s, [Begin(next)], [SetStopping], n);
    Follow(s, [Begin(next)] + [SetStopping], rest, n);
    run := [Begin(next)] + [SetStopping] + rest;
  }

  lemma LifecycleFinishes(s: System, next: Option<Config>, n: Naming) returns (run: seq<Act>)
    requires SystemInv(s, n) && Consistent(n) && s.stage == Idle && ValidNext(next)
    ensures run != [] && run[0] == Begin(next) && Legal(s, run, n) && Finished(After(s, run, n), next)
    ensures var s' := After(s, run, n);
            s.current.Some? ==>
              && s.current.value in s'.runtimes && s'.runtimes[s.current.value].cache.closed
              && (next.Some? ==> s'.current.Some? && s'.current.value != s.current.value)
  {
    hide Legal, After, Finished, SystemInv, Consistent, Next, Allowed;
    if s.current.Some? {
      run := StoppingFinishes(s, next, n);
    } else {
      BeginReady(s, next, n);
      var rest := ReadyFinishes(Next(s, Begin(next), n), next, n);
      One(s, Begin(next), n);
      Follow(s, [Begin(next)], rest, n);
      run := [Begin(next)] + rest;
    }
  }

  /**
   Configure can always succeed: from every reachable state in which no other Configure or Close is
   under way, some run that begins with it ends with a current runtime for exactly the given
   configuration, running, with an open, empty cache on a cleared directory; the runtime that was
   current is closed.
   */
  lemma ConfigureCompletes(s: System, cfg: Config, n: Naming) returns (run: seq<Act>)
    requires SystemInv(s, n) && Consistent(n) && s.stage == Idle && ValidConfig(cfg)
    ensures run != [] && run[0] == Begin(Some(cfg)) && Legal(s, run, n) && Serves(After(s, run, n), cfg)
    ensures s.current.Some? ==>
              && s.current.value in After(s, run, n).runtimes
              && After(s, run, n).runtimes[s.current.value].cache.closed
              && After(s, run, n).current != s.current
  {
    hide Legal, After, Serves, SystemInv, Consistent;
    run := LifecycleFinishes(s, Some(cfg), n);
  }

  /** Close can always come to its end, with no runtime left and the old one closed. */
  lemma CloseCompletes(s: System, n: Naming) returns (run: seq<Act>)
    requires SystemInv(s, n) && Consistent(n) && s.stage == Idle
    ensures run != [] && run[0] == Begin(None) && Legal(s, run, n)
    ensures After(s, run, n).stage == Idle && After(s, run, n).current == None
    ensures s.current.Some? ==>
              s.current.value in After(s, run, n).runtimes && After(s, run, n).runtimes[s.current.value].cache.closed
  {
    hide Legal, After, SystemInv, Consistent;
    run := LifecycleFinishes(s, None, n);
  }

  /** A configured backend admits callers: whoever asks is counted and gets to its request. */
  lemma ServesAdmits(s: System, cfg: Config, k: Id, r: Id, blank: Req, n: Naming)
    requires Serves(s, cfg)
    ensures Allowed(s, Seek(k), n)
    ensures var s1 := Next(s, Seek(k), n);
            && Allowed(s1, AdmitSeeker(k, r, blank), n)
            && var s2 := Next(s1, AdmitSeeker(k, r, blank), n);
               && s2.current == s.current && s2.stage == Idle && s.current.value in s2.runtimes
               && var rt, rt' := s.runtimes[s.current.value], s2.runtimes[s.current.value];
                  && r in rt'.requests && rt'.requests[r].pc == Admitted && rt'.wg == rt.wg + 1
                  && rt' == rt.(requests := rt.requests[r := blank.(pc := Admitted)], wg := rt.wg + 1)
                      && s2.disk == s.disk
  {
  }
}
