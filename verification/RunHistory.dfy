/** What no run of the backend takes back from a runtime. */
module RunHistory {
  import opened CacheModel
  import opened Runtime
  import opened RuntimeInvariant
  import opened RuntimeHistory
  import opened Lifecycle

  lemma SameRemembers(rt: Rt, rt': Rt)
    requires rt'.cfg == rt.cfg && (rt.stopping ==> rt'.stopping) && (rt.cache.closed ==> rt'.cache.closed)
    requires rt'.results == rt.results && rt'.done == rt.done && rt'.issued == rt.issued && rt'.log == rt.log
    ensures Remembers(rt, rt')
  {
  }

  lemma LocalRemembers(s: System, actor: Id, a: Action, n: Naming, id: Id)
    requires SystemInv(s, n) && Allowed(s, Local(actor, a), n) && id in s.runtimes
    ensures id in Next(s, Local(actor, a), n).runtimes
    ensures Remembers(s.runtimes[id], Next(s, Local(actor, a), n).runtimes[id])
  {
    hide SystemInv, Enabled, Step, Good, Remembers;
    if actor == id {
      EnabledIsOpen(s, id, a, n);
      SoundOpen(s, id, n);
      StepContinues(s.runtimes[id], s.disk, a, n);
      ContinuesRemembers(s.runtimes[id], Step(s.runtimes[id], s.disk, a, n).0);
    } else {
      SameRemembers(s.runtimes[id], s.runtimes[id]);
    }
  }

  /** Configure, Close and admission leave results, channels, jobs and log alone. */
  lemma BackendRemembers(s: System, a: Act, n: Naming, id: Id)
    requires SystemInv(s, n) && Allowed(s, a, n) && id in s.runtimes && !a.Local? && !a.CloseCache?
    ensures id in Next(s, a, n).runtimes && Remembers(s.runtimes[id], Next(s, a, n).runtimes[id])
  {
    hide SystemInv, ClearRoot, PartlyCleared, Remembers;
    SameRemembers(s.runtimes[id], Next(s, a, n).runtimes[id]);
  }

  /** Closing a cache changes nothing but the cache. */
  lemma CloseRemembers(s: System, ranges: Ranges, faults: Faults, n: Naming, id: Id)
    requires SystemInv(s, n) && Allowed(s, CloseCache(ranges, faults), n) && id in s.runtimes
    ensures id in Next(s, CloseCache(ranges, faults), n).runtimes
    ensures Remembers(s.runtimes[id], Next(s, CloseCache(ranges, faults), n).runtimes[id])
  {
    hide SystemInv, Remembers, Close;
    CloseCloses(WorldOf(s.runtimes[id], s.disk), ranges, faults);
    SameRemembers(s.runtimes[id], Next(s, CloseCache(ranges, faults), n).runtimes[id]);
  }

  lemma CloseCloses(w: World, ranges: Ranges, faults: Faults)
    ensures Close(w, ranges, faults).cache.closed
  {
    hide Evict, RetryPending;
  }

  lemma NextRemembers(s: System, a: Act, n: Naming, id: Id)
    requires SystemInv(s, n) && Allowed(s, a, n) && id in s.runtimes
    ensures id in Next(s, a, n).runtimes && Remembers(s.runtimes[id], Next(s, a, n).runtimes[id])
  {
    hide SystemInv, Next, Allowed, Remembers;
    if a.Local? {
      LocalRemembers(s, a.id, a.a, n, id);
    } else if a.CloseCache? {
      CloseRemembers(s, a.ranges, a.faults, n, id);
    } else {
      BackendRemembers(s, a, n, id);
    }
  }

  /** Through every run a runtime's assigned results, closed done channels, issued jobs and log are never taken back. */
  lemma {:induction false} RunRemembers(s: System, run: seq<Act>, n: Naming, id: Id)
    requires SystemInv(s, n) && Consistent(n) && Legal(s, run, n) && id in s.runtimes
    ensures id in After(s, run, n).runtimes && Remembers(s.runtimes[id], After(s, run, n).runtimes[id])
    decreases |run|
  {
    hide SystemInv, Next, Allowed, Consistent, Remembers;
    if run == [] {
      SameRemembers(s.runtimes[id], s.runtimes[id]);
    } else {
      var most := run[..|run| - 1];
      var s' := After(s, most, n);
      RunRemembers(s, most, n, id);
      RunKeeps(s, most, n);
      NextRemembers(s', run[|run| - 1], n, id);
      RemembersTransitive(s.runtimes[id], s'.runtimes[id], Next(s', run[|run| - 1], n).runtimes[id]);
    }
  }
}
