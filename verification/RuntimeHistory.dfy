/** What no step of a runtime undoes, and when its actors can still move. */
module RuntimeHistory {
  import opened CacheModel
  import opened CacheProofs
  import opened CacheOperations
  import opened Runtime
  import opened RuntimeInvariant
  import opened RequestSteps
  import opened JobEnding
  import opened RuntimeSteps

  predicate SameCache(c: Cache, c': Cache) {
    c'.root == c.root && c'.maxBytes == c.maxBytes && c'.fallbackTtl == c.fallbackTtl && c'.closed == c.closed
  }

  /** Assigned results stay as they are. */
  ghost predicate ResultsStay(results: map<Id, bool>, results': map<Id, bool>) {
    forall i :: i in results ==> i in results' && results'[i] == results[i]
  }

  ghost predicate LogStays(log: seq<Event>, log': seq<Event>) {
    |log| <= |log'| && log'[..|log|] == log
  }

  /**
   Configuration, stop flag, cache identity and closed flag are not the business of any actor;
   results, closed done channels, issued jobs and the log are never taken back; and after the stop
   the wait group only falls.
   */
  ghost predicate Continues(rt: Rt, rt': Rt) {
    && rt'.cfg == rt.cfg && rt'.stopping == rt.stopping && SameCache(rt.cache, rt'.cache)
    && ResultsStay(rt.results, rt'.results) && rt.done <= rt'.done && rt.issued <= rt'.issued
    && LogStays(rt.log, rt'.log)
    && (rt'.sweeping ==> rt.sweeping)
    && (rt.stopping ==> rt'.wg <= rt.wg && rt'.issued == rt.issued)
  }

  /** A step that assigns no result, closes no channel and issues no job. */
  lemma QuietContinues(rt: Rt, rt': Rt)
    requires rt'.cfg == rt.cfg && rt'.stopping == rt.stopping
    requires rt'.results == rt.results && rt'.done == rt.done && rt'.issued == rt.issued
    requires SameCache(rt.cache, rt'.cache) && (rt'.sweeping ==> rt.sweeping) && rt'.wg <= rt.wg
    requires LogStays(rt.log, rt'.log)
    ensures Continues(rt, rt')
  {
    hide SameCache, LogStays;
  }

  lemma LogStaysSame(log: seq<Event>)
    ensures LogStays(log, log)
  {
  }

  lemma LogStaysLonger(log: seq<Event>, e: Event)
    ensures LogStays(log, log + [e])
  {
  }

  lemma CalmSameCache(w: World, w': World)
    requires Calm(w, w')
    ensures SameCache(w.cache, w'.cache)
  {
  }

  lemma LookupSameCache(w: World, key: Key, now: int, unreadable: Unreadable, faults: Faults)
    requires Ledger(w.cache)
    ensures SameCache(w.cache, Lookup(w, key, now, unreadable, faults).0.cache)
  {
    hide Ledger, Calm;
    if !Lookup(w, key, now, unreadable, faults).1 {
      MissCalm(w, key, now, unreadable, faults);
      CalmSameCache(w, Lookup(w, key, now, unreadable, faults).0);
    }
  }

  /** What a lookup leaves of the runtime, in terms of the cache's lookup. */
  lemma LookupShape(rt: Rt, disk: Disk, r: Id, now: int, unreadable: Unreadable, faults: Faults, w': World, hit: bool,
                    pc: ReqPc)
    requires r in rt.requests && Lookup(WorldOf(rt, disk), rt.requests[r].key, now, unreadable, faults) == (w', hit)
    requires pc == if rt.requests[r].pc == Authorized && !rt.requests[r].keyGiven then Missed else Leaving
    ensures hit ==> LookupStep(rt, disk, r, now, unreadable, faults).0 ==
                    Move(rt, r, Holding).(cache := w'.cache, log := rt.log + [HandedOut(rt.requests[r].key, now)])
    ensures !hit ==> LookupStep(rt, disk, r, now, unreadable, faults).0 == Move(rt, r, pc).(cache := w'.cache)
  {
    hide Lookup;
  }

  lemma MoveContinues(rt: Rt, r: Id, pc: ReqPc, c': Cache)
    requires r in rt.requests && SameCache(rt.cache, c')
    ensures Continues(rt, Move(rt, r, pc).(cache := c'))
  {
    hide Continues, LogStays, SameCache;
    LogStaysSame(rt.log);
    QuietContinues(rt, Move(rt, r, pc).(cache := c'));
  }

  lemma LoggedMoveContinues(rt: Rt, r: Id, pc: ReqPc, c': Cache, e: Event)
    requires r in rt.requests && SameCache(rt.cache, c')
    ensures Continues(rt, Move(rt, r, pc).(cache := c', log := rt.log + [e]))
  {
    hide Continues, LogStays, SameCache;
    LogStaysLonger(rt.log, e);
    QuietContinues(rt, Move(rt, r, pc).(cache := c', log := rt.log + [e]));
  }

  lemma LookupContinues(rt: Rt, disk: Disk, r: Id, now: int, unreadable: Unreadable, faults: Faults)
    requires Ledger(rt.cache) && r in rt.requests
    ensures Continues(rt, LookupStep(rt, disk, r, now, unreadable, faults).0)
  {
    hide Ledger, Lookup, LookupStep, Continues, LogStays, SameCache;
    var (w', hit) := Lookup(WorldOf(rt, disk), rt.requests[r].key, now, unreadable, faults);
    var pc := if rt.requests[r].pc == Authorized && !rt.requests[r].keyGiven then Missed else Leaving;
    LookupShape(rt, disk, r, now, unreadable, faults, w', hit, pc);
    LookupSameCache(WorldOf(rt, disk), rt.requests[r].key, now, unreadable, faults);
    if hit {
      LoggedMoveContinues(rt, r, Holding, w'.cache, HandedOut(rt.requests[r].key, now));
    } else {
      MoveContinues(rt, r, pc, w'.cache);
    }
  }

  /** Issuing a job is the one step that counts up, and only before the stop. */
  lemma GrantedContinues(rt: Rt, r: Id, id: Id, c': Cache)
    requires r in rt.requests && !rt.stopping && SameCache(rt.cache, c')
    ensures Continues(rt, Granted(rt, r, id, c'))
  {
    hide SameCache;
  }

  lemma StartJobContinues(rt: Rt, disk: Disk, r: Id, id: Id, now: int, ranges: Ranges, victims: seq<Key>,
                          faults: Faults)
    requires Inv(WorldOf(rt, disk)) && r in rt.requests
    ensures Continues(rt, StartJob(rt, disk, r, id, now, ranges, victims, faults).0)
  {
    hide StartJob, Reserve, Inv, Continues, Calm, SameCache, Grants;
    if rt.stopping || rt.requests[r].key in rt.jobs || rt.slotFull {
      var pc := if !rt.stopping && rt.requests[r].key in rt.jobs then Waiting(rt.jobs[rt.requests[r].key]) else Leaving;
      StartJobNoSlot(rt, disk, r, id, now, ranges, victims, faults);
      SameCacheAsBefore(rt.cache);
      MoveContinues(rt, r, pc, rt.cache);
    } else {
      var w, granted := ReserveCases(WorldOf(rt, disk), id, PeakBytes(rt.cfg), now, ranges, victims, faults);
      StartJobShape(rt, disk, r, id, now, ranges, victims, faults, w, granted);
      CalmSameCache(WorldOf(rt, disk), w);
      GrantedOrNot(rt, r, id, w.cache, granted);
    }
  }

  lemma SameCacheAsBefore(c: Cache)
    ensures SameCache(c, c)
  {
  }

  lemma GrantedOrNot(rt: Rt, r: Id, id: Id, c': Cache, granted: bool)
    requires r in rt.requests && !rt.stopping && SameCache(rt.cache, c')
    ensures Continues(rt, if granted then Granted(rt.(cache := c'), r, id, AddLoan(c', id, PeakBytes(rt.cfg)))
                          else Move(rt, r, Leaving).(cache := c'))
  {
    hide Continues;
    if granted {
      GrantedContinues(rt, r, id, AddLoan(c', id, PeakBytes(rt.cfg)));
    } else {
      MoveContinues(rt, r, Leaving, c');
    }
  }

  lemma SweepContinues(rt: Rt, disk: Disk, now: int, ranges: Ranges, faults: Faults)
    requires Ledger(rt.cache)
    ensures Continues(rt, SweepStep(rt, disk, now, ranges, faults).0)
  {
    hide Ledger, Sweep, Continues, LogStays, Calm;
    LogStaysSame(rt.log);
    if !rt.cache.closed {
      SweepCalm(WorldOf(rt, disk), ranges, now, faults);
      CalmSameCache(WorldOf(rt, disk), Sweep(WorldOf(rt, disk), ranges, now, faults));
    }
    QuietContinues(rt, SweepStep(rt, disk, now, ranges, faults).0);
  }

  lemma RespondContinues(rt: Rt, r: Id)
    requires r in rt.requests
    ensures Continues(rt, Respond(rt, r))
  {
    hide Continues, LogStays;
    var req := rt.requests[r];
    if req.key in rt.origins {
      LogStaysLonger(rt.log, Served(req.archive, rt.origins[req.key]));
      QuietContinues(rt, Move(rt, r, Responded).(log := rt.log + [Served(req.archive, rt.origins[req.key])]));
    } else {
      LogStaysSame(rt.log);
      QuietContinues(rt, Move(rt, r, Responded));
    }
  }

  predicate PlainRequestAction(a: Action) {
    RequestAction(a) && !a.DoLookup? && !a.DoStartJob? && !a.DoSweep? && !a.DoRespond?
  }

  lemma MoveRequestContinues(rt: Rt, disk: Disk, a: Action, n: Naming)
    requires Enabled(rt, disk, a, n) && (a.DoReject? || a.DoAuthorize? || a.DoWake? || a.DoGiveUp?)
    ensures Continues(rt, Step(rt, disk, a, n).0)
  {
    hide LookupStep, StartJob, SweepStep, Respond, ReleaseHandle, Continues, LogStays;
    LogStaysSame(rt.log);
    QuietContinues(rt, Step(rt, disk, a, n).0);
  }

  lemma EndRequestContinues(rt: Rt, disk: Disk, a: Action, n: Naming)
    requires Enabled(rt, disk, a, n) && (a.DoReleaseHandle? || a.DoLeave? || a.DoStopSweeper?)
    ensures Continues(rt, Step(rt, disk, a, n).0)
  {
    hide LookupStep, StartJob, SweepStep, Respond, Wake, Continues, LogStays;
    LogStaysSame(rt.log);
    QuietContinues(rt, Step(rt, disk, a, n).0);
  }

  /** The other request steps. */
  lemma PlainRequestContinues(rt: Rt, disk: Disk, a: Action, n: Naming)
    requires Enabled(rt, disk, a, n) && PlainRequestAction(a)
    ensures Continues(rt, Step(rt, disk, a, n).0)
  {
    hide Enabled, Step, Continues;
    if a.DoReleaseHandle? || a.DoLeave? || a.DoStopSweeper? {
      EndRequestContinues(rt, disk, a, n);
    } else {
      MoveRequestContinues(rt, disk, a, n);
    }
  }

  lemma RequestStepContinues(rt: Rt, disk: Disk, a: Action, n: Naming)
    requires Inv(WorldOf(rt, disk)) && Enabled(rt, disk, a, n) && RequestAction(a)
    ensures Continues(rt, Step(rt, disk, a, n).0)
  {
    hide LookupStep, StartJob, SweepStep, Respond, ReserveChoice, RangesOver, Covered, PinnedIntact, FreshDirs,
         Ledger, Continues;
    match a {
      case DoLookup(r, now, unreadable, faults) => LookupContinues(rt, disk, r, now, unreadable, faults);
      case DoStartJob(r, id, now, ranges, victims, faults) => StartJobContinues(rt, disk, r, id, now, ranges, victims,
        faults);
      case DoSweep(now, ranges, faults) => SweepContinues(rt, disk, now, ranges, faults);
      case DoRespond(r) => RespondContinues(rt, r);
      case _ => PlainRequestContinues(rt, disk, a, n);
    }
  }

  lemma CommittedContinues(rt: Rt, id: Id, c': Cache, origins: map<Key, Version>, e: Event)
    requires id in rt.work && SameCache(rt.cache, c')
    ensures Continues(rt, JobTo(rt, id, Unwinding(true)).(cache := c', origins := origins, log := rt.log + [e]))
  {
    hide Continues, LogStays, SameCache;
    LogStaysLonger(rt.log, e);
    QuietContinues(rt, JobTo(rt, id, Unwinding(true)).(cache := c', origins := origins, log := rt.log + [e]));
  }

  lemma JobToContinues(rt: Rt, id: Id, pc: JobPc, c': Cache)
    requires id in rt.work && SameCache(rt.cache, c')
    ensures Continues(rt, JobTo(rt, id, pc).(cache := c'))
  {
    hide Continues, LogStays, SameCache;
    LogStaysSame(rt.log);
    QuietContinues(rt, JobTo(rt, id, pc).(cache := c'));
  }

  lemma WithEntrySameCache(c: Cache, id: Id, key: Key, e: Entry)
    ensures SameCache(c, WithEntry(c, id, key, e))
  {
  }

  lemma SameCacheTransitive(c: Cache, c': Cache, c'': Cache)
    requires SameCache(c, c') && SameCache(c', c'')
    ensures SameCache(c, c'')
  {
  }

  lemma CommitContinues(rt: Rt, disk: Disk, id: Id, now: int, io: CommitIo, faults: Faults)
    requires Ledger(rt.cache) && id in rt.work && rt.work[id].pc.Extracted?
    ensures Continues(rt, CommitStep(rt, disk, id, now, io, faults).0)
  {
    hide CommitStep, Ledger, Calm, Continues, SameCache, NewEntryFits, Publish, NewEntry, WithEntry;
    var job, unvalidated := rt.work[id], Unvalidated(rt.work[id].archive.head);
    var w0, committed := CommitStepCases(rt, disk, id, now, io, faults);
    CalmSameCache(WorldOf(rt, disk), w0);
    if committed {
      var e := NewEntry(w0.cache, job.key, unvalidated, job.pc.pages, now);
      var c' := WithEntry(w0.cache, id, job.key, e);
      WithEntrySameCache(w0.cache, id, job.key, e);
      SameCacheTransitive(rt.cache, w0.cache, c');
      CommittedContinues(rt, id, c', rt.origins[job.key := job.pc.got],
          Published(job.key, now, unvalidated, job.pc.got));
    } else {
      JobToContinues(rt, id, Unwinding(false), w0.cache);
    }
  }

  lemma ReleaseContinues(rt: Rt, disk: Disk, id: Id, faults: Faults)
    requires id in rt.work && rt.work[id].pc.Unwinding?
    ensures Continues(rt, ReleaseStep(rt, disk, id, faults).0)
  {
    hide Continues, LogStays;
    LogStaysSame(rt.log);
    QuietContinues(rt, ReleaseStep(rt, disk, id, faults).0);
  }

  /** A result is assigned once. */
  lemma SetErrContinues(rt: Rt, id: Id)
    requires JobBooks(rt.work, rt.slotFull, rt.jobs, rt.results, rt.done, rt.issued)
    requires id in rt.work && rt.work[id].pc.SlotFreed?
    ensures id !in rt.results && Continues(rt, SetErr(rt, id))
  {
    hide OneSlot, JobTable;
  }

  lemma CloseDoneContinues(rt: Rt, id: Id)
    requires id in rt.work
    ensures Continues(rt, CloseDone(rt, id))
  {
  }

  predicate PlainJobAction(a: Action) {
    !RequestAction(a) && !a.DoCommit? && !a.DoRelease? && !a.DoSetErr? && !a.DoCloseDone?
  }

  /** The steps after the release that count nothing up. */
  lemma TailContinues(rt: Rt, disk: Disk, a: Action, n: Naming)
    requires Enabled(rt, disk, a, n) && (a.DoFreeSlot? || a.DoDeleteJob? || a.DoEndJob?)
    ensures Continues(rt, Step(rt, disk, a, n).0)
  {
    hide LookupStep, StartJob, SweepStep, CommitStep, ReleaseStep, Continues, LogStays;
    LogStaysSame(rt.log);
    QuietContinues(rt, Step(rt, disk, a, n).0);
  }

  /** The steps that move a job on inside extractJob. */
  lemma MoveJobContinues(rt: Rt, disk: Disk, a: Action, n: Naming)
    requires Enabled(rt, disk, a, n) && (a.DoFail? || a.DoMakeDir? || a.DoFetch? || a.DoFinishExtraction?)
    ensures Continues(rt, Step(rt, disk, a, n).0)
  {
    hide LookupStep, StartJob, SweepStep, CommitStep, ReleaseStep, Continues, LogStays;
    LogStaysSame(rt.log);
    QuietContinues(rt, Step(rt, disk, a, n).0);
  }

  lemma WriteContinues(rt: Rt, disk: Disk, a: Action, n: Naming)
    requires Enabled(rt, disk, a, n) && (a.DoDownload? || a.DoExtractWrite?)
    ensures Continues(rt, Step(rt, disk, a, n).0)
  {
    hide LookupStep, StartJob, SweepStep, CommitStep, ReleaseStep, Continues, LogStays, Download, ExtractWrite,
         MayExtractWrite;
    LogStaysSame(rt.log);
    QuietContinues(rt, rt);
  }

  lemma PlainJobContinues(rt: Rt, disk: Disk, a: Action, n: Naming)
    requires Enabled(rt, disk, a, n) && PlainJobAction(a)
    ensures Continues(rt, Step(rt, disk, a, n).0)
  {
    hide Enabled, Step, Continues;
    if a.DoDownload? || a.DoExtractWrite? {
      WriteContinues(rt, disk, a, n);
    } else if a.DoFreeSlot? || a.DoDeleteJob? || a.DoEndJob? {
      TailContinues(rt, disk, a, n);
    } else {
      MoveJobContinues(rt, disk, a, n);
    }
  }

  lemma JobStepContinues(rt: Rt, disk: Disk, a: Action, n: Naming)
    requires Inv(WorldOf(rt, disk)) && Enabled(rt, disk, a, n) && !RequestAction(a)
    requires JobBooks(rt.work, rt.slotFull, rt.jobs, rt.results, rt.done, rt.issued)
    ensures Continues(rt, Step(rt, disk, a, n).0)
  {
    hide CommitStep, ReleaseStep, SetErr, CloseDone, Covered, PinnedIntact, FreshDirs, Ledger, JobBooks, Continues;
    match a {
      case DoCommit(id, now, io, faults) => CommitContinues(rt, disk, id, now, io, faults);
      case DoRelease(id, faults) => ReleaseContinues(rt, disk, id, faults);
      case DoSetErr(id) => SetErrContinues(rt, id);
      case DoCloseDone(id) => CloseDoneContinues(rt, id);
      case _ => PlainJobContinues(rt, disk, a, n);
    }
  }

  /** No step undoes what an earlier one recorded. */
  lemma StepContinues(rt: Rt, disk: Disk, a: Action, n: Naming)
    requires Good(rt, disk, n) && Enabled(rt, disk, a, n)
    ensures Continues(rt, Step(rt, disk, a, n).0)
  {
    hide Inv, Step, Enabled, JobBooks, Continues;
    if RequestAction(a) {
      RequestStepContinues(rt, disk, a, n);
    } else {
      JobStepContinues(rt, disk, a, n);
    }
  }

  // ----- What a run never takes back -----

  /**
   Configuration, results, closed channels, issued jobs and the log stay; stopped and closed stay
   stopped and closed.
   */
  ghost predicate Remembers(rt: Rt, rt': Rt) {
    && rt'.cfg == rt.cfg && (rt.stopping ==> rt'.stopping) && (rt.cache.closed ==> rt'.cache.closed)
    && ResultsStay(rt.results, rt'.results) && rt.done <= rt'.done && rt.issued <= rt'.issued
    && LogStays(rt.log, rt'.log)
  }

  lemma ContinuesRemembers(rt: Rt, rt': Rt)
    requires Continues(rt, rt')
    ensures Remembers(rt, rt')
  {
  }

  lemma RemembersTransitive(rt: Rt, rt': Rt, rt'': Rt)
    requires Remembers(rt, rt') && Remembers(rt', rt'')
    ensures Remembers(rt, rt'')
  {
    assert rt''.log[..|rt.log|] == rt''.log[..|rt'.log|][..|rt.log|];
  }
}
