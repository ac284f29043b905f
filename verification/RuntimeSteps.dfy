/** Every step of a runtime keeps its invariant, and what no step touches. */
module RuntimeSteps {
  import opened Options
  import opened CacheModel
  import opened Runtime
  import opened RuntimeInvariant
  import opened RequestSteps
  import opened JobSteps
  import opened JobEnding
  import opened JobUnwinding

  predicate RequestAction(a: Action) {
    a.DoReject? || a.DoAuthorize? || a.DoLookup? || a.DoStartJob? || a.DoWake? || a.DoGiveUp? || a.DoRespond?
    || a.DoReleaseHandle? || a.DoLeave? || a.DoSweep? || a.DoStopSweeper?
  }

  predicate EndingAction(a: Action) {
    a.DoCommit? || a.DoRelease? || a.DoFreeSlot? || a.DoSetErr? || a.DoDeleteJob? || a.DoCloseDone? || a.DoEndJob?
  }

  /** The actions that only move a request without a handle. */
  predicate MoveAction(a: Action) {
    a.DoReject? || a.DoWake? || a.DoGiveUp?
  }

  lemma MoveStepGood(rt: Rt, disk: Disk, a: Action, n: Naming)
    requires Good(rt, disk, n) && Enabled(rt, disk, a, n) && MoveAction(a)
    ensures Good(Step(rt, disk, a, n).0, Step(rt, disk, a, n).1, n)
  {
    hide Good, LookupStep, StartJob, SweepStep, CommitStep, ReleaseStep;
    match a {
      case DoReject(r) => MoveGood(rt, disk, r, Leaving, n);
      case DoWake(r) =>
        var job := rt.requests[r].pc.job;
        MoveGood(rt, disk, r, if job !in rt.results || rt.results[job] then Ready else Leaving, n);
      case DoGiveUp(r) => MoveGood(rt, disk, r, Leaving, n);
    }
  }

  lemma RequestStepGood(rt: Rt, disk: Disk, a: Action, n: Naming)
    requires Good(rt, disk, n) && Enabled(rt, disk, a, n) && RequestAction(a) && !MoveAction(a)
    ensures Good(Step(rt, disk, a, n).0, Step(rt, disk, a, n).1, n)
  {
    hide Good, LookupStep, StartJob, Respond, ReleaseHandle, SweepStep, Leave, Authorize, StopSweeper, ReserveChoice,
         RangesOver;
    match a {
      case DoAuthorize(r, archive, keyGiven) => AuthorizeGood(rt, disk, r, archive, keyGiven, n);
      case DoLookup(r, now, unreadable, faults) =>
        var (rt', disk') := LookupStep(rt, disk, r, now, unreadable, faults);
        LookupGood(rt, disk, r, now, unreadable, faults, rt', disk', n);
      case DoStartJob(r, id, now, ranges, victims, faults) =>
        var (rt', disk') := StartJob(rt, disk, r, id, now, ranges, victims, faults);
        StartJobGood(rt, disk, r, id, now, ranges, victims, faults, rt', disk', n);
      case DoRespond(r) => RespondGood(rt, disk, r, n);
      case DoReleaseHandle(r) => ReleaseHandleGood(rt, disk, r, n);
      case DoLeave(r) => LeaveGood(rt, disk, r, n);
      case DoSweep(now, ranges, faults) => SweepGood(rt, disk, now, ranges, faults, n);
      case DoStopSweeper => StopSweeperGood(rt, disk, n);
    }
  }

  lemma MakeDirStepGood(rt: Rt, disk: Disk, id: Id, p: Path, n: Naming)
    requires Good(rt, disk, n) && MayMakeDir(rt, disk, id, p)
    ensures Good(MakeDir(rt, disk, id, p).0, MakeDir(rt, disk, id, p).1, n)
  {
    hide Good;
    LoanWithoutDir(rt, disk, id, n);
    var c' := JobDirSet(rt.cache, disk, id, p);
    MakeDirGood(rt, disk, id, p, c', n);
  }

  lemma LoanWithoutDir(rt: Rt, disk: Disk, id: Id, n: Naming)
    requires Good(rt, disk, n) && id in rt.work && rt.work[id].pc == Started
    ensures id in rt.cache.loans && rt.cache.loans[id].dir == None
  {
    PlaceOf(rt, disk, id, n);
  }

  lemma JobStepGood(rt: Rt, disk: Disk, a: Action, n: Naming)
    requires Good(rt, disk, n) && Enabled(rt, disk, a, n) && !RequestAction(a) && !EndingAction(a)
    ensures Good(Step(rt, disk, a, n).0, Step(rt, disk, a, n).1, n)
  {
    hide Good, MakeDir, MayMakeDir, MayFetch, Fetch, MayExtractWrite, ExtractWrite, FinishExtraction,
         MayFinishExtraction;
    match a {
      case DoFail(id) => FailGood(rt, disk, id, n);
      case DoMakeDir(id, dir) => MakeDirStepGood(rt, disk, id, dir, n);
      case DoDownload(id, size) => DownloadGood(rt, disk, id, size, map[FileName.Archive := size], n);
      case DoFetch(id, download) => FetchGood(rt, disk, id, download, n);
      case DoExtractWrite(id, d) => ExtractWriteGood(rt, disk, id, d, n);
      case DoFinishExtraction(id, pages) => FinishExtractionGood(rt, disk, id, pages, n);
    }
  }

  lemma EndingStepGood(rt: Rt, disk: Disk, a: Action, n: Naming)
    requires Good(rt, disk, n) && Consistent(n) && Enabled(rt, disk, a, n) && EndingAction(a)
    ensures Good(Step(rt, disk, a, n).0, Step(rt, disk, a, n).1, n)
  {
    hide Good, CommitStep, ReleaseStep, FreeSlot, SetErr, DeleteJob, CloseDone, EndJob, Consistent;
    match a {
      case DoCommit(id, now, io, faults) => CommitStepGood(rt, disk, id, now, io, faults, n);
      case DoRelease(id, faults) =>
        var (rt', disk') := ReleaseStep(rt, disk, id, faults);
        ReleaseStepGood(rt, disk, id, faults, rt', disk', n);
      case DoFreeSlot(id) => FreeSlotGood(rt, disk, id, n);
      case DoSetErr(id) => SetErrGood(rt, disk, id, n);
      case DoDeleteJob(id) => DeleteJobGood(rt, disk, id, n);
      case DoCloseDone(id) => CloseDoneGood(rt, disk, id, n);
      case DoEndJob(id) => EndJobGood(rt, disk, id, n);
    }
  }

  /** Every step keeps the invariant. */
  lemma StepGood(rt: Rt, disk: Disk, a: Action, n: Naming)
    requires Good(rt, disk, n) && Consistent(n) && Enabled(rt, disk, a, n)
    ensures Good(Step(rt, disk, a, n).0, Step(rt, disk, a, n).1, n)
  {
    hide Good, Consistent, Enabled, Step;
    if MoveAction(a) {
      MoveStepGood(rt, disk, a, n);
    } else if RequestAction(a) {
      RequestStepGood(rt, disk, a, n);
    } else if EndingAction(a) {
      EndingStepGood(rt, disk, a, n);
    } else {
      JobStepGood(rt, disk, a, n);
    }
  }
}
