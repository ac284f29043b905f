/**
 Closing a runtime cannot hang on its wait group: once it is stopping, whatever requests and jobs
 are under way, some actor can always take a step that brings its own end nearer, without waiting
 for upstream, for the extractor or for another actor. So `wg.Wait` can always come to its end.
 */
module Draining {
  import opened Sums
  import opened CacheModel
  import opened Runtime
  import opened RuntimeInvariant
  import opened JobEnding
  import opened RuntimeHistory

  // ----- How far an actor is from its end -----

  function ReqRank(pc: ReqPc): nat {
    match pc
    case Leaving => 1
    case Responded => 2
    case Holding => 3
    case _ => 4
  }

  function JobRank(pc: JobPc): nat {
    match pc
    case DoneClosed => 1
    case Deleted => 2
    case ErrSet => 3
    case SlotFreed(_) => 4
    case Released(_) => 5
    case Unwinding(_) => 6
    case _ => 7
  }

  function ReqRanks(requests: map<Id, Req>): map<Id, int> {
    map r | r in requests :: ReqRank(requests[r].pc)
  }

  function JobRanks(work: map<Id, Job>): map<Id, int> {
    map i | i in work :: JobRank(work[i].pc)
  }

  ghost function Rank(rt: Rt): int {
    Sum(ReqRanks(rt.requests)) + Sum(JobRanks(rt.work)) + if rt.sweeping then 1 else 0
  }

  lemma RankNonNegative(rt: Rt)
    ensures Rank(rt) >= 0
  {
    SumNonNegative(ReqRanks(rt.requests));
    SumNonNegative(JobRanks(rt.work));
  }

  lemma ReqRankFalls(rt: Rt, rt': Rt, r: Id, pc: ReqPc)
    requires r in rt.requests && rt'.requests == rt.requests[r := rt.requests[r].(pc := pc)]
    requires rt'.work == rt.work && rt'.sweeping == rt.sweeping && ReqRank(pc) < ReqRank(rt.requests[r].pc)
    ensures Rank(rt') < Rank(rt)
  {
    assert ReqRanks(rt'.requests) == ReqRanks(rt.requests)[r := ReqRank(pc)];
    SumUpdate(ReqRanks(rt.requests), r, ReqRank(pc));
  }

  lemma JobRankFalls(rt: Rt, rt': Rt, id: Id, pc: JobPc)
    requires id in rt.work && rt'.work == rt.work[id := rt.work[id].(pc := pc)]
    requires rt'.requests == rt.requests && rt'.sweeping == rt.sweeping && JobRank(pc) < JobRank(rt.work[id].pc)
    ensures Rank(rt') < Rank(rt)
  {
    assert JobRanks(rt'.work) == JobRanks(rt.work)[id := JobRank(pc)];
    SumUpdate(JobRanks(rt.work), id, JobRank(pc));
  }

  lemma LeaveRankFalls(rt: Rt, r: Id)
    requires r in rt.requests
    ensures Rank(Leave(rt, r)) < Rank(rt)
  {
    assert ReqRanks(rt.requests - {r}) == ReqRanks(rt.requests) - {r};
    SumRemove(ReqRanks(rt.requests), r);
  }

  lemma EndRankFalls(rt: Rt, id: Id)
    requires id in rt.work
    ensures Rank(EndJob(rt, id)) < Rank(rt)
  {
    assert JobRanks(rt.work - {id}) == JobRanks(rt.work) - {id};
    SumRemove(JobRanks(rt.work), id);
  }

  // ----- The step that each actor can take -----

  lemma {:induction false} Unused(s: set<Id>) returns (id: Id)
    ensures forall i :: i in s ==> i < id
    decreases s
  {
    id := 0;
    if s != {} {
      var x :| x in s;
      var above := Unused(s - {x});
      id := if above > x then above else x + 1;
      forall i | i in s ensures i < id {
        assert i == x || i in s - {x};
      }
    }
  }

  lemma MoveRankFalls(rt: Rt, r: Id, pc: ReqPc, c': Cache, log': seq<Event>)
    requires r in rt.requests && ReqRank(pc) < ReqRank(rt.requests[r].pc)
    ensures Rank(Move(rt, r, pc).(cache := c', log := log')) < Rank(rt)
  {
    hide Rank;
    ReqRankFalls(rt, Move(rt, r, pc).(cache := c', log := log'), r, pc);
  }

  /** A lookup, whatever its outcome, brings the request nearer to its end. */
  lemma LookupRankFalls(rt: Rt, disk: Disk, r: Id, now: int, unreadable: Unreadable, faults: Faults)
    requires r in rt.requests && rt.requests[r].pc == Ready
    ensures Rank(LookupStep(rt, disk, r, now, unreadable, faults).0) < Rank(rt)
  {
    hide Lookup, LookupStep, Rank;
    var (w', hit) := Lookup(WorldOf(rt, disk), rt.requests[r].key, now, unreadable, faults);
    LookupShape(rt, disk, r, now, unreadable, faults, w', hit, Leaving);
    if hit {
      MoveRankFalls(rt, r, Holding, w'.cache, rt.log + [HandedOut(rt.requests[r].key, now)]);
    } else {
      MoveRankFalls(rt, r, Leaving, w'.cache, rt.log);
    }
  }

  lemma StartJobRankFalls(rt: Rt, disk: Disk, r: Id, id: Id)
    requires r in rt.requests && rt.requests[r].pc == Missed && rt.stopping
    ensures Rank(StartJob(rt, disk, r, id, 0, Ranges([], []), [], map[]).0) < Rank(rt)
  {
    hide StartJob, Rank;
    StartJobNoSlot(rt, disk, r, id, 0, Ranges([], []), [], map[]);
    ReqRankFalls(rt, StartJob(rt, disk, r, id, 0, Ranges([], []), [], map[]).0, r, Leaving);
  }

  /** A request that can simply give up what it does. */
  lemma GivingUpExits(rt: Rt, disk: Disk, r: Id, n: Naming) returns (a: Action)
    requires r in rt.requests
    requires rt.requests[r].pc.Waiting? || rt.requests[r].pc.Admitted? || rt.requests[r].pc.Authorized?
    ensures Enabled(rt, disk, a, n) && Rank(Step(rt, disk, a, n).0) < Rank(rt)
  {
    hide Rank, LookupStep, StartJob, SweepStep, CommitStep, ReleaseStep;
    a := if rt.requests[r].pc.Waiting? then DoGiveUp(r) else DoReject(r);
    MoveRankFalls(rt, r, Leaving, rt.cache, rt.log);
  }

  lemma HolderExits(rt: Rt, disk: Disk, r: Id, n: Naming) returns (a: Action)
    requires r in rt.requests && Runtime.Pins(rt.requests[r])
    ensures Enabled(rt, disk, a, n) && Rank(Step(rt, disk, a, n).0) < Rank(rt)
  {
    hide Rank, LookupStep, StartJob, SweepStep, CommitStep, ReleaseStep, Unpin;
    a := DoReleaseHandle(r);
    MoveRankFalls(rt, r, Leaving, Unpin(World(rt.cache, map[]), rt.requests[r].key).cache, rt.log);
  }

  lemma MissedExits(rt: Rt, disk: Disk, r: Id, n: Naming) returns (a: Action)
    requires r in rt.requests && rt.stopping && rt.requests[r].pc == Missed
    ensures Enabled(rt, disk, a, n) && Rank(Step(rt, disk, a, n).0) < Rank(rt)
  {
    hide Rank, LookupStep, StartJob, SweepStep, CommitStep, ReleaseStep, ReserveChoice;
    var id := Unused(rt.issued);
    a := DoStartJob(r, id, 0, Ranges([], []), [], map[]);
    StartJobRankFalls(rt, disk, r, id);
  }

  lemma ReadyExits(rt: Rt, disk: Disk, r: Id, n: Naming) returns (a: Action)
    requires r in rt.requests && rt.requests[r].pc == Ready
    ensures Enabled(rt, disk, a, n) && Rank(Step(rt, disk, a, n).0) < Rank(rt)
  {
    hide Rank, LookupStep, StartJob, SweepStep, CommitStep, ReleaseStep;
    a := DoLookup(r, 0, {}, map[]);
    LookupRankFalls(rt, disk, r, 0, {}, map[]);
  }

  lemma LeavingExits(rt: Rt, disk: Disk, r: Id, n: Naming) returns (a: Action)
    requires ReqAt(rt, r, Leaving)
    ensures Enabled(rt, disk, a, n) && Rank(Step(rt, disk, a, n).0) < Rank(rt)
  {
    hide Rank, LookupStep, StartJob, SweepStep, CommitStep, ReleaseStep;
    a := DoLeave(r);
    LeaveRankFalls(rt, r);
  }

  /** Every request of a stopping runtime can go on towards its end. */
  lemma RequestExits(rt: Rt, disk: Disk, r: Id, n: Naming) returns (a: Action)
    requires r in rt.requests && rt.stopping
    ensures Enabled(rt, disk, a, n) && Rank(Step(rt, disk, a, n).0) < Rank(rt)
  {
    hide Rank, Enabled, Step;
    match rt.requests[r].pc {
      case Missed => a := MissedExits(rt, disk, r, n);
      case Ready => a := ReadyExits(rt, disk, r, n);
      case Leaving => a := LeavingExits(rt, disk, r, n);
      case Holding => a := HolderExits(rt, disk, r, n);
      case Responded => a := HolderExits(rt, disk, r, n);
      case _ => a := GivingUpExits(rt, disk, r, n);
    }
  }

  /** What a job does when it makes for its end. */
  function JobExit(pc: JobPc, id: Id): Action {
    match pc
    case Unwinding(_) => DoRelease(id, map[])
    case Released(_) => DoFreeSlot(id)
    case SlotFreed(_) => DoSetErr(id)
    case ErrSet => DoDeleteJob(id)
    case Deleted => DoCloseDone(id)
    case DoneClosed => DoEndJob(id)
    case _ => DoFail(id)
  }

  function AfterExit(pc: JobPc): JobPc {
    match pc
    case Unwinding(ok) => Released(ok)
    case Released(ok) => SlotFreed(ok)
    case SlotFreed(_) => ErrSet
    case ErrSet => Deleted
    case Deleted => DoneClosed
    case _ => Unwinding(false)
  }

  /** The job moved on; the requests and the sweeper did not. */
  ghost predicate JobMoved(rt: Rt, rt': Rt, id: Id)
    requires id in rt.work
  {
    && rt'.work == rt.work[id := rt.work[id].(pc := AfterExit(rt.work[id].pc))]
    && rt'.requests == rt.requests && rt'.sweeping == rt.sweeping
  }

  lemma FailMoves(rt: Rt, disk: Disk, id: Id, n: Naming)
    requires MayFail(rt, id)
    ensures JobMoved(rt, Step(rt, disk, DoFail(id), n).0, id)
  {
  }

  lemma ReleaseMoves(rt: Rt, disk: Disk, id: Id, n: Naming)
    requires id in rt.work && rt.work[id].pc.Unwinding?
    ensures JobMoved(rt, Step(rt, disk, DoRelease(id, map[]), n).0, id)
  {
    hide Release;
  }

  lemma SlotMoves(rt: Rt, disk: Disk, id: Id, n: Naming)
    requires id in rt.work && (rt.work[id].pc.Released? || rt.work[id].pc.SlotFreed?)
    ensures JobMoved(rt, Step(rt, disk, JobExit(rt.work[id].pc, id), n).0, id)
  {
  }

  lemma EndMoves(rt: Rt, disk: Disk, id: Id, n: Naming)
    requires id in rt.work && (rt.work[id].pc.ErrSet? || rt.work[id].pc.Deleted?)
    ensures JobMoved(rt, Step(rt, disk, JobExit(rt.work[id].pc, id), n).0, id)
  {
  }

  lemma JobExitMoves(rt: Rt, disk: Disk, id: Id, n: Naming)
    requires id in rt.work && !rt.work[id].pc.DoneClosed?
    ensures JobMoved(rt, Step(rt, disk, JobExit(rt.work[id].pc, id), n).0, id)
  {
    hide Step, JobMoved;
    match rt.work[id].pc {
      case Unwinding(_) => ReleaseMoves(rt, disk, id, n);
      case Released(_) => SlotMoves(rt, disk, id, n);
      case SlotFreed(_) => SlotMoves(rt, disk, id, n);
      case ErrSet => EndMoves(rt, disk, id, n);
      case Deleted => EndMoves(rt, disk, id, n);
      case _ => FailMoves(rt, disk, id, n);
    }
  }

  lemma JobExitEnabled(rt: Rt, disk: Disk, id: Id, n: Naming)
    requires id in rt.work
    ensures Enabled(rt, disk, JobExit(rt.work[id].pc, id), n)
  {
    hide MayStartJob, MayFetch, MayExtractWrite, MayFinishExtraction, RangesOver;
  }

  /** So can every job. */
  lemma JobExits(rt: Rt, disk: Disk, id: Id, n: Naming) returns (a: Action)
    requires id in rt.work
    ensures Enabled(rt, disk, a, n) && Rank(Step(rt, disk, a, n).0) < Rank(rt)
  {
    hide Rank, Enabled;
    a := JobExit(rt.work[id].pc, id);
    JobExitEnabled(rt, disk, id, n);
    if rt.work[id].pc.DoneClosed? {
      EndRankFalls(rt, id);
    } else {
      JobRankDrops(rt, disk, id, n);
    }
  }

  lemma JobRankDrops(rt: Rt, disk: Disk, id: Id, n: Naming)
    requires id in rt.work && !rt.work[id].pc.DoneClosed?
    ensures Rank(Step(rt, disk, JobExit(rt.work[id].pc, id), n).0) < Rank(rt)
  {
    hide Rank, Step;
    JobExitMoves(rt, disk, id, n);
    JobRankFalls(rt, Step(rt, disk, JobExit(rt.work[id].pc, id), n).0, id, AfterExit(rt.work[id].pc));
  }

  /** While the wait group of a stopping runtime is not at zero, somebody can leave it sooner. */
  lemma DrainStep(rt: Rt, disk: Disk, n: Naming) returns (a: Action)
    requires WaitGroup(rt) && rt.stopping && rt.wg != 0
    ensures Enabled(rt, disk, a, n) && Rank(Step(rt, disk, a, n).0) < Rank(rt)
  {
    hide Enabled, Step, Rank;
    if rt.requests != map[] {
      var r :| r in rt.requests;
      a := RequestExits(rt, disk, r, n);
    } else if rt.work != map[] {
      var id :| id in rt.work;
      a := JobExits(rt, disk, id, n);
    } else {
      a := SweeperExits(rt, disk, n);
    }
  }

  lemma SweeperExits(rt: Rt, disk: Disk, n: Naming) returns (a: Action)
    requires rt.stopping && rt.sweeping
    ensures Enabled(rt, disk, a, n) && Rank(Step(rt, disk, a, n).0) < Rank(rt)
  {
    a := DoStopSweeper;
  }
}
