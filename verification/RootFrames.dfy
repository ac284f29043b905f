/**
 What a step of a runtime leaves alone on the disk: everything but the plugin's directories under its
 cache directory.
 */
module RootFrames {
  import opened CacheModel
  import opened CacheProofs
  import opened CacheOperations
  import opened Runtime
  import opened RuntimeInvariant
  import opened RequestSteps
  import opened JobSteps
  import opened JobEnding
  import opened RuntimeSteps

  /** Everything but the job and entry directories under `root` is as it was. */
  ghost predicate OutsideSame(disk: Disk, disk': Disk, root: nat) {
    && (forall p :: p in disk && (p.root != root || p.kind == OtherDir) ==> p in disk' && disk'[p] == disk[p])
    && (forall p :: p in disk' && (p.root != root || p.kind == OtherDir) ==> p in disk)
  }

  lemma OutsideRefl(disk: Disk, root: nat)
    ensures OutsideSame(disk, disk, root)
  {
  }

  lemma OutsideTransitive(disk: Disk, disk': Disk, disk'': Disk, root: nat)
    requires OutsideSame(disk, disk', root) && OutsideSame(disk', disk'', root)
    ensures OutsideSame(disk, disk'', root)
  {
  }

  /** A step that only takes away takes from entries and pending directories, which are the cache's own. */
  lemma CalmOutside(w: World, w': World)
    requires Calm(w, w') && DirsThere(w.cache, w.disk)
    ensures OutsideSame(w.disk, w'.disk, w.cache.root)
  {
    assert forall p :: p in w.cache.pending ==> DirThere(w.cache, w.disk, p);
    assert forall p :: p in w.disk && (p.root != w.cache.root || p.kind == OtherDir) ==> !Exposed(w.cache, p);
  }

  lemma OneDirOutside(disk: Disk, p: Path, d: Dir, root: nat)
    requires p.root == root && p.kind != OtherDir
    ensures OutsideSame(disk, disk[p := d], root)
  {
  }

  // ----- Steps that touch neither entries nor disk -----

  predicate BookAction(a: Action) {
    a.DoReject? || a.DoAuthorize? || a.DoWake? || a.DoGiveUp? || a.DoRespond? || a.DoLeave? || a.DoStopSweeper?
    || a.DoFail? || a.DoFetch? || a.DoFinishExtraction? || a.DoFreeSlot? || a.DoSetErr? || a.DoDeleteJob?
    || a.DoCloseDone? || a.DoEndJob?
  }

  lemma MoveBookWorld(rt: Rt, disk: Disk, a: Action, n: Naming)
    requires a.DoReject? || a.DoAuthorize? || a.DoGiveUp?
    ensures var s := Step(rt, disk, a, n);
            s.0.cache == rt.cache && s.1 == disk
  {
    hide JobTo, Fetch, Download, ExtractWrite, FinishExtraction, FreeSlot, SetErr, DeleteJob, CloseDone, EndJob, Leave,
         LookupStep, StartJob, SweepStep, CommitStep, ReleaseStep, MakeDir, ReleaseHandle;
  }

  lemma WakeBookWorld(rt: Rt, disk: Disk, a: Action, n: Naming)
    requires a.DoWake?
    ensures var s := Step(rt, disk, a, n);
            s.0.cache == rt.cache && s.1 == disk
  {
    hide LookupStep, StartJob, SweepStep, CommitStep, ReleaseStep, MakeDir, ReleaseHandle, Respond, Leave;
  }

  lemma RespondCache(rt: Rt, r: Id)
    requires r in rt.requests
    ensures Respond(rt, r).cache == rt.cache
  {
  }

  lemma RespondBookWorld(rt: Rt, disk: Disk, a: Action, n: Naming)
    requires a.DoRespond?
    ensures var s := Step(rt, disk, a, n);
            s.0.cache == rt.cache && s.1 == disk
  {
    hide LookupStep, StartJob, SweepStep, CommitStep, ReleaseStep, MakeDir, ReleaseHandle, Wake, Leave, Respond;
    if a.r in rt.requests {
      RespondCache(rt, a.r);
    }
  }

  lemma RequestBookWorld(rt: Rt, disk: Disk, a: Action, n: Naming)
    requires a.DoLeave? || a.DoStopSweeper?
    ensures var s := Step(rt, disk, a, n);
            s.0.cache == rt.cache && s.1 == disk
  {
    hide LookupStep, StartJob, SweepStep, CommitStep, ReleaseStep, MakeDir, ReleaseHandle;
  }

  lemma JobBookWorld(rt: Rt, disk: Disk, a: Action, n: Naming)
    requires BookAction(a) && !RequestAction(a)
    ensures var s := Step(rt, disk, a, n);
            s.0.cache == rt.cache && s.1 == disk
  {
    hide LookupStep, StartJob, SweepStep, CommitStep, ReleaseStep, MakeDir, ReleaseHandle;
  }

  lemma BookWorld(rt: Rt, disk: Disk, a: Action, n: Naming)
    requires BookAction(a)
    ensures var s := Step(rt, disk, a, n);
            s.0.cache == rt.cache && s.1 == disk
  {
    hide Step;
    if a.DoLeave? || a.DoStopSweeper? {
      RequestBookWorld(rt, disk, a, n);
    } else if a.DoWake? {
      WakeBookWorld(rt, disk, a, n);
    } else if a.DoRespond? {
      RespondBookWorld(rt, disk, a, n);
    } else if RequestAction(a) {
      MoveBookWorld(rt, disk, a, n);
    } else {
      JobBookWorld(rt, disk, a, n);
    }
  }

  // ----- Steps that touch the disk -----

  /** A job's directory is one of the plugin's job directories under its cache directory. */
  lemma JobDirOwned(rt: Rt, disk: Disk, id: Id, n: Naming)
    requires Good(rt, disk, n) && id in rt.work
    ensures rt.work[id].pc.HasDir? || rt.work[id].pc.Fetched? || rt.work[id].pc.Extracted? ==>
              rt.work[id].pc.dir.kind == JobDir && rt.work[id].pc.dir.root == rt.cache.root
  {
    if HoldsLoan(rt.work[id].pc) {
      PlaceOf(rt, disk, id, n);
    }
  }

  lemma LookupStepWorld(rt: Rt, disk: Disk, r: Id, now: int, unreadable: Unreadable, faults: Faults)
    requires r in rt.requests
    ensures var s := LookupStep(rt, disk, r, now, unreadable, faults);
            WorldOf(s.0, s.1) == Lookup(WorldOf(rt, disk), rt.requests[r].key, now, unreadable, faults).0
  {
    hide Lookup;
  }

  lemma LookupOutside(rt: Rt, disk: Disk, r: Id, now: int, unreadable: Unreadable, faults: Faults)
    requires OnDisk(rt, disk) && r in rt.requests
    ensures OutsideSame(disk, LookupStep(rt, disk, r, now, unreadable, faults).1, rt.cache.root)
  {
    hide Calm, LookupStep, Covered, PinnedIntact, FreshDirs, DirsThere, JobPlaces, OutsideSame, Ledger;
    var w, key := WorldOf(rt, disk), rt.requests[r].key;
    LookupStepWorld(rt, disk, r, now, unreadable, faults);
    OutsideRefl(disk, rt.cache.root);
    if !Lookup(w, key, now, unreadable, faults).1 {
      MissCalm(w, key, now, unreadable, faults);
      CalmOutside(w, Lookup(w, key, now, unreadable, faults).0);
    }
  }

  lemma StartJobOutside(rt: Rt, disk: Disk, r: Id, id: Id, now: int, ranges: Ranges, victims: seq<Key>, faults: Faults)
    requires OnDisk(rt, disk) && r in rt.requests
    ensures OutsideSame(disk, StartJob(rt, disk, r, id, now, ranges, victims, faults).1, rt.cache.root)
  {
    hide StartJob, Reserve, Calm, Grants, Inv, DirsThere, JobPlaces, OutsideSame;
    OutsideRefl(disk, rt.cache.root);
    if rt.stopping || rt.requests[r].key in rt.jobs || rt.slotFull {
      StartJobNoSlot(rt, disk, r, id, now, ranges, victims, faults);
    } else {
      var w, granted := ReserveCases(WorldOf(rt, disk), id, PeakBytes(rt.cfg), now, ranges, victims, faults);
      StartJobShape(rt, disk, r, id, now, ranges, victims, faults, w, granted);
      CalmOutside(WorldOf(rt, disk), w);
    }
  }

  lemma SweepOutside(rt: Rt, disk: Disk, now: int, ranges: Ranges, faults: Faults)
    requires OnDisk(rt, disk)
    ensures OutsideSame(disk, SweepStep(rt, disk, now, ranges, faults).1, rt.cache.root)
  {
    hide Sweep, Calm, Inv, DirsThere, JobPlaces, OutsideSame;
    OutsideRefl(disk, rt.cache.root);
    if !rt.cache.closed {
      SweepKeeps(WorldOf(rt, disk), ranges, now, faults);
      CalmOutside(WorldOf(rt, disk), Sweep(WorldOf(rt, disk), ranges, now, faults));
    }
  }

  lemma PublishOutside(disk: Disk, dir: Path, root: Path)
    requires dir in disk && dir.root == root.root && dir.kind != OtherDir && root.kind != OtherDir
    ensures OutsideSame(disk, Publish(disk, dir, root), root.root)
  {
  }

  lemma CalmRoot(w: World, w': World)
    requires Calm(w, w')
    ensures w'.cache.root == w.cache.root
  {
  }

  lemma CommitOutside(rt: Rt, disk: Disk, id: Id, now: int, io: CommitIo, faults: Faults)
    requires Ledger(rt.cache) && DirsThere(rt.cache, disk)
    requires id in rt.work && rt.work[id].pc.Extracted?
    requires rt.work[id].pc.dir.root == rt.cache.root && rt.work[id].pc.dir.kind == JobDir
    ensures OutsideSame(disk, CommitStep(rt, disk, id, now, io, faults).1, rt.cache.root)
  {
    hide CommitStep, Ledger, Calm, Publish, WithEntry, OutsideSame, DirsThere;
    var job, unvalidated := rt.work[id], Unvalidated(rt.work[id].archive.head);
    var w0, committed := CommitStepCases(rt, disk, id, now, io, faults);
    CalmOutside(WorldOf(rt, disk), w0);
    if committed {
      var root := EntryRoot(w0.cache, job.key);
      CalmRoot(WorldOf(rt, disk), w0);
      PublishOutside(w0.disk, job.pc.dir, root);
      OutsideTransitive(disk, w0.disk, Publish(w0.disk, job.pc.dir, root), rt.cache.root);
    }
  }

  lemma ReleaseOutside(rt: Rt, disk: Disk, id: Id, faults: Faults)
    requires id in rt.work && rt.work[id].pc.Unwinding?
    ensures OutsideSame(disk, ReleaseStep(rt, disk, id, faults).1, rt.cache.root)
  {
  }

  lemma MakeDirOutside(rt: Rt, disk: Disk, id: Id, p: Path)
    requires MayMakeDir(rt, disk, id, p)
    ensures OutsideSame(disk, MakeDir(rt, disk, id, p).1, rt.cache.root)
  {
    OneDirOutside(disk, p, map[], rt.cache.root);
  }

  lemma BookOutside(rt: Rt, disk: Disk, a: Action, n: Naming)
    requires BookAction(a) || a.DoReleaseHandle?
    ensures OutsideSame(disk, Step(rt, disk, a, n).1, rt.cache.root)
  {
    hide LookupStep, StartJob, SweepStep, CommitStep, ReleaseStep, MakeDir, ReleaseHandle;
    if BookAction(a) {
      BookWorld(rt, disk, a, n);
    }
  }

  lemma DownloadOutside(rt: Rt, disk: Disk, id: Id, size: nat, n: Naming)
    requires Good(rt, disk, n) && MayDownload(rt, id, size)
    ensures OutsideSame(disk, Download(rt, disk, id, size), rt.cache.root)
  {
    hide Good, OutsideSame;
    JobDirOwned(rt, disk, id, n);
    OneDirOutside(disk, rt.work[id].pc.dir, map[FileName.Archive := size], rt.cache.root);
  }

  lemma ExtractWriteOutside(rt: Rt, disk: Disk, id: Id, d: Dir, n: Naming)
    requires Good(rt, disk, n) && id in rt.work && rt.work[id].pc.Fetched?
    ensures OutsideSame(disk, ExtractWrite(rt, disk, id, d), rt.cache.root)
  {
    hide Good, OutsideSame;
    JobDirOwned(rt, disk, id, n);
    OneDirOutside(disk, rt.work[id].pc.dir, d, rt.cache.root);
  }

  lemma GoodDirs(rt: Rt, disk: Disk, n: Naming)
    requires Good(rt, disk, n)
    ensures OnDisk(rt, disk) && Ledger(rt.cache) && DirsThere(rt.cache, disk)
  {
  }

  /** Every step of a runtime touches only job and entry directories under its own cache directory. */
  lemma StepOutside(rt: Rt, disk: Disk, a: Action, n: Naming)
    requires Good(rt, disk, n) && Enabled(rt, disk, a, n)
    ensures OutsideSame(disk, Step(rt, disk, a, n).1, rt.cache.root)
  {
    hide Good, OutsideSame, OnDisk, LookupStep, StartJob, SweepStep, CommitStep, ReleaseStep, MakeDir, ReleaseHandle,
         ReserveChoice, RangesOver, MayFetch, MayFinishExtraction, Download, ExtractWrite, Ledger, DirsThere;
    GoodDirs(rt, disk, n);
    if BookAction(a) || a.DoReleaseHandle? {
      BookOutside(rt, disk, a, n);
    } else {
      match a {
        case DoDownload(id, size) => DownloadOutside(rt, disk, id, size, n);
        case DoExtractWrite(id, d) => ExtractWriteOutside(rt, disk, id, d, n);
        case DoCommit(id, now, io, faults) =>
          JobDirOwned(rt, disk, id, n);
          CommitOutside(rt, disk, id, now, io, faults);
        case DoLookup(r, now, unreadable, faults) => LookupOutside(rt, disk, r, now, unreadable, faults);
        case DoStartJob(r, id, now, ranges, victims, faults) => StartJobOutside(rt, disk, r, id, now, ranges, victims,
          faults);
        case DoMakeDir(id, dir) => MakeDirOutside(rt, disk, id, dir);
        case DoRelease(id, faults) => ReleaseOutside(rt, disk, id, faults);
        case DoSweep(now, ranges, faults) => SweepOutside(rt, disk, now, ranges, faults);
      }
    }
  }
}
