/**
 What a handle and a result promise across every step of every actor: the entry under a handle
 stays as it is, in the books and on disk, and the outcome of a job reaches its waiters unchanged.
 */
module HeldEntries {
  import opened Options
  import opened Fingerprint
  import opened CacheModel
  import opened CacheProofs
  import opened CacheOperations
  import opened CacheProperties
  import opened Runtime
  import opened RuntimeInvariant
  import opened RequestSteps
  import opened JobEnding
  import opened RuntimeSteps
  import opened RuntimeHistory
  import opened RootFrames

  // ----- Held entries -----

  ghost predicate HeldIn(c: Cache, k: Key) {
    k in c.entries && c.entries[k].active > 0
  }

  /** The entry kept its directory, its pages and its deadline, its files are untouched, and it is not un-retired. */
  ghost predicate Undisturbed(w: World, w': World, k: Key)
    requires k in w.cache.entries
  {
    && k in w'.cache.entries
    && var e, e' := w.cache.entries[k], w'.cache.entries[k];
       && e'.root == e.root && e'.pages == e.pages && e'.total == e.total && e'.expiresAt == e.expiresAt
       && (e.retired ==> e'.retired)
       && (e.root in w.disk ==> e.root in w'.disk && w'.disk[e.root] == w.disk[e.root])
  }

  lemma CalmUndisturbed(w: World, w': World, k: Key)
    requires Inv(w) && Calm(w, w') && HeldIn(w.cache, k)
    ensures Undisturbed(w, w', k) && HeldIn(w'.cache, k)
  {
    hide Inv, PagesOnDisk;
    PinnedEntryStays(w, w', k);
    assert SameOrRetired(w.cache.entries[k], w'.cache.entries[k]);
  }

  lemma LookupUndisturbed(w: World, key: Key, now: int, unreadable: Unreadable, faults: Faults, k: Key)
    requires Inv(w) && HeldIn(w.cache, k)
    ensures Undisturbed(w, Lookup(w, key, now, unreadable, faults).0, k)
  {
    hide Calm, Ledger, Covered, PinnedIntact, FreshDirs, PagesOnDisk, Expired;
    if !Lookup(w, key, now, unreadable, faults).1 {
      MissCalm(w, key, now, unreadable, faults);
      CalmUndisturbed(w, Lookup(w, key, now, unreadable, faults).0, k);
    }
  }

  lemma LookupStepUndisturbed(rt: Rt, disk: Disk, r: Id, now: int, unreadable: Unreadable, faults: Faults, k: Key)
    requires Inv(WorldOf(rt, disk)) && r in rt.requests && HeldIn(rt.cache, k)
    ensures Undisturbed(WorldOf(rt, disk),
                        WorldOf(LookupStep(rt, disk, r, now, unreadable, faults).0,
                            LookupStep(rt, disk, r, now, unreadable, faults).1), k)
  {
    hide Lookup, LookupStep, Inv, Undisturbed;
    LookupStepWorld(rt, disk, r, now, unreadable, faults);
    LookupUndisturbed(WorldOf(rt, disk), rt.requests[r].key, now, unreadable, faults, k);
  }

  lemma GrantUndisturbed(w: World, w': World, id: Id, bytes: int, granted: bool, k: Key)
    requires Inv(w) && Calm(w, w') && HeldIn(w.cache, k)
    ensures Undisturbed(w, if granted then w'.(cache := AddLoan(w'.cache, id, bytes)) else w', k)
  {
    hide Inv, Calm;
    CalmUndisturbed(w, w', k);
  }

  lemma StartJobUndisturbed(rt: Rt, disk: Disk, r: Id, id: Id, now: int, ranges: Ranges, victims: seq<Key>,
                            faults: Faults, k: Key)
    requires Inv(WorldOf(rt, disk)) && r in rt.requests && HeldIn(rt.cache, k)
    ensures var s := StartJob(rt, disk, r, id, now, ranges, victims, faults);
            Undisturbed(WorldOf(rt, disk), WorldOf(s.0, s.1), k)
  {
    hide StartJob, Reserve, Inv, Calm, Grants;
    if rt.stopping || rt.requests[r].key in rt.jobs || rt.slotFull {
      StartJobNoSlot(rt, disk, r, id, now, ranges, victims, faults);
    } else {
      var w, granted := ReserveCases(WorldOf(rt, disk), id, PeakBytes(rt.cfg), now, ranges, victims, faults);
      StartJobShape(rt, disk, r, id, now, ranges, victims, faults, w, granted);
      GrantUndisturbed(WorldOf(rt, disk), w, id, PeakBytes(rt.cfg), granted, k);
    }
  }

  lemma SweepUndisturbed(rt: Rt, disk: Disk, now: int, ranges: Ranges, faults: Faults, k: Key)
    requires Inv(WorldOf(rt, disk)) && HeldIn(rt.cache, k)
    ensures var s := SweepStep(rt, disk, now, ranges, faults);
            Undisturbed(WorldOf(rt, disk), WorldOf(s.0, s.1), k)
  {
    hide Sweep, Inv, Calm, Ledger;
    if !rt.cache.closed {
      SweepKeeps(WorldOf(rt, disk), ranges, now, faults);
      CalmUndisturbed(WorldOf(rt, disk), Sweep(WorldOf(rt, disk), ranges, now, faults), k);
    }
  }

  /** A step that changes at most one directory, which is a job's, and no entry. */
  lemma JobDirUndisturbed(w: World, w': World, p: Path, k: Key)
    requires Ledger(w.cache) && HeldIn(w.cache, k) && w'.cache.entries == w.cache.entries && p.kind == JobDir
    requires w'.disk == w.disk || w'.disk == w.disk - {p} || (p in w'.disk && w'.disk == w.disk[p := w'.disk[p]])
    ensures Undisturbed(w, w', k)
  {
    assert SoundEntry(w.cache, k, w.cache.entries[k]);
  }

  lemma PublishUndisturbed(w: World, id: Id, key: Key, e: Entry, dir: Path, pages: seq<PageRef>, k: Key)
    requires Ledger(w.cache) && HeldIn(w.cache, k) && NewEntryFits(w.cache, id, key, e, pages)
    requires dir in w.disk && dir.kind == JobDir
    ensures Undisturbed(w, World(WithEntry(w.cache, id, key, e), Publish(w.disk, dir, e.root)), k)
  {
    assert SoundEntry(w.cache, k, w.cache.entries[k]);
  }

  lemma UndisturbedTransitive(w: World, w': World, w'': World, k: Key)
    requires k in w.cache.entries && Undisturbed(w, w', k) && Undisturbed(w', w'', k)
    ensures Undisturbed(w, w'', k)
  {
  }

  lemma CommitUndisturbed(rt: Rt, disk: Disk, id: Id, now: int, io: CommitIo, faults: Faults, k: Key)
    requires Inv(WorldOf(rt, disk)) && id in rt.work && rt.work[id].pc.Extracted? && rt.work[id].pc.dir.kind == JobDir
    requires HeldIn(rt.cache, k)
    ensures var s := CommitStep(rt, disk, id, now, io, faults);
            Undisturbed(WorldOf(rt, disk), WorldOf(s.0, s.1), k)
  {
    hide CommitStep, Ledger, Calm, NewEntryFits, Publish, WithEntry, NewEntry, Undisturbed, Covered, PinnedIntact,
         FreshDirs;
    var job, unvalidated := rt.work[id], Unvalidated(rt.work[id].archive.head);
    var w0, committed := CommitStepCases(rt, disk, id, now, io, faults);
    CalmUndisturbed(WorldOf(rt, disk), w0, k);
    if committed {
      var e := NewEntry(w0.cache, job.key, unvalidated, job.pc.pages, now);
      PublishUndisturbed(w0, id, job.key, e, job.pc.dir, job.pc.pages, k);
      UndisturbedTransitive(WorldOf(rt, disk), w0,
                            World(WithEntry(w0.cache, id, job.key, e), Publish(w0.disk, job.pc.dir, e.root)), k);
    }
  }

  lemma ReleaseUndisturbed(rt: Rt, disk: Disk, id: Id, faults: Faults, k: Key)
    requires Ledger(rt.cache) && id in rt.work && rt.work[id].pc.Unwinding? && HeldIn(rt.cache, k)
    ensures var s := ReleaseStep(rt, disk, id, faults);
            Undisturbed(WorldOf(rt, disk), WorldOf(s.0, s.1), k)
  {
    hide Ledger;
    var w' := Release(WorldOf(rt, disk), id, faults);
    if id in rt.cache.loans && rt.cache.loans[id].dir.Some? && Owned(rt.cache, rt.cache.loans[id].dir.value, JobDir) {
      JobDirUndisturbed(WorldOf(rt, disk), w', rt.cache.loans[id].dir.value, k);
    }
  }

  lemma DownloadUndisturbed(rt: Rt, disk: Disk, id: Id, d: Dir, dir: Path, k: Key)
    requires Ledger(rt.cache) && HeldIn(rt.cache, k) && dir.kind == JobDir
    ensures Undisturbed(WorldOf(rt, disk), WorldOf(rt, disk[dir := d]), k)
  {
    hide Ledger;
    JobDirUndisturbed(WorldOf(rt, disk), WorldOf(rt, disk[dir := d]), dir, k);
  }

  lemma MakeDirUndisturbed(rt: Rt, disk: Disk, id: Id, p: Path, k: Key)
    requires Ledger(rt.cache) && HeldIn(rt.cache, k) && MayMakeDir(rt, disk, id, p)
    ensures Undisturbed(WorldOf(rt, disk), WorldOf(MakeDir(rt, disk, id, p).0, MakeDir(rt, disk, id, p).1), k)
  {
    hide Ledger;
    var s := MakeDir(rt, disk, id, p);
    JobDirUndisturbed(WorldOf(rt, disk), WorldOf(s.0, s.1), p, k);
  }

  lemma ReleaseHandleUndisturbed(rt: Rt, disk: Disk, r: Id, k: Key)
    requires r in rt.requests && k in rt.cache.entries
    ensures Undisturbed(WorldOf(rt, disk), WorldOf(ReleaseHandle(rt, r), disk), k)
  {
  }

  /** No step of any actor disturbs an entry under a handle. */
  lemma HeldEntryStays(rt: Rt, disk: Disk, a: Action, n: Naming, k: Key)
    requires Good(rt, disk, n) && Enabled(rt, disk, a, n) && HeldIn(rt.cache, k)
    ensures Undisturbed(WorldOf(rt, disk), WorldOf(Step(rt, disk, a, n).0, Step(rt, disk, a, n).1), k)
  {
    hide Good, Undisturbed, Inv, Ledger, LookupStep, StartJob, SweepStep, CommitStep, ReleaseStep, MakeDir,
         ReleaseHandle,
         ReserveChoice, RangesOver, MayFetch, MayFinishExtraction;
    GoodWorld(rt, disk, n);
    if BookAction(a) {
      BookStays(rt, disk, a, n, k);
    } else if a.DoCommit? || a.DoDownload? || a.DoExtractWrite? {
      WritingStays(rt, disk, a, n, k);
    } else {
      match a {
        case DoLookup(r, now, unreadable, faults) => LookupStepUndisturbed(rt, disk, r, now, unreadable, faults, k);
        case DoStartJob(r, id, now, ranges, victims, faults) =>
          StartJobUndisturbed(rt, disk, r, id, now, ranges, victims, faults, k);
        case DoReleaseHandle(r) => ReleaseHandleUndisturbed(rt, disk, r, k);
        case DoMakeDir(id, dir) => MakeDirUndisturbed(rt, disk, id, dir, k);
        case DoRelease(id, faults) => ReleaseUndisturbed(rt, disk, id, faults, k);
        case DoSweep(now, ranges, faults) => SweepUndisturbed(rt, disk, now, ranges, faults, k);
      }
    }
  }

  lemma GoodWorld(rt: Rt, disk: Disk, n: Naming)
    requires Good(rt, disk, n)
    ensures Inv(WorldOf(rt, disk)) && Ledger(rt.cache)
  {
  }

  lemma BookStays(rt: Rt, disk: Disk, a: Action, n: Naming, k: Key)
    requires BookAction(a) && k in rt.cache.entries
    ensures Undisturbed(WorldOf(rt, disk), WorldOf(Step(rt, disk, a, n).0, Step(rt, disk, a, n).1), k)
  {
    hide Step;
    BookWorld(rt, disk, a, n);
  }

  lemma WritingStays(rt: Rt, disk: Disk, a: Action, n: Naming, k: Key)
    requires Good(rt, disk, n) && Enabled(rt, disk, a, n) && (a.DoCommit? || a.DoDownload? || a.DoExtractWrite?)
    requires HeldIn(rt.cache, k)
    ensures Undisturbed(WorldOf(rt, disk), WorldOf(Step(rt, disk, a, n).0, Step(rt, disk, a, n).1), k)
  {
    hide Good, Undisturbed, Inv, Ledger, LookupStep, StartJob, SweepStep, CommitStep, ReleaseStep, MakeDir,
         ReleaseHandle;
    GoodWorld(rt, disk, n);
    JobDirOwned(rt, disk, a.id, n);
    match a {
      case DoCommit(id, now, io, faults) => CommitUndisturbed(rt, disk, id, now, io, faults, k);
      case DoDownload(id, size) => DownloadUndisturbed(rt, disk, id, map[FileName.Archive := size],
        rt.work[id].pc.dir, k);
      case DoExtractWrite(id, d) => DownloadUndisturbed(rt, disk, id, d, rt.work[id].pc.dir, k);
    }
  }

  // ----- Retirement -----

  /** No entry under k that could be handed out: it is absent or retired. */
  ghost predicate NotLive(c: Cache, k: Key) {
    k in c.entries ==> c.entries[k].retired
  }

  /** Without a publication of k among the new events, k does not come to life and is not handed out. */
  ghost predicate StaysRetired(rt: Rt, rt': Rt, k: Key) {
    && |rt.log| <= |rt'.log| && rt'.log[..|rt.log|] == rt.log
    && (Unpublished(rt'.log[|rt.log|..], k) ==> NotLive(rt'.cache, k) && NotHandedOut(rt'.log[|rt.log|..], k))
  }

  ghost predicate Unpublished(log: seq<Event>, k: Key) {
    forall i :: 0 <= i < |log| ==> !(log[i].Published? && log[i].key == k)
  }

  ghost predicate NotHandedOut(log: seq<Event>, k: Key) {
    forall i :: 0 <= i < |log| ==> !(log[i].HandedOut? && log[i].key == k)
  }

  /** A step that logs at most an answer, and leaves every entry absent, retired or as it was. */
  lemma QuietRetired(rt: Rt, rt': Rt, k: Key)
    requires NotLive(rt'.cache, k)
    requires rt'.log == rt.log || (|rt'.log| == |rt.log| + 1 && rt'.log[..|rt.log|] == rt.log
             && rt'.log[|rt.log|].Served?)
    ensures StaysRetired(rt, rt', k)
  {
    if rt'.log == rt.log {
      assert rt'.log[|rt.log|..] == [];
    } else {
      assert rt'.log[|rt.log|..] == [rt'.log[|rt.log|]];
    }
  }

  lemma CalmNotLive(w: World, w': World, k: Key)
    requires Calm(w, w') && NotLive(w.cache, k)
    ensures NotLive(w'.cache, k)
  {
    if k in w'.cache.entries {
      assert SameOrRetired(w.cache.entries[k], w'.cache.entries[k]);
    }
  }

  /** A hit is on a live entry, so not on k. */
  lemma HitRetired(rt: Rt, r: Id, c': Cache, now: int, k: Key)
    requires r in rt.requests && rt.requests[r].key != k && NotLive(c', k)
    ensures StaysRetired(rt, Move(rt, r, Holding).(cache := c', log := rt.log + [HandedOut(rt.requests[r].key, now)]),
            k)
  {
    var e := HandedOut(rt.requests[r].key, now);
    assert (rt.log + [e])[|rt.log|..] == [e];
  }

  lemma MissRetired(rt: Rt, r: Id, pc: ReqPc, c': Cache, k: Key)
    requires r in rt.requests && NotLive(c', k)
    ensures StaysRetired(rt, Move(rt, r, pc).(cache := c'), k)
  {
    hide StaysRetired;
    QuietRetired(rt, Move(rt, r, pc).(cache := c'), k);
  }

  /** A lookup never brings a retired entry back, and never hands it out. */
  lemma LookupNotLive(w: World, key: Key, now: int, unreadable: Unreadable, faults: Faults, k: Key)
    requires Ledger(w.cache) && NotLive(w.cache, k)
    ensures NotLive(Lookup(w, key, now, unreadable, faults).0.cache, k)
    ensures Lookup(w, key, now, unreadable, faults).1 ==> key != k
  {
    hide Ledger, Calm, PagesOnDisk, Expired, Remove;
    if !Lookup(w, key, now, unreadable, faults).1 {
      MissCalm(w, key, now, unreadable, faults);
      CalmNotLive(w, Lookup(w, key, now, unreadable, faults).0, k);
    }
  }

  lemma LookupRetired(rt: Rt, disk: Disk, r: Id, now: int, unreadable: Unreadable, faults: Faults, k: Key)
    requires Ledger(rt.cache) && r in rt.requests && NotLive(rt.cache, k)
    ensures StaysRetired(rt, LookupStep(rt, disk, r, now, unreadable, faults).0, k)
  {
    hide Ledger, Lookup, LookupStep, StaysRetired, NotLive;
    var (w', hit) := Lookup(WorldOf(rt, disk), rt.requests[r].key, now, unreadable, faults);
    var pc := if rt.requests[r].pc == Authorized && !rt.requests[r].keyGiven then Missed else Leaving;
    LookupShape(rt, disk, r, now, unreadable, faults, w', hit, pc);
    LookupNotLive(WorldOf(rt, disk), rt.requests[r].key, now, unreadable, faults, k);
    if hit {
      HitRetired(rt, r, w'.cache, now, k);
    } else {
      MissRetired(rt, r, pc, w'.cache, k);
    }
  }

  lemma StartJobRetired(rt: Rt, disk: Disk, r: Id, id: Id, now: int, ranges: Ranges, victims: seq<Key>,
                        faults: Faults, k: Key)
    requires Inv(WorldOf(rt, disk)) && r in rt.requests && NotLive(rt.cache, k)
    ensures StaysRetired(rt, StartJob(rt, disk, r, id, now, ranges, victims, faults).0, k)
  {
    hide StartJob, Reserve, Inv, Calm, Grants, StaysRetired;
    if rt.stopping || rt.requests[r].key in rt.jobs || rt.slotFull {
      StartJobNoSlot(rt, disk, r, id, now, ranges, victims, faults);
    } else {
      var w, granted := ReserveCases(WorldOf(rt, disk), id, PeakBytes(rt.cfg), now, ranges, victims, faults);
      StartJobShape(rt, disk, r, id, now, ranges, victims, faults, w, granted);
      CalmNotLive(WorldOf(rt, disk), w, k);
    }
    QuietRetired(rt, StartJob(rt, disk, r, id, now, ranges, victims, faults).0, k);
  }

  lemma SweepRetired(rt: Rt, disk: Disk, now: int, ranges: Ranges, faults: Faults, k: Key)
    requires Ledger(rt.cache) && NotLive(rt.cache, k)
    ensures StaysRetired(rt, SweepStep(rt, disk, now, ranges, faults).0, k)
  {
    hide Sweep, Calm, Ledger, StaysRetired;
    if !rt.cache.closed {
      SweepCalm(WorldOf(rt, disk), ranges, now, faults);
      CalmNotLive(WorldOf(rt, disk), Sweep(WorldOf(rt, disk), ranges, now, faults), k);
    }
    QuietRetired(rt, SweepStep(rt, disk, now, ranges, faults).0, k);
  }

  /** A publication replaces the entry under its own key, and no other. */
  lemma PublicationRetired(rt: Rt, rt': Rt, id: Id, e: Entry, at: int, unvalidated: bool, k: Key)
    requires id in rt.work && rt.work[id].pc.Extracted? && NotLive(rt.cache, k)
    requires rt' == AfterCommit(rt, id, e, at, unvalidated)
    ensures StaysRetired(rt, rt', k)
  {
    var event := Published(rt.work[id].key, at, unvalidated, rt.work[id].pc.got);
    assert rt'.log[|rt.log|..] == [event];
    assert rt'.log[|rt.log|..][0] == event;
  }

  /** Only the log counts of the state before. */
  lemma RetiredFrom(rt: Rt, rt0: Rt, rt': Rt, k: Key)
    requires rt0.log == rt.log && StaysRetired(rt0, rt', k)
    ensures StaysRetired(rt, rt', k)
  {
  }

  lemma CommitRetired(rt: Rt, disk: Disk, id: Id, now: int, io: CommitIo, faults: Faults, k: Key)
    requires Ledger(rt.cache) && id in rt.work && rt.work[id].pc.Extracted? && NotLive(rt.cache, k)
    ensures StaysRetired(rt, CommitStep(rt, disk, id, now, io, faults).0, k)
  {
    hide CommitStep, Ledger, Calm, NewEntryFits, Publish, NewEntry, AfterCommit, StaysRetired, NotLive;
    var job, unvalidated := rt.work[id], Unvalidated(rt.work[id].archive.head);
    var w0, committed := CommitStepCases(rt, disk, id, now, io, faults);
    CalmNotLive(WorldOf(rt, disk), w0, k);
    if committed {
      var rt0, e := rt.(cache := w0.cache), NewEntry(w0.cache, job.key, unvalidated, job.pc.pages, now);
      PublicationRetired(rt0, AfterCommit(rt0, id, e, now, unvalidated), id, e, now, unvalidated, k);
      RetiredFrom(rt, rt0, AfterCommit(rt0, id, e, now, unvalidated), k);
    } else {
      QuietRetired(rt, JobTo(rt, id, Unwinding(false)).(cache := w0.cache), k);
    }
  }

  /** The steps that change no entry, unless its handle count, and log at most an answer. */
  predicate PlainAction(a: Action) {
    !a.DoLookup? && !a.DoStartJob? && !a.DoSweep? && !a.DoCommit?
  }

  lemma AnswerRetired(rt: Rt, r: Id, k: Key)
    requires r in rt.requests && NotLive(rt.cache, k)
    ensures StaysRetired(rt, Respond(rt, r), k)
  {
    hide StaysRetired;
    QuietRetired(rt, Respond(rt, r), k);
  }

  lemma PlainRequestRetired(rt: Rt, disk: Disk, a: Action, n: Naming, k: Key)
    requires PlainAction(a) && RequestAction(a) && !a.DoRespond? && NotLive(rt.cache, k)
    ensures StaysRetired(rt, Step(rt, disk, a, n).0, k)
  {
    hide StaysRetired, LookupStep, StartJob, SweepStep, CommitStep, ReleaseStep, Respond;
    QuietRetired(rt, Step(rt, disk, a, n).0, k);
  }

  lemma PlainJobRetired(rt: Rt, disk: Disk, a: Action, n: Naming, k: Key)
    requires PlainAction(a) && !RequestAction(a) && NotLive(rt.cache, k)
    ensures StaysRetired(rt, Step(rt, disk, a, n).0, k)
  {
    hide StaysRetired, LookupStep, StartJob, SweepStep, CommitStep, Respond;
    QuietRetired(rt, Step(rt, disk, a, n).0, k);
  }

  /**
   A retired entry, held or not, stays retired until it is removed; only a publication of its key
   brings the key back.
   */
  lemma RetiredEntryStays(rt: Rt, disk: Disk, a: Action, n: Naming, k: Key)
    requires Good(rt, disk, n) && Enabled(rt, disk, a, n) && NotLive(rt.cache, k)
    ensures StaysRetired(rt, Step(rt, disk, a, n).0, k)
  {
    hide Good, Inv, Ledger, Step, Enabled, StaysRetired, NotLive;
    GoodWorld(rt, disk, n);
    if PlainAction(a) && !a.DoRespond? {
      PlainStepRetired(rt, disk, a, n, k);
    } else {
      BusyStepRetired(rt, disk, a, n, k);
    }
  }

  /** The steps that look up, start, sweep, commit or answer. */
  lemma BusyStepRetired(rt: Rt, disk: Disk, a: Action, n: Naming, k: Key)
    requires Inv(WorldOf(rt, disk)) && Ledger(rt.cache) && Enabled(rt, disk, a, n) && NotLive(rt.cache, k)
    requires !PlainAction(a) || a.DoRespond?
    ensures StaysRetired(rt, Step(rt, disk, a, n).0, k)
  {
    hide Inv, Ledger, LookupStep, StartJob, SweepStep, CommitStep, ReleaseStep, Respond, StaysRetired, NotLive,
         ReserveChoice, RangesOver;
    match a {
      case DoLookup(r, now, unreadable, faults) => LookupRetired(rt, disk, r, now, unreadable, faults, k);
      case DoStartJob(r, id, now, ranges, victims, faults) => StartJobRetired(rt, disk, r, id, now, ranges, victims,
        faults, k);
      case DoSweep(now, ranges, faults) => SweepRetired(rt, disk, now, ranges, faults, k);
      case DoCommit(id, now, io, faults) => CommitRetired(rt, disk, id, now, io, faults, k);
      case DoRespond(r) => AnswerRetired(rt, r, k);
    }
  }

  lemma PlainStepRetired(rt: Rt, disk: Disk, a: Action, n: Naming, k: Key)
    requires PlainAction(a) && !a.DoRespond? && NotLive(rt.cache, k)
    ensures StaysRetired(rt, Step(rt, disk, a, n).0, k)
  {
    hide Step, StaysRetired, NotLive;
    if RequestAction(a) {
      PlainRequestRetired(rt, disk, a, n, k);
    } else {
      PlainJobRetired(rt, disk, a, n, k);
    }
  }

  // ----- Outcomes -----

  /** How a job has ended: from the return of extractJob on, and for good once the result is assigned. */
  function Outcome(rt: Rt, id: Id): Option<bool> {
    if id in rt.results then Some(rt.results[id])
    else if id in rt.work then
      match rt.work[id].pc
      case Unwinding(ok) => Some(ok)
      case Released(ok) => Some(ok)
      case SlotFreed(ok) => Some(ok)
      case _ => None
    else None
  }

  /** The state after a commit shows its outcome: a publication, or none. */
  ghost predicate ShowsOutcome(rt: Rt, rt': Rt, id: Id, e: Event)
    requires id in rt.work && rt.work[id].pc.Extracted?
  {
    match Outcome(rt', id)
    case Some(true) =>
      rt'.log == rt.log + [e] && rt.work[id].key in rt'.cache.entries
      && rt'.origins == rt.origins[rt.work[id].key := rt.work[id].pc.got]
    case Some(false) => rt'.log == rt.log && rt'.origins == rt.origins
    case None => false
  }

  lemma CommittedShows(rt: Rt, c: Cache, id: Id, e: Entry, at: int, unvalidated: bool)
    requires id in rt.work && rt.work[id].pc.Extracted? && id !in rt.results
    requires NewEntryFits(c, id, rt.work[id].key, e, rt.work[id].pc.pages)
    ensures ShowsOutcome(rt, AfterCommit(rt.(cache := c), id, e, at, unvalidated), id,
            Published(rt.work[id].key, at, unvalidated, rt.work[id].pc.got))
  {
    hide WellFormedKey, Sizes;
  }

  lemma RefusedShows(rt: Rt, c: Cache, id: Id, e: Event)
    requires id in rt.work && rt.work[id].pc.Extracted? && id !in rt.results
    ensures ShowsOutcome(rt, JobTo(rt, id, Unwinding(false)).(cache := c), id, e)
  {
  }

  /** A job succeeds exactly when its commit does: then the publication is logged. */
  lemma OutcomeOfCommit(rt: Rt, disk: Disk, id: Id, now: int, io: CommitIo, faults: Faults)
    requires Ledger(rt.cache) && id in rt.work && rt.work[id].pc.Extracted? && id !in rt.results
    ensures ShowsOutcome(rt, CommitStep(rt, disk, id, now, io, faults).0, id,
                         Published(rt.work[id].key, now, Unvalidated(rt.work[id].archive.head), rt.work[id].pc.got))
  {
    hide CommitStep, Ledger, Calm, NewEntryFits, Publish, NewEntry, ShowsOutcome, AfterCommit;
    var job, unvalidated := rt.work[id], Unvalidated(rt.work[id].archive.head);
    var w0, committed := CommitStepCases(rt, disk, id, now, io, faults);
    if committed {
      CommittedShows(rt, w0.cache, id, NewEntry(w0.cache, job.key, unvalidated, job.pc.pages, now), now, unvalidated);
    } else {
      RefusedShows(rt, w0.cache, id, Published(job.key, now, unvalidated, job.pc.got));
    }
  }

  /** The steps that carry an outcome on. */
  lemma OutcomeCarried(rt: Rt, disk: Disk, id: Id, faults: Faults, n: Naming)
    requires id in rt.work && id !in rt.results
    ensures rt.work[id].pc.Unwinding? ==> Outcome(Step(rt, disk, DoRelease(id, faults), n).0, id) == Outcome(rt, id)
    ensures rt.work[id].pc.Released? ==> Outcome(Step(rt, disk, DoFreeSlot(id), n).0, id) == Outcome(rt, id)
    ensures rt.work[id].pc.SlotFreed? ==> Outcome(Step(rt, disk, DoSetErr(id), n).0, id) == Outcome(rt, id)
  {
    hide Release;
  }
}
