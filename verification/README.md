# Verification model of the page cache backend and the archive extractor

This Dafny project models two parts of the comic page plugin and proves what they promise.

**The backend** (`internal/silo/cache.go`, `internal/silo/backend.go`). A cache with a disk budget, and the
runtimes that are configured on top of it one after the other. Requests are admitted, look pages up, start
extraction jobs and wait for them; jobs reserve budget, download, extract, commit and release; a sweeper removes
what expired; Configure and Close stop a runtime, drain it and close its cache.

* `CacheModel` specifies each cache operation as a function on a state: the books and the disk. The parameter
  `faults` lists the directories whose deletion fails, with the files that survive. `PageCache` holds the
  objects, updated in place as the program updates them; each method is proved to be its function of the
  specification, for the order in which its loops happen to range over the maps.
* `CacheProofs`, `CacheOperations` and `CacheProperties` prove what every operation keeps (books, coverage of the
  disk by the books, pinned pages whole) and what follows: bytes on disk, eviction order, sweeps, pins, deadlines.
  `CacheLaws` writes out what each operation does, must do and must leave alone.
* `Runtime` is one runtime as a transition system. A step is a section under a lock or one visible effect on the
  disk; time, upstream answers, deletion failures, map iteration order and scheduling are parameters.
  `RuntimeInvariant` states its invariant; `RequestSteps`, `JobSteps`, `JobEnding` and `JobUnwinding` prove it
  step by step, and `RuntimeSteps` collects the steps. `RuntimeHistory`, `RootFrames`, `Draining` and `HeldEntries`
  say what steps never undo, that they stay under their cache directory, that a stopping runtime can always drain,
  and what a handle and a retirement mean.
* `Lifecycle` is the backend: runtimes, `current`, and the stages of Configure and Close. `RunHistory`, `HeldRuns`
  and `BackendProperties` state the main theorems, over every run from a new backend; `Configuring` and `Serving`
  show that Configure, Close and a request can come to their end.
* `Fingerprint` and `Chunks` are the pure parts: request checks, the fingerprint, chunk arithmetic.

**The extractor** (`internal/archive`).

* `NaturalOrder` and `PageOrder`: the natural-order comparator and the sorting of pages.
* `LimitReaders`, `OutputFiles` and `Extraction`: byte budgets, the output directory, and the whole pipeline
  from entries to renamed page files with its cleanup.
* `ZipPreflight` and `ZipEncoding`: the preflight of a ZIP's end-of-central-directory record and directory
  (sections 4.3.12, 4.3.15 and 4.3.16 of PKWARE APPNOTE.TXT), and a writer it is compared with.
* `ExtractionJob` connects the two parts: what the extractor leaves is what a job may write and commit.

`Bytes`, `Sums` and `Options` hold digits, numbers, sums over maps and values that may be missing.

Where the code gives less than one might expect, the exact condition is proved:

* An entry without a validator stops being served at its deadline unless that deadline is Go's zero time, which
  reads as "no deadline" (`CacheProperties.ZeroDeadlineNeverExpires`).
* Releasing a reservation whose directory cannot be deleted keeps the books exactly when that directory was not
  charged already (`CacheOperations.ReleaseConservesIff`); `os.MkdirTemp` gives fresh names, so it is not.
* Two pairs of validators can join to the same bytes exactly when one contains a NUL
  (`Fingerprint.ValidatorsUnambiguousIff`); only the ETag has to be NUL-free for the fingerprint to be injective.
* A written ZIP is recognised exactly when its fields are unsaturated, its entries fit the limit, and neither a
  later EOCD signature nor a ZIP64 locator signature 20 bytes before the EOCD is in the way
  (`ZipEncoding.RoundTrip`).

## Model

| member | source | states |
|---|---|---|
| `BackendProperties.EveryRunIsSafe` | internal/silo/backend.go:148-265 | At every state of every run of a new backend: the books of every runtime, open or closed, add up within its cache size; the runtime opened last at a cache directory accounts for the bytes there; a closed runtime has no request, job, sweeper, handle, reservation or slot left; an open one is the only open one, the last at its directory, and finds the pages of every held handle whole; `current` is open and not stopping; slot, reservation and pending cleanups stay within their bounds; every started job runs or has assigned its result and closed its channel, and every waiter waits for a started job |
| `BackendProperties.EveryAnswerIsFaithful` | internal/silo/backend.go:459-473 | Every answer that any run logs comes from an archive whose API version, content, file, size, ETag and Last-Modified are those of the request's HEAD, if its ETags are NUL-free and the hash does not confuse the two fingerprints |
| `BackendProperties.EveryResponseIsFaithful` | internal/silo/backend.go:297-368 | Every response of every run is logged as such an answer; its origin is the archive whose commit published the entry it reads, and that is the version asked for, under the same two assumptions |
| `BackendProperties.NeverHandsOutStale` | internal/silo/cache.go:395-398 | No runtime ever hands out an entry 30 minutes or more after its last commit or lookup, nor, if its archive came without ETag and Last-Modified, at or after commit time plus TTL (unless that is the zero time) |
| `BackendProperties.CloseIsQuiet` | internal/silo/backend.go:211-220 | `cache.close` runs only when the runtime is stopping and no request, job, sweeper, handle or reservation of it is left |
| `BackendProperties.ClosedForever` | internal/silo/backend.go:211-220 | No later step of a run changes a runtime whose cache is closed |
| `BackendProperties.ClosedStays` | internal/silo/backend.go:211-220 | One step of anybody leaves a closed runtime as it is |
| `BackendProperties.OneOpenCache` | internal/silo/backend.go:145-187 | Two runtimes with open caches are the same runtime |
| `BackendProperties.CurrentRuns` | internal/silo/backend.go:158-186 | `current` never points at a stopping runtime, and its cache is open |
| `BackendProperties.DrainCompletes` | internal/silo/backend.go:211-217 | From every draining state some run brings the wait group to zero, so waiting cannot deadlock |
| `Configuring.ConfigureCompletes` | internal/silo/backend.go:148-187 | From every reachable state in which no other Configure or Close is under way some run that begins with Configure ends with a current runtime for exactly that configuration: running, not stopping, its sweeper on, its cache open, empty and on a cleared directory; the runtime that was current is closed |
| `Configuring.CloseCompletes` | internal/silo/backend.go:199-220 | Close can likewise come to its end, with no runtime left and the old one closed |
| `Configuring.ServesAdmits` | internal/silo/backend.go:189-265 | A configured backend admits whoever asks and counts the request |
| `Serving.RequestIsServed` | internal/silo/backend.go:281-625 | From a freshly configured backend whose cache can hold one job, a request for any valid version whose archive is within the limits and has pages can be served: some run goes through HEAD, lookup, job, commit and second lookup to an answer logged for that version, from an entry listing exactly the archive's pages |
| `BackendProperties.BytesWithinBudget` | internal/silo/backend.go:500-503 | At every state, under every cache directory and under any deletion failures, the bytes in job and entry directories never exceed used plus reserved bytes of the runtime opened there last, nor those its cache size; a closed cache keeps accounting for what it could not delete until the directory is opened again |
| `BackendProperties.BooksWithinBudget` | internal/silo/cache.go:241-352 | In every runtime, open or closed, each counter is the sum of what it charges, and together they stay within the configured cache size |
| `BackendProperties.LatestAccounts` | internal/silo/cache.go:122-138 | Every directory left under a cache directory is charged, for at least its bytes, in the books of the runtime opened there last |
| `BackendProperties.CoherentJobs` | internal/silo/backend.go:483-515 | Pending directories and reservations together are at most 128; an unreleased reservation is the only one, its job holds the slot and is the one listed under its key; a closed done channel has its result; every started job runs or has closed its channel; every waiter's job was started |
| `BackendProperties.DeletesItself` | internal/silo/backend.go:536-540 | The map delete of a job removes that job and no other |
| `BackendProperties.ClosesDoneOnce` | internal/silo/backend.go:533-551 | When a job comes to close its done channel, the channel is open, the result is assigned, reservation and slot are returned and the map entry is gone; closing it changes no result |
| `BackendProperties.StartedJobs` | internal/silo/backend.go:533-544 | A job that was started is still running, or its result is assigned and its channel closed |
| `BackendProperties.WaiterIsServed` | internal/silo/backend.go:517-531 | The job of a waiting request is running, or its result is assigned and its channel closed |
| `RunHistory.RunRemembers` | internal/silo/backend.go:533-551 | No run of the backend takes back an assigned result, a closed channel, a started job or the log, nor un-stops or reopens a runtime; so a channel is closed at most once |
| `BackendProperties.WakesOnResult` | internal/silo/backend.go:305-314 | A waiter on a closed done channel reads a result that was assigned, and goes on exactly when it is nil |
| `BackendProperties.HeldPagesIntact` | internal/silo/cache.go:218-239 | Whoever holds a handle finds its entry in the map and all its pages on disk with their sizes |
| `BackendProperties.CountedHandles` | internal/silo/cache.go:49-60 | `active` is the number of handles given out and not released |
| `BackendProperties.HashNamingConsistent` | internal/silo/backend.go:459-473 | Key and validity depend on the six fields of the fingerprint only |
| `BackendProperties.ServedAsAsked` | internal/silo/backend.go:459-473 | The version part of `EveryAnswerIsFaithful`, at any state in which the invariant holds |
| `BackendProperties.ServedAsPublished` | internal/silo/backend.go:297-320 | A logged answer is from the archive whose commit was the last one under the request's key |
| `BackendProperties.ResponseLogged` | internal/silo/backend.go:297-320 | Whoever holds a handle and responds logs an answer from the archive whose commit published the entry |
| `Lifecycle.ReachableSound` | internal/silo/backend.go:148-265 | The invariant of the backend holds at every state of every run |
| `Lifecycle.NextKeeps` | internal/silo/backend.go:148-265 | Every step of the backend, including every step of every actor, keeps the invariant |
| `Lifecycle.BeginKeeps` | internal/silo/backend.go:158-165 | Taking `current` away before closing it |
| `Lifecycle.SetStoppingKeeps` | internal/silo/backend.go:211-215 | Setting `stopping` under `jobsMu` |
| `Lifecycle.CloseCacheKeeps` | internal/silo/backend.go:216-220 | Closing the cache of the drained runtime, under any deletion failures, leaves no open cache |
| `Lifecycle.OpenFailsKeeps` | internal/silo/cache.go:110-113 | A failed opening, which may have removed some directories or files, leaves the backend without a runtime and the books of closed runtimes still accounting for what is left |
| `Lifecycle.OpenCacheKeeps` | internal/silo/backend.go:166-183 | A new runtime starts with empty books on a cleared directory and a running sweeper |
| `Lifecycle.AdmitKeeps` | internal/silo/backend.go:242-265 | Admission under `jobsMu` reaches only a runtime whose cache is open, even for a caller that read `current` long before |
| `Lifecycle.LocalKeeps` | internal/silo/backend.go:211-217 | Only the runtime with the open cache can still step, and its steps keep the invariant |
| `Lifecycle.DrainedQuiet` | internal/silo/backend.go:211-217 | A stopping runtime whose wait group is at zero has no actor, handle, reservation, job or slot |
| `RuntimeSteps.StepGood` | internal/silo/backend.go:281-625 | Every step of a request, a job or the sweeper keeps the invariant of its runtime |
| `RuntimeHistory.StepContinues` | internal/silo/backend.go:533-551 | No step changes the configuration, the stop flag or the closed flag; assigned results, closed channels and the log are never taken back; after the stop no job is issued and the wait group only falls |
| `RuntimeHistory.SetErrContinues` | internal/silo/backend.go:541 | A job's result is assigned once |
| `HeldEntries.HeldEntryStays` | internal/silo/cache.go:379-393 | No step of a runtime's actors (lookup, reserve, eviction, sweep, same-key commit, release) moves, changes, deletes or un-retires an entry under a handle, in the map or on disk |
| `HeldRuns.HeldUndisturbed` | internal/silo/cache.go:379-393 | No step of anybody, Configure and Close included, disturbs an entry under a handle |
| `HeldRuns.HandleProtects` | internal/silo/cache.go:49-60 | From the state in which a request holds a handle to its release, through every run of the backend, the entry keeps directory, pages, total, deadline and files, and its pages are whole |
| `HeldRuns.HeldThroughRun` | internal/silo/cache.go:379-393 | The same for an entry that stays held by anybody |
| `HeldEntries.RetiredEntryStays` | internal/silo/cache.go:379-393 | One step leaves a retired entry, held or not, retired or removed and does not hand it out; only a publication of its own key brings the key back |
| `HeldRuns.RetiredForGood` | internal/silo/cache.go:379-393 | Retirement is permanent through every run of the backend: without a new publication of its key a retired entry stays retired or goes away, and is not handed out again |
| `RootFrames.StepOutside` | internal/silo/cache.go:427-432 | No step of a runtime touches anything but job and entry directories under its own cache directory |
| `HeldEntries.OutcomeOfCommit` | internal/silo/backend.go:621-624 | A job succeeds exactly when its commit publishes |
| `HeldEntries.OutcomeCarried` | internal/silo/backend.go:533-551 | Release, slot and result assignment carry the job's outcome on unchanged |
| `Draining.DrainStep` | internal/silo/backend.go:211-217 | While a stopping runtime's wait group is not at zero, some actor has a step that brings its end nearer |
| `RequestSteps.LookupGood` | internal/silo/backend.go:297-314 | A first or second lookup keeps the invariant, hit or miss |
| `RequestSteps.HitGood` | internal/silo/cache.go:218-239 | A hit adds one handle to the count and one timely event to the log |
| `RequestSteps.ReleaseHandleGood` | internal/silo/cache.go:49-60 | Releasing a handle takes exactly one from its entry's count, changes no other entry and keeps the invariant |
| `RequestSteps.RespondGood` | internal/silo/backend.go:297-320 | An answer is logged, from the archive whose commit published the entry under the request's key |
| `RequestSteps.SweepGood` | internal/silo/backend.go:222-237 | A sweep keeps the invariant |
| `JobEnding.StartJobGood` | internal/silo/backend.go:483-515 | Starting a job takes the slot, the reservation, the map entry and the wait group together, or nothing |
| `JobEnding.CommitStepGood` | internal/silo/backend.go:621-624 | A commit, whatever its outcome, keeps the invariant |
| `JobEnding.GotFiled` | internal/silo/backend.go:592-597 | What is committed under a key is an archive whose own fingerprint has that key |
| `JobSteps.MakeDirGood` | internal/silo/backend.go:556-560 | The job directory is created, owned and recorded in the reservation |
| `JobSteps.DownloadGood` | internal/silo/backend.go:634-648 | A download, with its one byte of overflow, stays within the reservation |
| `JobSteps.FetchGood` | internal/silo/backend.go:592-600 | After the size and validator checks the download is the version that was asked for |
| `JobSteps.ExtractWriteGood` | internal/silo/backend.go:607-610 | The extractor's writes stay within the reservation |
| `JobSteps.FinishExtractionGood` | internal/silo/backend.go:607-620 | An exact page list is ready for the commit |
| `JobUnwinding.ReleaseStepGood` | internal/silo/cache.go:262-276 | A release ends the only reservation; a directory that stays is still charged, as pending |
| `JobUnwinding.FreeSlotGood` | internal/silo/backend.go:550 | The slot is freed after the reservation is back |
| `JobUnwinding.DeleteJobGood` | internal/silo/backend.go:536-540 | The map delete keeps the table exact although another job may hold the slot by then |
| `JobUnwinding.CloseDoneGood` | internal/silo/backend.go:535 | Closing done keeps the invariant |
| `PageCache.PageHandle.Release` | internal/silo/cache.go:49-60 | Gives the pin back once; a second release changes nothing |
| `PageCache.Reservation.Release` | internal/silo/cache.go:262-276 | Frees the charge with the directory or keeps it pending; a second release changes nothing |
| `PageCache.Reservation.Commit` | internal/silo/cache.go:278-352 | All checks in order, any of its stats failing or not, replacement of an unpinned entry, rename, and the move of the charge |
| `PageCache.Reservation.CheckExtracted` | internal/silo/cache.go:287-312 | The first page that fails, by its fields or by a stat, decides, and the total is exact |
| `PageCache.PageCache.Lookup` | internal/silo/cache.go:218-239 | A handle for a live entry whose pages are whole and can be looked at, given the stats that currently fail; otherwise the entry is retired or removed |
| `PageCache.PageCache.RemoveLocked` | internal/silo/cache.go:379-393 | Retires always; deletes and uncharges exactly when unpinned, owned and removable |
| `PageCache.PageCache.RetryPendingLocked` | internal/silo/cache.go:418-425 | Tries every pending deletion exactly once |
| `PageCache.PageCache.SweepLocked` | internal/silo/cache.go:409-416 | Retries pending deletions, then visits every entry once |
| `PageCache.PageCache.FindOldest` | internal/silo/cache.go:363-371 | A least recently used entry among those neither pinned nor retired, or that there is none |
| `PageCache.PageCache.EvictUntilLocked` | internal/silo/cache.go:361-377 | Removes least recently used idle entries one by one, stops at the first fit or when none is idle, and terminates even when deletions fail |
| `PageCache.IdleShrinks` | internal/silo/cache.go:361-377 | Each eviction leaves fewer idle entries, even when its deletion fails |
| `PageCache.PageCache.Reserve` | internal/silo/cache.go:241-260 | Range check, sweep, cleanup bound, eviction and budget check, then the charge |
| `PageCache.PageCache.Close` | internal/silo/cache.go:122-138 | Every entry and pending directory is tried once, the lease is returned, a second close changes nothing |
| `CacheLaws.LookupExactly` | internal/silo/cache.go:218-239 | A lookup hits exactly an open cache's unretired entry within 30 minutes of its last use and before its deadline, all of whose pages have their sizes and can be looked at; a hit counts one handle, moves the time of use and changes nothing else |
| `CacheLaws.LookupSpares` | internal/silo/cache.go:218-239 | A lookup leaves every other entry and its directory as they are |
| `CacheLaws.SweepSpares` | internal/silo/cache.go:409-416 | A sweep leaves every entry that is neither retired nor past a deadline exactly as it is, with its directory |
| `CacheLaws.VictimsExactly` | internal/silo/cache.go:361-377 | Whoever is evicted: the bytes did not fit, it was neither pinned nor retired, and no other such entry was used before it |
| `CacheLaws.ReserveSpares` | internal/silo/cache.go:241-260 | A reservation leaves every live entry that it does not evict exactly as it is, with its directory |
| `CacheLaws.ReserveThatFitsSpares` | internal/silo/cache.go:241-260 | If the bytes fit once retired, expired and pending directories are gone, no live entry is touched |
| `CacheLaws.ReserveSparesHeld` | internal/silo/cache.go:361-377 | No reservation evicts or retires a live entry under a handle |
| `CacheLaws.ReserveRefused` | internal/silo/cache.go:242-249 | Out of range or closed, a reservation is refused and changes nothing |
| `CacheLaws.CommitExactly` | internal/silo/cache.go:278-335 | A commit succeeds if and only if the reservation is fresh, every page is a regular output file of its size within the page limit, the total fits the total limit and the reservation, the cache is open, the key is 64 hexadecimal digits and free, and every stat and the rename succeed |
| `CacheLaws.CommittedEntry` | internal/silo/cache.go:331-351 | The published entry has, page by page and in order, the name, file, size and media type of the pages passed in, each file in its directory; its times are those of the commit |
| `CacheLaws.CommitSpares` | internal/silo/cache.go:319-351 | A commit leaves every other entry and its directory as they are |
| `CacheLaws.ServedUntil` | internal/silo/cache.go:354-398 | A committed entry that nobody uses is served exactly for 30 minutes and, without a validator, until its deadline; with a validator the fallback lifetime does not matter |
| `CacheLaws.UseKeepsServing` | internal/silo/cache.go:395-398 | Each use of an entry with a validator gives it another 30 minutes |
| `CacheLaws.CloseExactly` | internal/silo/cache.go:122-138 | After a close every entry left is pinned or could not be deleted, every pending directory left failed again or is not the plugin's |
| `CacheOperations.LookupKeeps` | internal/silo/cache.go:218-239 | Lookup keeps the books and gives a handle exactly for an open cache's present, unretired, unexpired entry that is whole on disk, no stat failing |
| `CacheOperations.ReserveKeeps` | internal/silo/cache.go:241-260 | Reserve keeps the books and the coverage of the disk |
| `CacheOperations.JobDirKeeps` | internal/silo/backend.go:556-560 | A fresh job directory is charged to its reservation |
| `CacheOperations.JobWriteKeeps` | internal/silo/backend.go:500-503 | Writing within the reservation keeps the disk covered |
| `CacheOperations.ReleaseKeeps` | internal/silo/cache.go:262-276 | Release keeps books and coverage, under any partial deletion |
| `CacheOperations.ReleaseConservesIff` | internal/silo/cache.go:262-276 | With an undeletable directory the books stay right exactly when it was not charged before |
| `CacheOperations.ExactListing` | internal/silo/cache.go:287-312 | An exact page list adds up to the bytes of the output files |
| `CacheOperations.MoveCharge` | internal/silo/cache.go:336-351 | Moving the charge to the new entry keeps every sum and the total |
| `CacheOperations.CommitKeeps` | internal/silo/cache.go:278-352 | Commit keeps books, coverage and pinned pages, whatever its result |
| `CacheOperations.CommitConserves` | internal/silo/cache.go:336-351 | A successful commit frees exactly the bytes of the unpinned entry it replaces |
| `CacheOperations.CloseKeeps` | internal/silo/cache.go:122-138 | Close keeps the books and only takes away |
| `CacheOperations.NewCacheKeeps` | internal/silo/cache.go:84-120 | A cache opens with empty books on a cleared directory |
| `CacheProofs.CalmKeeps` | internal/silo/cache.go:379-425 | Steps that only take away keep coverage and pinned pages |
| `CacheProperties.DiskWithinBudget` | internal/silo/cache.go:241-276 | The invariant bounds the bytes on disk by the charges and those by the budget |
| `CacheProperties.PinnedEntryStays` | internal/silo/cache.go:379-393 | No step that only takes away touches a pinned entry, in the map or on disk |
| `CacheProperties.CommitRespectsPins` | internal/silo/cache.go:319-323 | A same-key commit is refused while the entry is pinned, and changes nothing |
| `CacheProperties.SweepComplete` | internal/silo/cache.go:409-425 | After a sweep every retired or expired entry still there is pinned or its deletion failed, and so for pending directories |
| `CacheProperties.VictimsInOrder` | internal/silo/cache.go:361-377 | Victims are tried in nondecreasing order of last use |
| `CacheProperties.RefusedReserveIsFull` | internal/silo/cache.go:241-260 | If an in-range reserve with few pending cleanups is refused, every entry left is pinned or retired |
| `CacheProperties.ReserveDecides` | internal/silo/cache.go:241-260 | A grant is one new reservation within the budget; a refusal means too many pending cleanups, or no fit with every entry left pinned or retired |
| `CacheProperties.ReserveSweeps` | internal/silo/cache.go:249-253 | Whatever reserve decides, no retired or expired entry is left that could be deleted |
| `CacheProperties.JobConserves` | internal/silo/cache.go:262-352 | After a commit and a release that deletes the job directory exactly the published pages stay charged, the replaced entry is freed, and the entry directory holds exactly the output files |
| `CacheProperties.UnvalidatedDeadline` | internal/silo/cache.go:354-359 | Lookups do not move the deadline of an entry without a validator |
| `CacheProperties.ZeroDeadlineNeverExpires` | internal/silo/cache.go:395-398 | The deadline is effective exactly unless it is the zero time and the idle limit comes later |
| `ExtractionJob.ExtractorMayWrite` | internal/silo/backend.go:607-610 | Every state the extractor goes through, within its total budget, is one the reservation covers |
| `ExtractionJob.ExtractorMayFinish` | internal/silo/backend.go:607-620 | A successful extraction leaves exactly the files its page list names |
| `ExtractionJob.ExtractedCommits` | internal/silo/cache.go:278-352 | Such a page list is published exactly unless a stat or the rename fails, the cache is closed, the key malformed, the old entry pinned or undeletable, or the directory in the way |
| `ExtractionJob.HandleShowsImagesInOrder` | internal/silo/cache.go:278-352 | From the archive to the handle: after a successful extraction is committed, a lookup hits, and page i of its entry is the i-th image of the archive in natural order, with its name, bytes and media type |
| `Fingerprint.ValidateRequest` | internal/silo/backend.go:370-396 | Accepts exactly the requests without a fault and reports the first fault of the others; accepted content and profile IDs have at most 512 bytes, none below 0x20 and none of `/ \ ? #`, and are refused only for such a reason; cache keys are 64 hexadecimal digits |
| `Fingerprint.FingerprintEqualIff` | internal/silo/backend.go:459-468 | Equal fingerprints of validated requests mean equal fields, up to how the two validators join |
| `Fingerprint.FingerprintInjective` | internal/silo/backend.go:459-468 | With NUL-free ETags the fingerprint determines all six fields |
| `Fingerprint.ValidatorsUnambiguousIff` | internal/silo/backend.go:627-632 | The joined validators are unambiguous exactly when neither contains a NUL |
| `Chunks.ChunkServedIff` | internal/silo/backend.go:331-367 | An offset is served exactly when aligned and in range; chunks are nonempty and at most 1 MiB, and only the last is shorter |
| `Chunks.ChunkRoundTrip` | internal/silo/backend.go:331-367 | Fetching offsets 0, C, 2C, ... yields the exact page, whatever its size |
| `LimitReaders.EntryLimitReader.Read` | internal/archive/archive.go:759-794 | Delivers within both limits, charges both, and at a limit refuses a stream that goes on, for the page limit first; reports cancellation only when the context is done |
| `LimitReaders.ArchiveLimitReader.Read` | internal/archive/archive.go:729-757 | Delivers within the compressed limit and refuses a longer stream |
| `LimitReaders.WriteBounded` | internal/silo/backend.go:634-648 | Reports an I/O failure exactly when an operation on the file failed; otherwise complete on an intact stream within the limit, too long after exactly max + 1 bytes of a longer one, and a broken stream is reported as such; never more than max + 1 bytes are written |
| `Extraction.CopyEntry` | internal/archive/archive.go:423-450 | Copies an entry byte for byte exactly if it fits both limits, unless the context is done or an operation on the file fails; otherwise the smaller limit names the error; charges exactly what fits |
| `Extraction.ConsumeEntry` | internal/archive/archive.go:401-468 | An image stays in a new temporary file, anything else leaves the directory as it was; the total is charged exactly |
| `Extraction.VisitEntry` | internal/archive/archive.go:299-334 | One entry of the loop: its fault is the one its attributes and contents call for |
| `Extraction.ExtractEntries` | internal/archive/archive.go:295-336 | The loop ends with the first fault of the archive; the shared total is MaxTotalBytes minus all delivered bytes, skipped entries and the part of a faulty entry included, on success and on every fault |
| `Extraction.MaterializePages` | internal/archive/archive.go:564-592 | The pages are the images in natural order, each with its own bytes; a page file in the way is left alone |
| `Extraction.ExtractionState.Cleanup` | internal/archive/archive.go:115-137 | Cleanup restores the directory exactly |
| `Extraction.Extract` | internal/archive/archive.go:139-185 | All or nothing: on failure the directory is as before, on success it gained exactly the listed pages. Unless the context is done or a file operation fails, it yields the archive's first fault, or a collision exactly if a page name to be used was there before, and otherwise succeeds; the peak is bounded by MaxTotalBytes |
| `Extraction.FaultlessIff` | internal/archive/archive.go:295-399 | Exactly which archives are extracted: complete ones with at most MaxEntries entries, none encrypted or a link, every file opening, decoding and fitting the page limit, and all of them together, skipped ones included, the total limit |
| `PageOrder.SortIsSortedPermutation` | internal/archive/archive.go:564-570 | The pages are a sorted permutation of the candidates |
| `PageOrder.SortIsStable` | internal/archive/archive.go:564-570 | Candidates of equal name keep their archive order |
| `PageOrder.StableSortUnique` | internal/archive/archive.go:564-570 | Sorted, stable and a permutation determine the result, so any stable sort gives this one |
| `PageOrder.SortIgnoresArchiveOrder` | internal/archive/archive.go:564-570 | With distinct names the archive order does not matter |
| `PageOrder.PageFilesDistinct` | internal/archive/archive.go:571-592 | Generated file names are pairwise distinct |
| `NaturalOrder.NaturalCompare` | internal/archive/archive.go:594-640 | The two-index loop computes the lexicographic order on tokens (digit runs and bytes) with the raw names as tie break |
| `NaturalOrder.OrderAntisymmetric` | internal/archive/archive.go:594-640 | The order is antisymmetric, for any lower-casing |
| `NaturalOrder.OrderTransitive` | internal/archive/archive.go:594-640 | The order is transitive, strictly where one step is strict |
| `NaturalOrder.OrderZeroIffEqual` | internal/archive/archive.go:594-640 | Only a name itself compares equal to it |
| `NaturalOrder.TieByFirstByte` | internal/archive/archive.go:639 | Of two names with equal lower-cased forms the bytewise smaller one comes first |
| `NaturalOrder.TieByLength` | internal/archive/archive.go:639 | ... and a name before its own continuations |
| `NaturalOrder.BytesDecide` | internal/archive/archive.go:624-630 | Names that differ first in a byte that is not a digit in both are ordered by that byte |
| `NaturalOrder.ShorterNameFirst` | internal/archive/archive.go:633-638 | A name that the other continues comes first |
| `NaturalOrder.DigitRunsOrderByValue` | internal/archive/archive.go:597-622 | After a common prefix, digit runs of any length and padding order by value, and equal values by width |
| `NaturalOrder.TrimmedComparison` | internal/archive/archive.go:603-621 | Trimming zeros and comparing length, then bytes, then width is comparing values, then width |
| `ZipPreflight.FindEocd` | internal/archive/zip_preflight.go:30-38 | The backward search finds the last EOCD signature of the window, if there is one |
| `ZipPreflight.WalkDirectory` | internal/archive/zip_preflight.go:66-101 | The forward walk decides between accepted, too many entries, unsupported and corrupt as the directory's headers do, with at most maxEntries + 1 header reads |
| `ZipPreflight.CheckEocd` | internal/archive/zip_preflight.go:40-101 | The EOCD checks and the walk give the verdict that describes the file |
| `ZipPreflight.Preflight` | internal/archive/zip_preflight.go:22-102 | Accepts exactly the classic ZIPs within the entry limit, names the other verdicts exactly, reads in bounds and at most maxEntries + 1 headers |
| `ZipEncoding.AcceptedExactly` | internal/archive/zip_preflight.go:22-102 | What is accepted, byte by byte: every field of the EOCD and of each directory header |
| `ZipEncoding.RoundTrip` | internal/archive/zip_preflight.go:30-97 | A written archive is recognised, with exactly the record boundaries it was written with, if and only if the stated conditions hold |
| `ZipEncoding.ClassicZipUnique` | internal/archive/zip_preflight.go:30-97 | An accepted file has one EOCD and one list of records |
| `ZipEncoding.EncodedAccepted` | internal/archive/zip_preflight.go:30-97 | A preflight that finishes accepts such a file |
| `ZipEncoding.LongDirectoryRefused` | internal/archive/zip_preflight.go:76-89 | A directory with more records than the limit is refused whatever count it advertises |

## Left out

- HTTP, the upstream client, JSON, the gRPC server, manifests and configuration parsing: authentication and HEAD answers are inputs, configurations are within their bounds.
- Decoding of ZIP, RAR and images: an archive is the list of entries its decoder delivers, each in chunks of any size, and image inspection is a function of name and contents. The ZIP and RAR loops are one loop over that list.
- SHA-256: the key is a function of the fingerprint. It is not assumed injective; a statement that needs it says for which two fingerprints.
- Liveness beyond the existence of runs (`Configuring.ConfigureCompletes`, `Serving.RequestIsServed`): which of the possible steps is taken is left to the scheduler.
- Child processes, signals, resource limits, symlinks, permissions and the ownership marker; the lease is one boolean.
- Timers: the preparation wait, the job timeout and cancellation are steps that may happen at any time.
- A directory is a map from file names to sizes for the cache, and to contents for the extractor; a removal that fails may delete any of its files and leaves the directory itself.
- Names of job directories are fresh among the directories on disk (`os.MkdirTemp`); removals of temporary files in the extractor succeed.
- Entries are values in the map of `PageCache`, so the pointer from a handle to its entry is its key; that a pinned entry is not replaced under its key is proved instead (`CacheProperties.CommitRespectsPins`, `HeldRuns.HandleProtects`).
- In `Runtime` a job directory appears, with its reservation's record of it, in one step; nobody reads the record in between.
- Extraction.MaterializePages: the sort is its specification function, since `sort.SliceStable` is a library call; `PageOrder.StableSortUnique` shows that any stable sort gives the same result.
- Fingerprint.ValidateRequest: works on bytes; the program's loops decode UTF-8, which does not change the outcome for the bytes they reject.
- Image dimension limits, media types, error mapping and normalising of keys to lower case: single branches.
