/**
 Why an extraction job stays within its reservation: what the extractor leaves in its output
 directory, seen as the job directory of the cache model.
 */
module ExtractionJob {
  import opened Bytes
  import opened Sums
  import opened Fingerprint
  import opened CacheModel
  import opened CacheProofs
  import opened CacheOperations
  import opened CacheLaws
  import opened NaturalOrder
  import opened Runtime
  import OF = OutputFiles
  import EX = Extraction
  import opened PageOrder

  /** The job directory with the given output files; the input file stays. */
  function WithOutputs(d: Dir, files: OF.Files): Dir {
    Inputs(d) + OutputSizes(files)
  }

  function OutputSizes(files: OF.Files): Dir {
    map n | n in files :: Output(n) := |files[n]|
  }

  lemma OutputsOfWrite(d: Dir, files: OF.Files)
    ensures Inputs(WithOutputs(d, files)) == Inputs(d) && Outputs(WithOutputs(d, files)) == OutputSizes(files)
  {
  }

  lemma OutputBytes(files: OF.Files)
    ensures DirBytes(OutputSizes(files)) == OF.TotalBytes(files)
  {
    var names := map n | n in files :: Output(n);
    forall f | f in OutputSizes(files) ensures f in names.Values {
      assert names[f.name] == f;
    }
    SumReindex(OF.Sizes(files), OutputSizes(files), names);
  }

  /**
   While the extractor runs, starting from an empty output directory, it never holds more than
   MaxTotalBytes (`Extraction.Extract` bounds the peak): every state it goes through is a write the
   job may make.
   */
  lemma ExtractorMayWrite(rt: Rt, disk: Disk, id: Id, files: OF.Files)
    requires id in rt.work && rt.work[id].pc.Fetched? && rt.work[id].pc.dir in disk
    requires OF.TotalBytes(files) <= EX.Max(0, rt.cfg.maxTotalBytes) && ValidConfig(rt.cfg)
    ensures MayExtractWrite(rt, disk, id, WithOutputs(disk[rt.work[id].pc.dir], files))
  {
    OutputsOfWrite(disk[rt.work[id].pc.dir], files);
    OutputBytes(files);
  }

  /** The extractor's page list, as the job passes it to the commit. */
  function PageRefs(dir: Path, pages: seq<EX.Page>): (refs: seq<PageRef>)
    ensures |refs| == |pages|
    ensures forall i :: 0 <= i < |refs| ==>
      refs[i] == PageRef(pages[i].name, dir, Output(pages[i].file), pages[i].size, pages[i].mediaType)
  {
    seq(|pages|, i requires 0 <= i < |pages| =>
      PageRef(pages[i].name, dir, Output(pages[i].file), pages[i].size, pages[i].mediaType))
  }

  lemma PublishedListed(files: OF.Files, pages: seq<EX.Page>, images: seq<EX.Image>, i: nat)
    requires EX.Published(files, map[], pages, images) && i < |pages|
    ensures pages[i].file == PageFile(i) && PageFile(i) in files && |files[PageFile(i)]| == pages[i].size
  {
  }

  lemma PublishedComplete(files: OF.Files, pages: seq<EX.Page>, images: seq<EX.Image>, name: Text) returns (i: nat)
    requires EX.Published(files, map[], pages, images) && name in files
    ensures i < |pages| && pages[i].file == name
  {
    i :| i < |images| && name == PageFile(i);
  }

  lemma PublishedThere(d: Dir, dir: Path, files: OF.Files, pages: seq<EX.Page>, images: seq<EX.Image>, i: nat)
    requires EX.Published(files, map[], pages, images) && i < |pages|
    ensures var d', ref := WithOutputs(d, files), PageRefs(dir, pages)[i];
            ref.file in Outputs(d') && d'[ref.file] == ref.size
  {
    hide EX.Published, WithOutputs;
    OutputsOfWrite(d, files);
    PublishedListed(files, pages, images, i);
    assert PageRefs(dir, pages)[i].file in OutputSizes(files);
  }

  lemma PublishedApart(dir: Path, files: OF.Files, pages: seq<EX.Page>, images: seq<EX.Image>, i: nat, j: nat)
    requires EX.Published(files, map[], pages, images) && i < j < |pages|
    ensures PageRefs(dir, pages)[i].file != PageRefs(dir, pages)[j].file
  {
    hide EX.Published;
    PublishedListed(files, pages, images, i);
    PublishedListed(files, pages, images, j);
    if PageFile(i) == PageFile(j) {
      PageFilesDistinct(i, j);
    }
  }

  lemma PublishedFound(d: Dir, dir: Path, files: OF.Files, pages: seq<EX.Page>, images: seq<EX.Image>, f: FileName)
    returns (i: nat)
    requires EX.Published(files, map[], pages, images) && f in Outputs(WithOutputs(d, files))
    ensures i < |pages| && PageRefs(dir, pages)[i].file == f
  {
    hide EX.Published, WithOutputs;
    OutputsOfWrite(d, files);
    assert f in OutputSizes(files);
    i := PublishedComplete(files, pages, images, f.name);
  }

  /** A successful extraction lists its output files exactly. */
  lemma PublishedIsExact(d: Dir, dir: Path, files: OF.Files, pages: seq<EX.Page>, images: seq<EX.Image>)
    requires EX.Published(files, map[], pages, images)
    ensures OutputsExact(WithOutputs(d, files), PageRefs(dir, pages))
  {
    hide EX.Published, WithOutputs, PageRefs;
    var d', refs := WithOutputs(d, files), PageRefs(dir, pages);
    forall i, j | 0 <= i < j < |refs| ensures refs[i].file != refs[j].file {
      PublishedApart(dir, files, pages, images, i, j);
    }
    forall i | 0 <= i < |refs| ensures refs[i].file in Outputs(d') && d'[refs[i].file] == refs[i].size {
      PublishedThere(d, dir, files, pages, images, i);
    }
    forall f | f in Outputs(d') ensures exists i :: 0 <= i < |refs| && refs[i].file == f {
      var i := PublishedFound(d, dir, files, pages, images, f);
    }
  }

  lemma ExtractorMayFinish(rt: Rt, disk: Disk, id: Id, d: Dir, files: OF.Files, pages: seq<EX.Page>,
                           images: seq<EX.Image>)
    requires id in rt.work && rt.work[id].pc.Fetched? && rt.work[id].pc.dir in disk
    requires disk[rt.work[id].pc.dir] == WithOutputs(d, files) && EX.Published(files, map[], pages, images)
    ensures MayFinishExtraction(rt, disk, id, PageRefs(rt.work[id].pc.dir, pages))
  {
    PublishedIsExact(d, rt.work[id].pc.dir, files, pages, images);
  }

  /** Pages that the extractor lists exactly pass the commit's checks when their sizes are in range. */
  lemma {:induction false} ListedPagesPass(disk: Disk, dir: Path, pages: seq<PageRef>, stats: nat, n: nat)
    requires n <= |pages| <= stats && dir in disk && OutputsExact(disk[dir], pages)
    requires forall i :: 0 <= i < |pages| ==> pages[i].dir == dir && 1 <= pages[i].size <= MAX_PAGE_BYTES
    requires Sizes(pages) <= MAX_TOTAL_BYTES
    ensures CheckPages(disk, dir, pages[..n], stats) == Committed
  {
    if n > 0 {
      ListedPagesPass(disk, dir, pages, stats, n - 1);
      assert pages[..n][..n - 1] == pages[..n - 1];
      PrefixSizes(pages, n);
      assert PageAcceptable(disk, dir, pages[n - 1]);
    }
  }

  lemma StatFails(disk: Disk, dir: Path, pages: seq<PageRef>, stats: nat)
    requires |pages| > stats
    ensures CheckPages(disk, dir, pages, stats) != Committed
  {
  }

  lemma {:induction false} PrefixSizes(pages: seq<PageRef>, n: nat)
    requires n <= |pages| && forall i :: 0 <= i < |pages| ==> pages[i].size >= 1
    ensures Sizes(pages[..n]) <= Sizes(pages)
    decreases |pages| - n
  {
    if n == |pages| {
      assert pages[..n] == pages;
    } else {
      PrefixSizes(pages, n + 1);
      assert pages[..n + 1][..n] == pages[..n];
    }
  }

  /** Once the pages are checked, the entry's key, its predecessor and the rename decide the commit. */
  lemma PassedCommits(c: Cache, disk: Disk, id: Id, key: Key, unvalidated: bool, dir: Path, pages: seq<PageRef>,
                      now: int, io: CommitIo, faults: Faults)
    requires id in c.loans && !c.loans[id].committed && dir in disk && dir.root == c.root && dir.kind == JobDir
    requires pages != [] && Sizes(pages) <= c.loans[id].bytes
    requires key in c.entries && WellFormedKey(key.text) ==> c.entries[key].root == EntryRoot(c, key)
    ensures Commit(World(c, disk), id, key, unvalidated, dir, pages, now, io, faults).1 == Committed <==>
            && CheckPages(disk, dir, pages, io.stats) == Committed && io.renames
            && !c.closed && WellFormedKey(key.text)
            && (key in c.entries ==> c.entries[key].active <= 0 && EntryRoot(c, key) !in faults)
            && (key in c.entries || EntryRoot(c, key) !in disk)
  {
    hide CheckPages, Convert, FallbackExpiry, WellFormedKey;
  }

  /**
   A job that has extracted a nonempty list of pages in range publishes it unless a stat or the
   rename fails, the cache is closed, the key is malformed, the old entry is pinned or cannot be
   deleted, or the entry's directory is in the way.
   */
  lemma ExtractedCommits(c: Cache, disk: Disk, id: Id, key: Key, unvalidated: bool, dir: Path, pages: seq<PageRef>,
                         now: int, io: CommitIo, faults: Faults)
    requires Ledger(c) && id in c.loans && !c.loans[id].committed && dir in disk
    requires OutputsExact(disk[dir], pages) && pages != [] && Sizes(pages) <= MAX_TOTAL_BYTES && dir.root == c.root
    requires forall i :: 0 <= i < |pages| ==> pages[i].dir == dir && 1 <= pages[i].size <= MAX_PAGE_BYTES
    requires Sizes(pages) <= c.loans[id].bytes && dir.kind == JobDir
    ensures Commit(World(c, disk), id, key, unvalidated, dir, pages, now, io, faults).1 == Committed <==>
            && |pages| <= io.stats && io.renames && !c.closed && WellFormedKey(key.text)
            && (key in c.entries ==> c.entries[key].active <= 0 && EntryRoot(c, key) !in faults)
            && (key in c.entries || EntryRoot(c, key) !in disk)
  {
    hide OutputsExact, CheckPages, Commit, WellFormedKey;
    if |pages| <= io.stats {
      ListedPagesPass(disk, dir, pages, io.stats, |pages|);
      assert pages[..|pages|] == pages;
    } else {
      StatFails(disk, dir, pages, io.stats);
    }
    if key in c.entries {
      assert SoundEntry(c, key, c.entries[key]);
    }
    PassedCommits(c, disk, id, key, unvalidated, dir, pages, now, io, faults);
  }

  // ----- From the archive to the handle -----

  /** Page i of the entry is image i: name, size, media type and file, and the file holds that image. */
  ghost predicate ShowsImages(disk: Disk, e: Entry, files: OF.Files, images: seq<EX.Image>) {
    && |e.pages| == |images|
    && forall i :: 0 <= i < |images| ==> ShowsImage(disk, e, i, files, images[i])
  }

  ghost predicate ShowsImage(disk: Disk, e: Entry, i: nat, files: OF.Files, image: EX.Image)
    requires i < |e.pages|
  {
    && e.pages[i].name == image.name && e.pages[i].size == |image.content| && e.pages[i].mediaType == image.mediaType
    && e.pages[i].file.Output? && e.pages[i].file.name in files && files[e.pages[i].file.name] == image.content
    && e.root in disk && e.pages[i].file in disk[e.root] && disk[e.root][e.pages[i].file] == |image.content|
  }

  lemma CommitShowsImages(w: World, id: nat, key: Key, unvalidated: bool, dir: Path, files: OF.Files,
                          pages: seq<EX.Page>, images: seq<EX.Image>, now: int, io: CommitIo, faults: Faults)
    requires Ledger(w.cache) && dir.kind == JobDir && EX.Published(files, map[], pages, images)
    requires Commit(w, id, key, unvalidated, dir, PageRefs(dir, pages), now, io, faults).1 == Committed
    ensures var w' := Commit(w, id, key, unvalidated, dir, PageRefs(dir, pages), now, io, faults).0;
            key in w'.cache.entries && ShowsImages(w'.disk, w'.cache.entries[key], files, images)
  {
    hide Ledger, Commit, EX.Published;
    var refs := PageRefs(dir, pages);
    var w' := Commit(w, id, key, unvalidated, dir, refs, now, io, faults).0;
    CommittedEntry(w, id, key, unvalidated, dir, refs, now, io, faults);
    PublishedCount(files, pages, images);
    var e := w'.cache.entries[key];
    forall i | 0 <= i < |images| ensures ShowsImage(w'.disk, e, i, files, images[i]) {
      assert PagePublished(w'.disk, e, i, refs[i]);
      PublishedImage(files, pages, images, i);
    }
  }

  lemma PublishedCount(files: OF.Files, pages: seq<EX.Page>, images: seq<EX.Image>)
    requires EX.Published(files, map[], pages, images)
    ensures |pages| == |images|
  {
  }

  lemma PublishedImage(files: OF.Files, pages: seq<EX.Page>, images: seq<EX.Image>, i: nat)
    requires EX.Published(files, map[], pages, images) && i < |images|
    ensures pages[i] == EX.Page(images[i].name, PageFile(i), |images[i].content|, images[i].mediaType)
    ensures PageFile(i) in files && files[PageFile(i)] == images[i].content
  {
  }

  /**
   From the archive to the handle. When the pages of a successful extraction are committed, a lookup
   at that time, with no failing stat, hits; page i of the entry it pins is the i-th image of the
   archive in natural order, and the images are in that order and no others.
   */
  lemma HandleShowsImagesInOrder(w: World, id: nat, key: Key, unvalidated: bool, dir: Path, files: OF.Files,
                                 pages: seq<EX.Page>, entries: seq<EX.ArchiveEntry>,
                                 inspect: (Text, Text) -> EX.Inspection, lower: Text -> Text, now: int, io: CommitIo,
                                 faults: Faults, faults': Faults)
    requires Ledger(w.cache) && w.cache.fallbackTtl > 0 && dir.kind == JobDir
    requires EX.Published(files, map[], pages, StableSort(EX.Images(entries, inspect), EX.NameOfImage, lower))
    requires Commit(w, id, key, unvalidated, dir, PageRefs(dir, pages), now, io, faults).1 == Committed
    ensures var images := StableSort(EX.Images(entries, inspect), EX.NameOfImage, lower);
            var w' := Commit(w, id, key, unvalidated, dir, PageRefs(dir, pages), now, io, faults).0;
            var (w'', hit) := Lookup(w', key, now, {}, faults');
            && hit && key in w''.cache.entries && w''.cache.entries[key].active == 1
            && ShowsImages(w''.disk, w''.cache.entries[key], files, images)
            && multiset(images) == multiset(EX.Images(entries, inspect))
            && forall i, j :: 0 <= i < j < |images| ==> Order(images[i].name, images[j].name, lower) <= 0
  {
    hide Ledger, Commit, Lookup, EX.Published, EX.Images, Order, ShowsImage, WholeAndReadable;
    var images := StableSort(EX.Images(entries, inspect), EX.NameOfImage, lower);
    var w' := Commit(w, id, key, unvalidated, dir, PageRefs(dir, pages), now, io, faults).0;
    CommitShowsImages(w, id, key, unvalidated, dir, files, pages, images, now, io, faults);
    CommittedEntry(w, id, key, unvalidated, dir, PageRefs(dir, pages), now, io, faults);
    ServedUntil(w, id, key, unvalidated, dir, PageRefs(dir, pages), now, io, faults, now, faults');
    LookupExactly(w', key, now, {}, faults');
    var w'' := Lookup(w', key, now, {}, faults').0;
    SameImages(w'.disk, w'.cache.entries[key], w''.cache.entries[key], files, images);
    SortIsSortedPermutation(EX.Images(entries, inspect), EX.NameOfImage, lower);
    ImagesSorted(images, lower);
  }

  lemma SameImages(disk: Disk, e: Entry, e': Entry, files: OF.Files, images: seq<EX.Image>)
    requires ShowsImages(disk, e, files, images) && e'.root == e.root && e'.pages == e.pages
    ensures ShowsImages(disk, e', files, images)
  {
    forall i | 0 <= i < |images| ensures ShowsImage(disk, e', i, files, images[i]) {
      assert ShowsImage(disk, e, i, files, images[i]);
    }
  }

  lemma ImagesSorted(images: seq<EX.Image>, lower: Text -> Text)
    requires Sorted(images, EX.NameOfImage, lower)
    ensures forall i, j :: 0 <= i < j < |images| ==> Order(images[i].name, images[j].name, lower) <= 0
  {
  }
}
