/**
 Extraction of an archive into a directory: entries are copied one by one to temporary files
 under the byte budgets, inspected, and finally renamed to numbered page files in natural order.
 A failure anywhere leaves the directory as it was.

 The archive is the list of entries its decoder delivers; `inspect` is the image decoder.
 Cancellation and I/O failures may strike at every call that can report them.
 */
module Extraction {
  import opened Bytes
  import opened Options
  import opened LimitReaders
  import opened OutputFiles
  import opened PageOrder

  datatype Error =
    | PageLimit | TotalLimit | EntryLimit | Encrypted | UnsafeEntry
    | Corrupt | InvalidImage | Collision | Aborted  // Aborted: cancelled, or an I/O operation failed

  datatype Limits = Limits(maxEntries: nat, maxPageBytes: nat, maxTotalBytes: nat)

  /** One entry as the decoder presents it. */
  datatype ArchiveEntry = ArchiveEntry(
    name: Text, encrypted: bool, redirects: bool, directory: bool,
    opens: bool, content: Text, intact: bool, closes: bool)

  datatype Inspection = IsImage(mediaType: Text) | NotImage | Rejected

  datatype Candidate = Candidate(name: Text, temp: Text, size: nat, mediaType: Text)

  datatype Page = Page(name: Text, file: Text, size: nat, mediaType: Text)

  datatype Image = Image(name: Text, content: Text, mediaType: Text)

  function NameOfCandidate(c: Candidate): Text { c.name }

  function NameOfImage(image: Image): Text { image.name }

  // ----- What an archive should yield -----

  /** The fault of one regular entry, given the page limit and what is left of the total. */
  function EntryFault(entry: ArchiveEntry, pageLimit: nat, remaining: nat,
                      inspect: (Text, Text) -> Inspection): Option<Error>
  {
    if |entry.content| > pageLimit || |entry.content| > remaining then
      Some(if pageLimit <= remaining then PageLimit else TotalLimit)
    else if !entry.intact then Some(Corrupt)
    else if inspect(entry.name, entry.content).Rejected? then Some(InvalidImage)
    else None
  }

  /** The fault of one entry at its position: listing limit, attributes, contents, closing checksum. */
  function FaultAt(entry: ArchiveEntry, index: nat, remaining: nat, limits: Limits,
                   inspect: (Text, Text) -> Inspection): Option<Error>
  {
    if index + 1 > limits.maxEntries then Some(EntryLimit)
    else if entry.encrypted then Some(Encrypted)
    else if entry.redirects then Some(UnsafeEntry)
    else if entry.directory then None
    else RegularFault(entry, limits.maxPageBytes, remaining, inspect)
  }

  function RegularFault(entry: ArchiveEntry, pageLimit: nat, remaining: nat,
                        inspect: (Text, Text) -> Inspection): Option<Error>
  {
    var fault := EntryFault(entry, pageLimit, remaining, inspect);
    if !entry.opens then Some(Corrupt)
    else if fault.Some? then fault
    else if !entry.closes then Some(Corrupt)
    else None
  }

  /** The bytes an entry is charged for at its position, whether it is at fault or not. */
  function ChargeAt(entry: ArchiveEntry, index: nat, remaining: nat, limits: Limits): nat {
    if index + 1 > limits.maxEntries || entry.encrypted || entry.redirects || entry.directory || !entry.opens then 0
    else Fitting(entry.content, limits.maxPageBytes, remaining)
  }

  /** The bytes charged for the entries from `index` on, up to the first fault and in the entry at fault. */
  function ChargedFrom(entries: seq<ArchiveEntry>, index: nat, remaining: nat, limits: Limits,
                       inspect: (Text, Text) -> Inspection): nat
    requires index <= |entries|
    decreases |entries| - index
  {
    if index == |entries| then 0
    else
      var charge := ChargeAt(entries[index], index, remaining, limits);
      if FaultAt(entries[index], index, remaining, limits, inspect).Some? then charge
      else charge + ChargedFrom(entries, index + 1, remaining - charge, limits, inspect)
  }

  /** The bytes an entry takes from the total. */
  function Charge(entry: ArchiveEntry): nat {
    if entry.directory then 0 else |entry.content|
  }

  /** The first fault of the entries from `index` on; `complete` tells whether the listing ends well. */
  function FirstFault(entries: seq<ArchiveEntry>, complete: bool, index: nat, remaining: nat, limits: Limits,
                      inspect: (Text, Text) -> Inspection): Option<Error>
    requires index <= |entries|
    decreases |entries| - index
  {
    if index == |entries| then if complete then None else Some(Corrupt)
    else
      var fault := FaultAt(entries[index], index, remaining, limits, inspect);
      if fault.Some? then fault
      else FirstFault(entries, complete, index + 1, remaining - Charge(entries[index]), limits, inspect)
  }

  /** An entry's image, if it is one. */
  function ImageOf(entry: ArchiveEntry, inspect: (Text, Text) -> Inspection): seq<Image> {
    if entry.directory then []
    else match inspect(entry.name, entry.content)
      case IsImage(mediaType) => [Image(entry.name, entry.content, mediaType)]
      case _ => []
  }

  /** The images from `index` on, in archive order. */
  function ImagesFrom(entries: seq<ArchiveEntry>, index: nat, inspect: (Text, Text) -> Inspection): seq<Image>
    requires index <= |entries|
    decreases |entries| - index
  {
    if index == |entries| then [] else ImageOf(entries[index], inspect) + ImagesFrom(entries, index + 1, inspect)
  }

  function Images(entries: seq<ArchiveEntry>, inspect: (Text, Text) -> Inspection): seq<Image> {
    ImagesFrom(entries, 0, inspect)
  }

  /** The bytes of all regular entries from `index` on, images or not. */
  function Delivered(entries: seq<ArchiveEntry>, index: nat): nat
    requires index <= |entries|
    decreases |entries| - index
  {
    if index == |entries| then 0 else Charge(entries[index]) + Delivered(entries, index + 1)
  }

  /** The pages are the images, numbered in order; they are all that was added to the directory. */
  ghost predicate Published(files: Files, before: Files, pages: seq<Page>, images: seq<Image>) {
    && |pages| == |images|
    && (forall i :: 0 <= i < |images| ==>
      pages[i] == Page(images[i].name, PageFile(i), |images[i].content|, images[i].mediaType))
    && (forall i :: 0 <= i < |images| ==>
      PageFile(i) !in before && PageFile(i) in files && files[PageFile(i)] == images[i].content)
    && (forall n :: n in before ==> n in files && files[n] == before[n])
    && (forall n :: n in files ==> n in before || exists i: nat :: i < |images| && n == PageFile(i))
  }

  // ----- When an archive has no fault -----

  /**
   An entry that is neither encrypted nor a link, and unless it is a directory opens, fits, decodes, is
   no broken image and closes.
   */
  predicate GoodEntry(entry: ArchiveEntry, maxPageBytes: nat, inspect: (Text, Text) -> Inspection) {
    && !entry.encrypted && !entry.redirects
    && (entry.directory
        || (&& entry.opens && |entry.content| <= maxPageBytes && entry.intact && entry.closes
            && inspect(entry.name, entry.content) != Rejected))
  }

  lemma {:induction false} FaultlessFrom(entries: seq<ArchiveEntry>, complete: bool, index: nat, remaining: nat,
                                         limits: Limits, inspect: (Text, Text) -> Inspection)
    requires index <= |entries|
    ensures FirstFault(entries, complete, index, remaining, limits, inspect) == None <==>
            && complete && (index < |entries| ==> |entries| <= limits.maxEntries)
            && (forall k :: index <= k < |entries| ==> GoodEntry(entries[k], limits.maxPageBytes, inspect))
            && Delivered(entries, index) <= remaining
    decreases |entries| - index
  {
    if index < |entries| && FaultAt(entries[index], index, remaining, limits, inspect) == None {
      FaultlessFrom(entries, complete, index + 1, remaining - Charge(entries[index]), limits, inspect);
    }
  }

  /**
   Exactly which archives are extracted: complete ones with at most maxEntries entries, all of them
   good, that deliver at most maxTotalBytes in all, skipped entries included.
   */
  lemma FaultlessIff(entries: seq<ArchiveEntry>, complete: bool, limits: Limits, inspect: (Text, Text) -> Inspection)
    ensures FirstFault(entries, complete, 0, limits.maxTotalBytes, limits, inspect) == None <==>
            && complete && |entries| <= limits.maxEntries
            && (forall k :: 0 <= k < |entries| ==> GoodEntry(entries[k], limits.maxPageBytes, inspect))
            && Delivered(entries, 0) <= limits.maxTotalBytes
  {
    FaultlessFrom(entries, complete, 0, limits.maxTotalBytes, limits, inspect);
  }

  // ----- Bookkeeping -----

  /** Every file that was not there before is tracked, and no tracked file was. */
  ghost predicate Tracked(files: Files, before: Files, created: seq<Text>) {
    && (forall n :: n in before ==> n in files && files[n] == before[n])
    && (forall n :: n in files ==> n in before || n in created)
    && (forall n :: n in created ==> n !in before)
  }

  class ExtractionState {
    var created: seq<Text>

    constructor ()
      ensures created == []
    {
      created := [];
    }

    method Track(path: Text)
      modifies this
      ensures created == old(created) + [path]
    {
      created := created + [path];
    }

    /** Removes what was created, newest first. */
    method Cleanup(dir: OutputDir, ghost before: Files)
      requires dir.Valid() && Tracked(dir.files, before, created)
      modifies dir
      ensures dir.Valid() && dir.files == before && dir.peak == old(dir.peak)
    {
      var i := |created|;
      while i > 0
        invariant 0 <= i <= |created| && dir.Valid() && dir.peak == old(dir.peak)
        invariant Tracked(dir.files, before, created[..i])
      {
        i := i - 1;
        assert created[..i + 1] == created[..i] + [created[i]];
        dir.Remove(created[i]);
      }
    }
  }

  ghost function Max(a: int, b: int): int {
    if a > b then a else b
  }

  /**
   An abort has a reason, and a success has none: `before` and `after` are the context's record of
   interruptions.
   */
  predicate Earned(before: bool, after: bool, fault: Option<Error>) {
    && (before ==> after)
    && (fault == Some(Aborted) ==> after)
    && (fault == None ==> after == before)
  }

  // ----- One entry -----

  function FaultOf(status: Status): Error {
    match status
    case PageTooLarge => PageLimit
    case TotalBytesExceeded => TotalLimit
    case DecodeFailed => Corrupt
    case _ => Aborted
  }

  /** What the copy of `content` into `temp` ends with, given the two limits it started with. */
  ghost predicate CopyResult(content: Text, intact: bool, pageLimit: nat, remaining: nat, fault: Option<Error>) {
    match fault
    case None => |content| <= pageLimit && |content| <= remaining && intact
    case Some(Aborted) => true
    case Some(PageLimit) => |content| > pageLimit && pageLimit <= remaining
    case Some(TotalLimit) => |content| > remaining && remaining < pageLimit
    case Some(Corrupt) => |content| <= pageLimit && |content| <= remaining && !intact
    case _ => false
  }

  /** The bytes a copy of `content` is charged for: what fits both limits, or a part of it when it is aborted. */
  ghost predicate Charges(content: Text, pageLimit: nat, remaining: nat, charged: int, aborted: bool) {
    && 0 <= charged <= Fitting(content, pageLimit, remaining)
    && (!aborted ==> charged == Fitting(content, pageLimit, remaining))
  }

  /** What of the content the limit reader delivers. */
  function Fitting(content: Text, pageLimit: nat, remaining: nat): nat {
    Min(|content|, Min(pageLimit, remaining))
  }

  lemma AbortedCopy(content: Text, intact: bool, pageLimit: nat, remaining: nat, charged: nat)
    requires charged <= |content| && charged <= pageLimit && charged <= remaining
    ensures CopyResult(content, intact, pageLimit, remaining, Some(Aborted))
            && Charges(content, pageLimit, remaining, charged, true)
  {
  }

  /** The reader's last status, after `size` bytes, decides how the copy ends and what it is charged for. */
  lemma CopyEnds(content: Text, ending: Status, pageLimit: nat, remaining: nat, size: nat, status: Status)
    requires (ending.Eof? || ending.DecodeFailed?) && size <= |content| && size <= pageLimit && size <= remaining
    requires status.Eof? || status.DecodeFailed? ==> status == ending && size == |content|
    requires status.PageTooLarge? ==> size == pageLimit < |content|
    requires status.TotalBytesExceeded? ==> size == remaining < |content| && size < pageLimit
    requires !status.More? && !status.ArchiveTooLarge?
    ensures var fault := if status == Eof then None else Some(FaultOf(status));
            && CopyResult(content, ending == Eof, pageLimit, remaining, fault)
            && Charges(content, pageLimit, remaining, size, fault == Some(Aborted))
  {
  }

  /** Appends a piece unless the extraction is cancelled by then. */
  method WriteChunk(ctx: Context, dir: OutputDir, temp: Text, chunk: Text) returns (ok: bool)
    requires dir.Valid() && temp in dir.files
    modifies dir, ctx
    ensures ctx.interrupted == (old(ctx.interrupted) || !ok)
    ensures dir.Valid() && temp in dir.files && dir.files - {temp} == old(dir.files) - {temp}
    ensures ok ==> dir.files[temp] == old(dir.files[temp]) + chunk && dir.bytes == old(dir.bytes) + |chunk|
    ensures old(dir.peak) <= dir.peak <= Max(old(dir.peak), old(dir.bytes) + |chunk|)
  {
    hide TotalBytes;
    var done := ctx.Done();
    if done {
      return false;
    }
    ok := dir.Append(ctx, temp, chunk);
  }

  /** Reads one piece through the limits and writes it; `ok` unless the write was interrupted. */
  method CopyPiece(limited: EntryLimitReader, dir: OutputDir, temp: Text)
    returns (status: Status, n: nat, ok: bool)
    requires limited.source.Valid() && dir.Valid() && temp in dir.files
    requires dir.files[temp] == limited.source.content[..limited.source.pos]
    modifies limited, limited.source, limited.total, limited.ctx, dir
    ensures limited.source.Valid() && dir.Valid() && temp in dir.files && dir.files - {temp} == old(dir.files) - {temp}
    ensures n <= old(limited.pageRemaining) && n <= old(limited.total.remaining)
    ensures old(limited.source.pos) + n <= |limited.source.content|
    ensures limited.pageRemaining == old(limited.pageRemaining) - n
    ensures limited.total.remaining == old(limited.total.remaining) - n
    ensures limited.ctx.interrupted == (old(limited.ctx.interrupted) || !ok || status.Cancelled?)
    ensures old(dir.peak) <= dir.peak <= Max(old(dir.peak), old(dir.bytes) + n)
    ensures ok ==>
              && dir.files[temp] == limited.source.content[..old(limited.source.pos) + n]
              && dir.bytes == old(dir.bytes) + n && !status.ArchiveTooLarge?
              && (status.More? ==> n > 0 && limited.source.pos == old(limited.source.pos) + n)
              && (status.Eof? || status.DecodeFailed? ==>
                status == limited.source.ending && old(limited.source.pos) + n == |limited.source.content|)
              && (status.PageTooLarge? ==>
                n == 0 && old(limited.pageRemaining) == 0 && old(limited.source.pos) < |limited.source.content|)
              && (status.TotalBytesExceeded? ==>
                && n == 0 && old(limited.total.remaining) == 0 && old(limited.pageRemaining) != 0
                && old(limited.source.pos) < |limited.source.content|)
  {
    hide TotalBytes;
    ghost var content, pos := limited.source.content, limited.source.pos;
    ok := true;
    var chunk;
    chunk, status := limited.Read(0x10_0000);
    n := |chunk|;
    if chunk != [] {
      assert content[..pos + n] == content[..pos] + chunk;
      ok := WriteChunk(limited.ctx, dir, temp, chunk);
    }
  }

  /** Copies an entry to its temporary file through the limit reader. */
  method CopyEntry(limited: EntryLimitReader, dir: OutputDir, temp: Text) returns (fault: Option<Error>, size: nat)
    requires limited.source.Valid() && limited.source.pos == 0
    requires dir.Valid() && temp in dir.files && dir.files[temp] == []
    modifies limited, limited.source, limited.total, limited.ctx, dir
    ensures Earned(old(limited.ctx.interrupted), limited.ctx.interrupted, fault)
    ensures dir.Valid() && temp in dir.files && dir.files - {temp} == old(dir.files) - {temp}
    ensures limited.total.remaining <= old(limited.total.remaining)
    ensures old(dir.peak) <= dir.peak <=
            Max(old(dir.peak), old(dir.bytes) + old(limited.total.remaining) - limited.total.remaining)
    ensures CopyResult(limited.source.content, limited.source.ending == Eof,
                       old(limited.pageRemaining), old(limited.total.remaining), fault)
    ensures fault.None? ==>
              && dir.files[temp] == limited.source.content && size == |limited.source.content|
              && limited.total.remaining == old(limited.total.remaining) - size
              && dir.bytes == old(dir.bytes) + size
    ensures Charges(limited.source.content, old(limited.pageRemaining), old(limited.total.remaining),
                    old(limited.total.remaining) - limited.total.remaining, fault == Some(Aborted))
  {
    hide CopyResult, Charges, Fitting, TotalBytes;
    ghost var content, page, total := limited.source.content, limited.pageRemaining, limited.total.remaining;
    ghost var intact := limited.source.ending == Eof;
    var ctx := limited.ctx;
    size := 0;
    while true
      invariant limited.source.Valid() && dir.Valid() && size == limited.source.pos
      invariant ctx.interrupted == old(limited.ctx.interrupted)
      invariant limited.pageRemaining == old(limited.pageRemaining) - size
      invariant limited.total.remaining == old(limited.total.remaining) - size
      invariant temp in dir.files && dir.files - {temp} == old(dir.files) - {temp}
      invariant dir.files[temp] == limited.source.content[..size] && dir.bytes == old(dir.bytes) + size
      invariant old(dir.peak) <= dir.peak <= Max(old(dir.peak), old(dir.bytes) + size)
      decreases |limited.source.content| - size
    {
      var done := ctx.Done();
      if done {
        AbortedCopy(content, intact, page, total, size);
        return Some(Aborted), size;
      }
      var status, n, ok := CopyPiece(limited, dir, temp);
      AbortedCopy(content, intact, page, total, size + n);
      if !ok {
        return Some(Aborted), size;
      }
      size := size + n;
      if status != More {
        CopyEnds(content, limited.source.ending, page, total, size, status);
        var closed := ctx.FileOperation();
        if status == Eof {
          return if closed then None else Some(Aborted), size;
        }
        return Some(FaultOf(status)), size;
      }
    }
  }

  lemma OneFileChanged(files: Files, before: Files, name: Text, start: Text, content: Text)
    requires name in files && files[name] == content && files - {name} == before[name := start] - {name}
    ensures files == before[name := content]
  {
    forall n | n != name ensures n in files <==> n in before {
      assert n in files <==> n in files - {name};
      assert n in before <==> n in before[name := start] - {name};
    }
    forall n | n in files && n != name ensures files[n] == before[n] {
      assert (files - {name})[n] == (before[name := start] - {name})[n];
    }
  }

  /** Removing the temporary file restores the directory. */
  lemma TempRemoved(files: Files, before: Files, name: Text, start: Text)
    requires name !in before && files - {name} == before[name := start] - {name}
    ensures files - {name} == before
  {
    assert before[name := start] - {name} == before;
  }

  lemma SameFilesSameBytes(dir: OutputDir, files: Files)
    requires dir.Valid() && dir.files == files
    ensures dir.bytes == TotalBytes(files)
  {
  }

  datatype Outcome = Kept(candidate: Candidate) | Skipped | Failed(error: Error)

  /** Opens the file, detects and decodes the image. */
  method InspectImage(ctx: Context, entry: ArchiveEntry, inspect: (Text, Text) -> Inspection)
    returns (r: Option<Inspection>)
    modifies ctx
    ensures ctx.interrupted == (old(ctx.interrupted) || r == None)
    ensures r.Some? ==> r.value == inspect(entry.name, entry.content)
  {
    var readable := ctx.FileOperation();
    r := if readable then Some(inspect(entry.name, entry.content)) else None;
  }

  /** Wraps the entry's reader in the limits and copies it to the temporary file. */
  method CopyToTemp(ctx: Context, entry: ArchiveEntry, dir: OutputDir, temp: Text, pageLimit: nat, total: Budget)
    returns (fault: Option<Error>, size: nat)
    requires dir.Valid() && temp in dir.files && dir.files[temp] == []
    modifies dir, total, ctx
    ensures Earned(old(ctx.interrupted), ctx.interrupted, fault)
    ensures dir.Valid() && temp in dir.files && dir.files - {temp} == old(dir.files) - {temp}
    ensures total.remaining <= old(total.remaining)
    ensures old(dir.peak) <= dir.peak <=
            Max(old(dir.peak), old(dir.bytes) + old(total.remaining) - total.remaining)
    ensures CopyResult(entry.content, entry.intact, pageLimit, old(total.remaining), fault)
    ensures fault.None? ==>
              && dir.files[temp] == entry.content && size == |entry.content|
              && total.remaining == old(total.remaining) - size && dir.bytes == old(dir.bytes) + size
    ensures Charges(entry.content, pageLimit, old(total.remaining), old(total.remaining) - total.remaining,
                    fault == Some(Aborted))
  {
    hide TotalBytes, Fitting, CopyResult, Charges;
    var source := new Source(entry.content, if entry.intact then Eof else DecodeFailed);
    var limited := new EntryLimitReader(ctx, source, pageLimit, total);
    fault, size := CopyEntry(limited, dir, temp);
  }

  /** What the copy ends with, and then the inspection, is the fault of the entry. */
  lemma CopyFault(entry: ArchiveEntry, pageLimit: nat, remaining: nat, fault: Option<Error>,
                  inspect: (Text, Text) -> Inspection)
    requires CopyResult(entry.content, entry.intact, pageLimit, remaining, fault)
    ensures fault.Some? && fault != Some(Aborted) ==> EntryFault(entry, pageLimit, remaining, inspect) == fault
    ensures fault == None ==>
              EntryFault(entry, pageLimit, remaining, inspect) ==
              if inspect(entry.name, entry.content).Rejected? then Some(InvalidImage) else None
  {
  }

  /** One entry: a temporary file that stays only if the entry turns out to be an image. */
  method ConsumeEntry(ctx: Context, entry: ArchiveEntry, dir: OutputDir, pageLimit: nat, total: Budget,
                      state: ExtractionState, inspect: (Text, Text) -> Inspection)
    returns (r: Outcome, ghost temp: Text)
    requires dir.Valid()
    modifies dir, total, state, ctx
    ensures Earned(old(ctx.interrupted), ctx.interrupted, if r.Failed? then Some(r.error) else None)
    ensures dir.Valid() && total.remaining <= old(total.remaining)
    ensures old(dir.peak) <= dir.peak <=
            Max(old(dir.peak), old(dir.bytes) + old(total.remaining) - total.remaining)
    ensures state.created == old(state.created)
            || (temp !in old(dir.files) && state.created == old(state.created) + [temp])
    ensures r.Kept? ==>
              && state.created == old(state.created) + [temp] && IsTemp(temp) && temp !in old(dir.files)
              && dir.files == old(dir.files)[temp := entry.content] && dir.bytes == old(dir.bytes) + |entry.content|
              && inspect(entry.name, entry.content) == IsImage(r.candidate.mediaType)
              && r.candidate == Candidate(entry.name, temp, |entry.content|, r.candidate.mediaType)
    ensures r.Skipped? ==> inspect(entry.name, entry.content) == NotImage
    ensures !r.Kept? ==> dir.files == old(dir.files) && dir.bytes == old(dir.bytes)
    ensures var fault := EntryFault(entry, pageLimit, old(total.remaining), inspect);
            match r
            case Failed(error) => error == Aborted || fault == Some(error)
            case _ => fault == None && total.remaining == old(total.remaining) - |entry.content|
    ensures Charges(entry.content, pageLimit, old(total.remaining), old(total.remaining) - total.remaining,
                    r == Failed(Aborted))
  {
    hide TotalBytes, Fitting, CopyResult, EntryFault;
    temp := [];
    var done := ctx.Done();
    if done {
      return Failed(Aborted), temp;
    }
    var made, path := dir.CreateTemp(ctx);
    if !made {
      return Failed(Aborted), temp;
    }
    temp := path;
    state.Track(path);
    var fault, size := CopyToTemp(ctx, entry, dir, path, pageLimit, total);
    CopyFault(entry, pageLimit, old(total.remaining), fault, inspect);
    if fault == None {
      var inspection := InspectImage(ctx, entry, inspect);
      if inspection.Some? && inspection.value.IsImage? {
        r := Kept(Candidate(entry.name, path, size, inspection.value.mediaType));
        OneFileChanged(dir.files, old(dir.files), path, [], entry.content);
        return;
      }
      r := match inspection
        case Some(NotImage) => Skipped
        case Some(_) => Failed(InvalidImage)
        case None => Failed(Aborted);
    } else {
      r := Failed(fault.value);
    }
    TempRemoved(dir.files, old(dir.files), path, []);
    dir.Remove(path);
    SameFilesSameBytes(dir, old(dir.files));
  }

  // ----- All entries -----

  /** The candidates' temporary files are all that was added, and they hold the images. */
  ghost predicate Holding(files: Files, before: Files, candidates: seq<Candidate>, images: seq<Image>) {
    && |candidates| == |images|
    && (forall i :: 0 <= i < |images| ==> Matches(candidates[i], images[i], files, before))
    && (forall i, j :: 0 <= i < j < |candidates| ==> candidates[i].temp != candidates[j].temp)
    && files.Keys <= before.Keys + TempsOf(candidates)
  }

  ghost function TempsOf(candidates: seq<Candidate>): set<Text> {
    if candidates == [] then {}
    else TempsOf(candidates[..|candidates| - 1]) + {candidates[|candidates| - 1].temp}
  }

  lemma {:induction false} TempOfSome(candidates: seq<Candidate>, temp: Text) returns (i: nat)
    requires temp in TempsOf(candidates)
    ensures i < |candidates| && candidates[i].temp == temp
  {
    var last := |candidates| - 1;
    if candidates[last].temp == temp {
      i := last;
    } else {
      i := TempOfSome(candidates[..last], temp);
    }
  }

  lemma {:induction false} TempOfEach(candidates: seq<Candidate>, i: nat)
    requires i < |candidates|
    ensures candidates[i].temp in TempsOf(candidates)
  {
    var last := |candidates| - 1;
    if i < last {
      TempOfEach(candidates[..last], i);
    }
  }

  ghost predicate Matches(c: Candidate, image: Image, files: Files, before: Files) {
    && IsTemp(c.temp) && c.temp !in before && c.temp in files && files[c.temp] == image.content
    && c.name == image.name && c.mediaType == image.mediaType && c.size == |image.content|
  }

  lemma HoldOneMore(files: Files, before: Files, candidates: seq<Candidate>, images: seq<Image>,
                    c: Candidate, image: Image)
    requires Holding(files, before, candidates, images) && c.temp !in files
    requires forall n :: n in before ==> n in files
    requires Matches(c, image, files[c.temp := image.content], before)
    ensures Holding(files[c.temp := image.content], before, candidates + [c], images + [image])
  {
    var files', candidates', images' := files[c.temp := image.content], candidates + [c], images + [image];
    forall i | 0 <= i < |images'| ensures Matches(candidates'[i], images'[i], files', before) {
      if i < |images| {
        assert Matches(candidates[i], images[i], files, before);
      }
    }
    assert candidates'[..|candidates|] == candidates;
  }

  /** What the loop has established after `index` entries. */
  ghost predicate Progress(entries: seq<ArchiveEntry>, complete: bool, index: nat, remaining: nat, limits: Limits,
                           inspect: (Text, Text) -> Inspection, images: seq<Image>, expected: Option<Error>)
  {
    && index <= |entries| && remaining <= limits.maxTotalBytes
    && limits.maxTotalBytes - remaining + Delivered(entries, index) == Delivered(entries, 0)
    && Images(entries, inspect) == images + ImagesFrom(entries, index, inspect)
    && expected == FirstFault(entries, complete, index, remaining, limits, inspect)
  }

  /** The fault of the entry at index, if it has one, is the first fault of the archive; if not, the loop goes on. */
  lemma ProgressStep(entries: seq<ArchiveEntry>, complete: bool, index: nat, remaining: nat, limits: Limits,
                     inspect: (Text, Text) -> Inspection, images: seq<Image>, expected: Option<Error>)
    requires Progress(entries, complete, index, remaining, limits, inspect, images, expected) && index < |entries|
    ensures var entry, fault := entries[index], FaultAt(entries[index], index, remaining, limits, inspect);
            if fault.Some? then expected == fault
            else Progress(entries, complete, index + 1, remaining - Charge(entry), limits, inspect,
                          images + ImageOf(entry, inspect), expected)
  {
    var entry, rest := entries[index], ImagesFrom(entries, index + 1, inspect);
    assert images + (ImageOf(entry, inspect) + rest) == images + ImageOf(entry, inspect) + rest;
  }

  /** An entry without a fault is charged in full; the entry at fault is the last that is charged. */
  lemma ChargedStep(entries: seq<ArchiveEntry>, index: nat, remaining: nat, limits: Limits,
                    inspect: (Text, Text) -> Inspection)
    requires index < |entries|
    ensures var entry, fault := entries[index], FaultAt(entries[index], index, remaining, limits, inspect);
            var charge := ChargeAt(entry, index, remaining, limits);
            if fault.Some? then ChargedFrom(entries, index, remaining, limits, inspect) == charge
            else
              && charge == Charge(entry) <= remaining
              && ChargedFrom(entries, index, remaining, limits, inspect) ==
                 charge + ChargedFrom(entries, index + 1, remaining - charge, limits, inspect)
  {
  }

  lemma NothingCharged(entries: seq<ArchiveEntry>, remaining: nat, limits: Limits, inspect: (Text, Text) -> Inspection)
    ensures ChargedFrom(entries, |entries|, remaining, limits, inspect) == 0
  {
  }

  lemma LoopStarts(entries: seq<ArchiveEntry>, complete: bool, limits: Limits, inspect: (Text, Text) -> Inspection,
                   before: Files)
    ensures Progress(entries, complete, 0, limits.maxTotalBytes, limits, inspect, [],
                     FirstFault(entries, complete, 0, limits.maxTotalBytes, limits, inspect))
    ensures Tracked(before, before, []) && Holding(before, before, [], [])
  {
  }

  lemma ProgressEnds(entries: seq<ArchiveEntry>, complete: bool, remaining: nat, limits: Limits,
                     inspect: (Text, Text) -> Inspection, images: seq<Image>, expected: Option<Error>)
    requires Progress(entries, complete, |entries|, remaining, limits, inspect, images, expected)
    ensures expected == if complete then None else Some(Corrupt)
    ensures limits.maxTotalBytes - remaining == Delivered(entries, 0) && images == Images(entries, inspect)
  {
  }

  /** One turn of the loop: check the entry's attributes, open, consume, close, keep the candidate. */
  method VisitEntry(ctx: Context, entry: ArchiveEntry, index: nat, dir: OutputDir, limits: Limits, total: Budget,
                    state: ExtractionState, inspect: (Text, Text) -> Inspection, candidates: seq<Candidate>,
                    ghost before: Files, ghost images: seq<Image>)
    returns (fault: Option<Error>, candidates': seq<Candidate>, ghost images': seq<Image>)
    requires dir.Valid() && Tracked(dir.files, before, state.created) && Holding(dir.files, before, candidates, images)
    modifies dir, total, state, ctx
    ensures Earned(old(ctx.interrupted), ctx.interrupted, fault)
    ensures dir.Valid() && Tracked(dir.files, before, state.created)
    ensures total.remaining <= old(total.remaining)
    ensures old(dir.peak) <= dir.peak <=
            Max(old(dir.peak), old(dir.bytes) + old(total.remaining) - total.remaining)
    ensures fault == None ==>
              && total.remaining == old(total.remaining) - Charge(entry)
              && dir.bytes <= old(dir.bytes) + Charge(entry)
              && images' == images + ImageOf(entry, inspect)
              && Holding(dir.files, before, candidates', images')
    ensures fault == Some(Aborted) || fault == FaultAt(entry, index, old(total.remaining), limits, inspect)
    ensures var most := ChargeAt(entry, index, old(total.remaining), limits);
            var charged := old(total.remaining) - total.remaining;
            0 <= charged <= most && (fault != Some(Aborted) ==> charged == most)
  {
    candidates', images' := candidates, images;
    var done := ctx.Done();
    if done {
      return Some(Aborted), candidates', images';
    }
    if index + 1 > limits.maxEntries {
      return Some(EntryLimit), candidates', images';
    }
    if entry.encrypted {
      return Some(Encrypted), candidates', images';
    }
    if entry.redirects {
      return Some(UnsafeEntry), candidates', images';
    }
    if entry.directory {
      assert images + [] == images;
      return None, candidates', images';
    }
    if !entry.opens {
      return Some(Corrupt), candidates', images';
    }
    var outcome, temp := ConsumeEntry(ctx, entry, dir, limits.maxPageBytes, total, state, inspect);
    if outcome.Failed? {
      return Some(outcome.error), candidates', images';
    }
    if !entry.closes {
      return Some(Corrupt), candidates', images';
    }
    if outcome.Kept? {
      ghost var image := Image(entry.name, entry.content, outcome.candidate.mediaType);
      HoldOneMore(old(dir.files), before, candidates, images, outcome.candidate, image);
      candidates' := candidates + [outcome.candidate];
      images' := images + [image];
    }
    assert images + [] == images;
    fault := None;
  }

  /** The extraction loop over the decoder's entries, in archive order. */
  method ExtractEntries(ctx: Context, entries: seq<ArchiveEntry>, complete: bool, dir: OutputDir, limits: Limits,
                        state: ExtractionState, inspect: (Text, Text) -> Inspection)
    returns (fault: Option<Error>, candidates: seq<Candidate>, ghost delivered: nat)
    requires dir.Valid() && state.created == []
    modifies dir, state, ctx
    ensures Earned(old(ctx.interrupted), ctx.interrupted, fault)
    ensures dir.Valid()
    ensures Tracked(dir.files, old(dir.files), state.created)
    ensures old(dir.peak) <= dir.peak <= Max(old(dir.peak), old(dir.bytes) + delivered)
    ensures delivered <= limits.maxTotalBytes
    ensures var expected := FirstFault(entries, complete, 0, limits.maxTotalBytes, limits, inspect);
            fault == Some(Aborted) || fault == expected
    ensures var charged := ChargedFrom(entries, 0, limits.maxTotalBytes, limits, inspect);
            delivered <= charged && (fault != Some(Aborted) ==> delivered == charged)
    ensures fault == None ==>
              && delivered == Delivered(entries, 0)
              && Holding(dir.files, old(dir.files), candidates, Images(entries, inspect))
  {
    hide Holding, Tracked, Progress, FirstFault, FaultAt, ChargeAt, ChargedFrom, Delivered, ImagesFrom;
    var total := new Budget(limits.maxTotalBytes);
    ghost var before := dir.files;
    ghost var expected := FirstFault(entries, complete, 0, limits.maxTotalBytes, limits, inspect);
    ghost var images: seq<Image> := [];
    candidates := [];
    var index := 0;
    LoopStarts(entries, complete, limits, inspect, before);
    while index < |entries|
      invariant 0 <= index <= |entries| && dir.Valid() && fresh(total) && total.remaining <= limits.maxTotalBytes
      invariant old(dir.peak) <= dir.peak <= Max(old(dir.peak), old(dir.bytes) + limits.maxTotalBytes - total.remaining)
      invariant dir.bytes <= old(dir.bytes) + limits.maxTotalBytes - total.remaining
      invariant Progress(entries, complete, index, total.remaining, limits, inspect, images, expected)
      invariant limits.maxTotalBytes - total.remaining +
                ChargedFrom(entries, index, total.remaining, limits, inspect) ==
                ChargedFrom(entries, 0, limits.maxTotalBytes, limits, inspect)
      invariant Tracked(dir.files, before, state.created)
      invariant Holding(dir.files, before, candidates, images)
      invariant ctx.interrupted == old(ctx.interrupted)
    {
      ProgressStep(entries, complete, index, total.remaining, limits, inspect, images, expected);
      ChargedStep(entries, index, total.remaining, limits, inspect);
      fault, candidates, images :=
        VisitEntry(ctx, entries[index], index, dir, limits, total, state, inspect, candidates, before, images);
      if fault.Some? {
        delivered := limits.maxTotalBytes - total.remaining;
        return;
      }
      index := index + 1;
    }
    ProgressEnds(entries, complete, total.remaining, limits, inspect, images, expected);
    NothingCharged(entries, total.remaining, limits, inspect);
    delivered := limits.maxTotalBytes - total.remaining;
    fault := if complete then None else Some(Corrupt);
  }

  // ----- Publication -----

  /** The image behind a candidate, read from its temporary file. */
  function ImageIn(files: Files, c: Candidate): Image {
    Image(c.name, if c.temp in files then files[c.temp] else [], c.mediaType)
  }

  /** The images behind a list of candidates. */
  function ImagesIn(files: Files, candidates: seq<Candidate>): (images: seq<Image>)
    ensures |images| == |candidates|
    ensures forall i :: 0 <= i < |images| ==> images[i] == ImageIn(files, candidates[i])
  {
    seq(|candidates|, i requires 0 <= i < |candidates| => ImageIn(files, candidates[i]))
  }

  /** Sorting the candidates sorts their images along. */
  lemma SortedImages(files: Files, before: Files, candidates: seq<Candidate>, images: seq<Image>, lower: Text -> Text)
    requires Holding(files, before, candidates, images)
    ensures ImagesIn(files, StableSort(candidates, NameOfCandidate, lower)) == StableSort(images, NameOfImage, lower)
  {
    var f := c => ImageIn(files, c);
    forall i | 0 <= i < |images| ensures Relabel(candidates, f)[i] == images[i] {
      assert Matches(candidates[i], images[i], files, before);
    }
    assert Relabel(candidates, f) == images;
    SortRelabel(candidates, f, NameOfCandidate, NameOfImage, lower);
  }

  lemma PermutedMember(candidates: seq<Candidate>, sorted: seq<Candidate>, i: nat) returns (j: nat)
    requires multiset(sorted) == multiset(candidates) && i < |sorted|
    ensures j < |candidates| && candidates[j] == sorted[i]
  {
    assert sorted[i] in multiset(candidates);
    j :| 0 <= j < |candidates| && candidates[j] == sorted[i];
  }

  lemma PermutedHolding(files: Files, before: Files, candidates: seq<Candidate>, images: seq<Image>,
                        sorted: seq<Candidate>)
    requires Holding(files, before, candidates, images)
    requires multiset(sorted) == multiset(candidates)
    ensures Holding(files, before, sorted, ImagesIn(files, sorted))
  {
    forall i | 0 <= i < |sorted| ensures Matches(sorted[i], ImageIn(files, sorted[i]), files, before) {
      var j := PermutedMember(candidates, sorted, i);
      assert Matches(candidates[j], images[j], files, before);
    }
    PermutedTempsDistinct(candidates, sorted);
    forall n | n in files && n !in before ensures n in TempsOf(sorted) {
      var j := TempOfSome(candidates, n);
      var i := PermutedMember(sorted, candidates, j);
      TempOfEach(sorted, i);
    }
  }

  lemma PermutedTempsDistinct(s: seq<Candidate>, t: seq<Candidate>)
    requires multiset(s) == multiset(t)
    requires forall i, j :: 0 <= i < j < |s| ==> s[i].temp != s[j].temp
    ensures forall i, j :: 0 <= i < j < |t| ==> t[i].temp != t[j].temp
  {
    forall i, j | 0 <= i < j < |t| ensures t[i].temp != t[j].temp {
      if t[i].temp == t[j].temp {
        assert t[i] in multiset(s) && t[j] in multiset(s);
        var a :| 0 <= a < |s| && s[a] == t[i];
        var b :| 0 <= b < |s| && s[b] == t[j];
        assert a == b;
        OccursTwice(t, i, j);
        OccursOnce(s, a);
      }
    }
  }

  lemma OccursTwice(t: seq<Candidate>, i: nat, j: nat)
    requires i < j < |t| && t[i] == t[j]
    ensures multiset(t)[t[i]] >= 2
  {
    assert t == t[..i] + [t[i]] + t[i + 1..j] + [t[j]] + t[j + 1..];
  }

  lemma OccursOnce(s: seq<Candidate>, a: nat)
    requires a < |s| && forall i, j :: 0 <= i < j < |s| ==> s[i].temp != s[j].temp
    ensures multiset(s)[s[a]] == 1
  {
    assert s == s[..a] + [s[a]] + s[a + 1..];
    assert s[a] !in s[..a] && s[a] !in s[a + 1..];
  }

  /** After k renames: k page files, the other candidates still in their temporary files. */
  ghost predicate Renamed(files: Files, before: Files, sorted: seq<Candidate>, images: seq<Image>, k: nat) {
    && k <= |sorted| == |images|
    && (forall i, j :: 0 <= i < j < |sorted| ==> sorted[i].temp != sorted[j].temp)
    && (forall i :: 0 <= i < k ==> PageDone(files, before, images, i))
    && (forall i :: k <= i < |sorted| ==> Matches(sorted[i], images[i], files, before))
    && (forall n :: n in before ==> n in files && files[n] == before[n])
    && (forall n :: n in files && n !in before ==> IsPage(n, k) || IsWaiting(n, sorted, k))
  }

  ghost predicate PageDone(files: Files, before: Files, images: seq<Image>, i: nat)
    requires i < |images|
  {
    PageFile(i) !in before && PageFile(i) in files && files[PageFile(i)] == images[i].content
  }

  ghost predicate IsPage(n: Text, k: nat) {
    exists i: nat :: i < k && n == PageFile(i)
  }

  ghost predicate IsWaiting(n: Text, sorted: seq<Candidate>, k: nat) {
    exists i: nat :: k <= i < |sorted| && n == sorted[i].temp
  }

  lemma TempIsNoPage(temp: Text, index: nat)
    requires IsTemp(temp)
    ensures temp != PageFile(index)
  {
    assert temp[0] == TEMP_PREFIX[0];
    assert PageFile(index)[0] == PageFile(index)[..5][0];
  }

  lemma RenameOneMore(files: Files, before: Files, sorted: seq<Candidate>, images: seq<Image>, k: nat)
    requires Renamed(files, before, sorted, images, k) && k < |sorted| && PageFile(k) !in files
    ensures sorted[k].temp in files
    ensures Renamed((files - {sorted[k].temp})[PageFile(k) := files[sorted[k].temp]], before, sorted, images, k + 1)
  {
    var temp, page := sorted[k].temp, PageFile(k);
    assert Matches(sorted[k], images[k], files, before);
    var files' := (files - {temp})[page := files[temp]];
    forall i: nat | i < k + 1 ensures PageDone(files', before, images, i) {
      TempIsNoPage(temp, i);
      if i < k {
        assert PageDone(files, before, images, i);
      }
    }
    forall i | k + 1 <= i < |sorted| ensures Matches(sorted[i], images[i], files', before) {
      assert Matches(sorted[i], images[i], files, before);
      TempIsNoPage(sorted[i].temp, k);
    }
    forall n | n in files' && n !in before ensures IsPage(n, k + 1) || IsWaiting(n, sorted, k + 1) {
      if n != page && !IsPage(n, k) {
        var i: nat :| k <= i < |sorted| && n == sorted[i].temp;
        assert i != k;
      }
    }
  }

  lemma AllRenamed(files: Files, before: Files, sorted: seq<Candidate>, images: seq<Image>, pages: seq<Page>)
    requires Renamed(files, before, sorted, images, |sorted|) && |pages| == |images|
    requires forall i :: 0 <= i < |images| ==>
      pages[i] == Page(images[i].name, PageFile(i), |images[i].content|, images[i].mediaType)
    ensures Published(files, before, pages, images)
  {
    forall i | 0 <= i < |images|
      ensures PageFile(i) !in before && PageFile(i) in files && files[PageFile(i)] == images[i].content
    {
      assert PageDone(files, before, images, i);
    }
    forall n | n in files && n !in before ensures exists i: nat :: i < |images| && n == PageFile(i) {
      assert IsPage(n, |sorted|);
    }
  }

  /** One candidate: refuse to overwrite, rename, track. */
  method PublishPage(ctx: Context, dir: OutputDir, state: ExtractionState, ghost before: Files,
                     sorted: seq<Candidate>, ghost images: seq<Image>, index: nat)
                       returns (fault: Option<Error>, page: Page)
    requires dir.Valid() && Tracked(dir.files, before, state.created)
    requires Renamed(dir.files, before, sorted, images, index) && index < |sorted|
    modifies dir, state, ctx
    ensures Earned(old(ctx.interrupted), ctx.interrupted, fault)
    ensures dir.Valid() && dir.peak == old(dir.peak) && Tracked(dir.files, before, state.created)
    ensures fault == None ==>
              && Renamed(dir.files, before, sorted, images, index + 1)
              && page == Page(images[index].name, PageFile(index), |images[index].content|, images[index].mediaType)
    ensures fault.Some? ==> fault.value == Aborted || (fault.value == Collision && PageFile(index) in before)
  {
    var candidate := sorted[index];
    var file := PageFile(index);
    page := Page(candidate.name, file, candidate.size, candidate.mediaType);
    var stat := dir.Lstat(ctx, file);
    if stat == Present {
      CollidingFile(dir.files, before, sorted, images, index);
      return Some(Collision), page;
    }
    if stat != Absent {
      return Some(Aborted), page;
    }
    RenameOneMore(dir.files, before, sorted, images, index);
    assert Matches(candidate, images[index], dir.files, before);
    var renamed := dir.Rename(ctx, candidate.temp, file);
    if !renamed {
      return Some(Aborted), page;
    }
    state.Track(file);
    fault := None;
  }

  /** Sorts the candidates and renames them to numbered page files. */
  method MaterializePages(ctx: Context, candidates: seq<Candidate>, dir: OutputDir, state: ExtractionState,
                          lower: Text -> Text, ghost before: Files, ghost images: seq<Image>)
    returns (fault: Option<Error>, pages: seq<Page>)
    requires dir.Valid() && Tracked(dir.files, before, state.created)
    requires Holding(dir.files, before, candidates, images)
    modifies dir, state, ctx
    ensures Earned(old(ctx.interrupted), ctx.interrupted, fault)
    ensures dir.Valid() && dir.peak == old(dir.peak)
    ensures Tracked(dir.files, before, state.created)
    ensures fault == None ==> Published(dir.files, before, pages, StableSort(images, NameOfImage, lower))
    ensures fault.Some? ==> fault.value == Aborted || fault.value == Collision
    ensures fault == Some(Collision) ==> exists i: nat :: i < |images| && PageFile(i) in before
  {
    var sorted := StableSort(candidates, NameOfCandidate, lower);
    ghost var sortedImages := ImagesIn(dir.files, sorted);
    SortedImages(dir.files, before, candidates, images, lower);
    SortIsSortedPermutation(candidates, NameOfCandidate, lower);
    PermutedHolding(dir.files, before, candidates, images, sorted);
    StartRenaming(dir.files, before, sorted, sortedImages);
    fault, pages := RenameAll(ctx, sorted, dir, state, before, sortedImages);
  }

  method RenameAll(ctx: Context, sorted: seq<Candidate>, dir: OutputDir, state: ExtractionState,
                   ghost before: Files, ghost images: seq<Image>)
    returns (fault: Option<Error>, pages: seq<Page>)
    requires dir.Valid() && Tracked(dir.files, before, state.created)
    requires Renamed(dir.files, before, sorted, images, 0)
    modifies dir, state, ctx
    ensures Earned(old(ctx.interrupted), ctx.interrupted, fault)
    ensures dir.Valid() && dir.peak == old(dir.peak)
    ensures Tracked(dir.files, before, state.created)
    ensures fault == None ==> Published(dir.files, before, pages, images)
    ensures fault.Some? ==> fault.value == Aborted || fault.value == Collision
    ensures fault == Some(Collision) ==> exists i: nat :: i < |images| && PageFile(i) in before
  {
    hide Tracked, Published, PageDone, IsPage, IsWaiting, Matches;
    pages := [];
    for index := 0 to |sorted|
      invariant dir.Valid() && dir.peak == old(dir.peak)
      invariant Tracked(dir.files, before, state.created)
      invariant Renamed(dir.files, before, sorted, images, index)
      invariant ctx.interrupted == old(ctx.interrupted)
      invariant |pages| == index
      invariant forall i :: 0 <= i < index ==>
        pages[i] == Page(images[i].name, PageFile(i), |images[i].content|, images[i].mediaType)
    {
      var done := ctx.Done();
      if done {
        return Some(Aborted), pages;
      }
      var page;
      fault, page := PublishPage(ctx, dir, state, before, sorted, images, index);
      if fault.Some? {
        return fault, pages;
      }
      pages := pages + [page];
    }
    AllRenamed(dir.files, before, sorted, images, pages);
    fault := None;
  }

  lemma StartRenaming(files: Files, before: Files, sorted: seq<Candidate>, images: seq<Image>)
    requires Holding(files, before, sorted, images)
    requires forall n :: n in before ==> n in files && files[n] == before[n]
    ensures Renamed(files, before, sorted, images, 0)
  {
    forall n | n in files && n !in before ensures IsWaiting(n, sorted, 0) {
      var i := TempOfSome(sorted, n);
    }
  }

  /** A page file that is in the way was there before. */
  lemma CollidingFile(files: Files, before: Files, sorted: seq<Candidate>, images: seq<Image>, k: nat)
    requires Renamed(files, before, sorted, images, k) && PageFile(k) in files
    ensures PageFile(k) in before
  {
    if PageFile(k) !in before {
      if IsPage(PageFile(k), k) {
        var i: nat :| i < k && PageFile(k) == PageFile(i);
        PageFilesDistinct(k, i);
      } else {
        var i: nat :| k <= i < |sorted| && PageFile(k) == sorted[i].temp;
        assert Matches(sorted[i], images[i], files, before);
        TempIsNoPage(sorted[i].temp, k);
      }
    }
  }

  /** What an extraction that nothing interrupts comes to. */
  ghost predicate Undisturbed(fault: Option<Error>, entries: seq<ArchiveEntry>, complete: bool, limits: Limits,
                              inspect: (Text, Text) -> Inspection, before: Files)
  {
    var expected := FirstFault(entries, complete, 0, limits.maxTotalBytes, limits, inspect);
    if expected.Some? then fault == expected
    else if exists i: nat :: i < |Images(entries, inspect)| && PageFile(i) in before then fault == Some(Collision)
    else fault == None
  }

  /**
   The whole extraction. On success exactly the listed page files were added, holding the images in
   natural order; on any failure the directory is as it was. Unless it is interrupted, it fails
   exactly with the archive's first fault, or with a collision exactly if a page file is in the way.
   At no moment did it hold more than MaxTotalBytes above what was there before.
   */
  method Extract(ctx: Context, entries: seq<ArchiveEntry>, complete: bool, dir: OutputDir, limits: Limits,
                 inspect: (Text, Text) -> Inspection, lower: Text -> Text)
    returns (fault: Option<Error>, pages: seq<Page>)
    requires dir.Valid()
    modifies dir, ctx
    ensures Earned(old(ctx.interrupted), ctx.interrupted, fault)
    ensures !ctx.interrupted ==> Undisturbed(fault, entries, complete, limits, inspect, old(dir.files))
    ensures dir.Valid() && dir.peak <= Max(old(dir.peak), old(dir.bytes) + limits.maxTotalBytes)
    ensures fault.Some? ==> dir.files == old(dir.files) && pages == []
    ensures fault == None ==>
              && Published(dir.files, old(dir.files), pages, StableSort(Images(entries, inspect), NameOfImage, lower))
              && Delivered(entries, 0) <= limits.maxTotalBytes
    ensures var expected := FirstFault(entries, complete, 0, limits.maxTotalBytes, limits, inspect);
            match fault
            case None => expected == None
            case Some(Aborted) => true
            case Some(Collision) =>
              expected == None && exists i: nat :: i < |Images(entries, inspect)| && PageFile(i) in old(dir.files)
            case Some(error) => expected == Some(error)
  {
    var state := new ExtractionState();
    ghost var before := dir.files;
    var candidates;
    ghost var delivered;
    pages := [];
    fault, candidates, delivered := ExtractEntries(ctx, entries, complete, dir, limits, state, inspect);
    FirstFaultIsNoCollision(entries, complete, 0, limits.maxTotalBytes, limits, inspect);
    if fault == None {
      var done := ctx.Done();
      if done {
        fault := Some(Aborted);
      } else {
        fault, pages := MaterializePages(ctx, candidates, dir, state, lower, before, Images(entries, inspect));
        SortedImageCount(Images(entries, inspect), lower);
      }
    }
    if fault.Some? {
      pages := [];
      state.Cleanup(dir, before);
    }
  }

  lemma SortedImageCount(images: seq<Image>, lower: Text -> Text)
    ensures |StableSort(images, NameOfImage, lower)| == |images|
  {
    SortIsSortedPermutation(images, NameOfImage, lower);
  }

  lemma {:induction false} FirstFaultIsNoCollision(entries: seq<ArchiveEntry>, complete: bool, index: nat,
                                                   remaining: nat,
                                                   limits: Limits, inspect: (Text, Text) -> Inspection)
    requires index <= |entries|
    ensures FirstFault(entries, complete, index, remaining, limits, inspect) != Some(Collision)
    decreases |entries| - index
  {
    if index < |entries| && FaultAt(entries[index], index, remaining, limits, inspect) == None {
      FirstFaultIsNoCollision(entries, complete, index + 1, remaining - Charge(entries[index]), limits, inspect);
    }
  }
}
