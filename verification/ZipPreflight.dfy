/**
 The check that runs before any ZIP directory is parsed: find the end-of-central-directory
 record (EOCD), refuse ZIP64 and multi-disk archives, and walk the central directory header by
 header. Field layouts are those of PKWARE APPNOTE.TXT, sections 4.3.12 (directory header),
 4.3.15 (ZIP64 locator) and 4.3.16 (EOCD).
 */
module ZipPreflight {
  import opened Bytes

  datatype Verdict = Accepted | Corrupt | Unsupported | EntryLimitExceeded | ReadFailed

  const EOCD_SIZE := 22
  const HEADER_SIZE := 46
  const MAX_COMMENT := 65535

  // "PK" followed by two bytes
  const EOCD_SIGNATURE: Text := [80, 75, 5, 6]
  const HEADER_SIGNATURE: Text := [80, 75, 1, 2]
  const LOCATOR_SIGNATURE: Text := [80, 75, 6, 7]

  // ----- Little-endian fields -----

  function U16(d: Text, i: nat): (v: nat)
    requires i + 2 <= |d|
    ensures v < 0x1_0000
  {
    (d[i] as int) + 0x100 * (d[i + 1] as int)
  }

  function U32(d: Text, i: nat): (v: nat)
    requires i + 4 <= |d|
    ensures v < 0x1_0000_0000
  {
    U16(d, i) + 0x1_0000 * U16(d, i + 2)
  }

  predicate Signature(d: Text, i: nat, signature: Text) {
    i + |signature| <= |d| && d[i..i + |signature|] == signature
  }

  // ----- What an acceptable file is -----

  /** The first offset at which an EOCD with a representable comment can start. */
  function WindowStart(d: Text): nat {
    if |d| < EOCD_SIZE + MAX_COMMENT then 0 else |d| - EOCD_SIZE - MAX_COMMENT
  }

  /** e is the last EOCD signature in the window. */
  ghost predicate LastEocd(d: Text, e: nat) {
    && WindowStart(d) <= e && e + EOCD_SIZE <= |d|
    && Signature(d, e, EOCD_SIGNATURE)
    && forall i: nat :: e < i && i + EOCD_SIZE <= |d| ==> !Signature(d, i, EOCD_SIGNATURE)
  }

  predicate CommentFillsFile(d: Text, e: nat)
    requires e + EOCD_SIZE <= |d|
  {
    e + EOCD_SIZE + U16(d, e + 20) == |d|
  }

  function Count(d: Text, e: nat): nat
    requires e + EOCD_SIZE <= |d|
  {
    U16(d, e + 10)
  }

  function DirectorySize(d: Text, e: nat): nat
    requires e + EOCD_SIZE <= |d|
  {
    U32(d, e + 12)
  }

  function DirectoryOffset(d: Text, e: nat): nat
    requires e + EOCD_SIZE <= |d|
  {
    U32(d, e + 16)
  }

  predicate Zip64(d: Text, e: nat)
    requires e + EOCD_SIZE <= |d|
  {
    || Count(d, e) == 0xffff || U16(d, e + 8) == 0xffff
    || DirectorySize(d, e) == 0xffff_ffff || DirectoryOffset(d, e) == 0xffff_ffff
    || (e >= 20 && Signature(d, e - 20, LOCATOR_SIGNATURE))
  }

  predicate Multidisk(d: Text, e: nat)
    requires e + EOCD_SIZE <= |d|
  {
    U16(d, e + 4) != 0 || U16(d, e + 6) != 0 || U16(d, e + 8) != Count(d, e)
  }

  /** The directory runs from its offset exactly to the EOCD. */
  predicate DirectoryEndsAtEocd(d: Text, e: nat)
    requires e + EOCD_SIZE <= |d|
  {
    DirectoryOffset(d, e) + DirectorySize(d, e) == e
  }

  /** A directory header can be read at i, before end. */
  predicate HeaderAt(d: Text, i: nat, end: nat) {
    i + HEADER_SIZE <= end <= |d| && Signature(d, i, HEADER_SIGNATURE)
  }

  /** The length of the record at i, with its name, extra field and comment. */
  function RecordSize(d: Text, i: nat): (n: nat)
    requires i + HEADER_SIZE <= |d|
    ensures n >= HEADER_SIZE
  {
    HEADER_SIZE + U16(d, i + 28) + U16(d, i + 30) + U16(d, i + 32)
  }

  /** A whole single-disk record lies at i, before end. */
  predicate RecordAt(d: Text, i: nat, end: nat) {
    HeaderAt(d, i, end) && U16(d, i + 34) == 0 && i + RecordSize(d, i) <= end
  }

  /** bounds[k] and bounds[k + 1] are the two ends of one record. */
  ghost predicate Link(d: Text, bounds: seq<nat>, k: nat, end: nat)
    requires k + 1 < |bounds|
  {
    RecordAt(d, bounds[k], end) && bounds[k + 1] == bounds[k] + RecordSize(d, bounds[k])
  }

  /** bounds are the offsets lo = bounds[0] < bounds[1] < ... that |bounds| - 1 adjacent records cut out. */
  ghost predicate Chain(d: Text, bounds: seq<nat>, lo: nat, end: nat) {
    && |bounds| >= 1 && bounds[0] == lo
    && forall k: nat :: k + 1 < |bounds| ==> Link(d, bounds, k, end)
  }

  function Last(bounds: seq<nat>): nat
    requires bounds != []
  {
    bounds[|bounds| - 1]
  }

  /** The EOCD at e is one that the directory walk is entered with. */
  ghost predicate Walkable(d: Text, e: nat, maxEntries: int) {
    && LastEocd(d, e) && CommentFillsFile(d, e)
    && !Zip64(d, e) && !Multidisk(d, e)
    && Count(d, e) <= maxEntries && DirectoryEndsAtEocd(d, e)
  }

  /** A classic single-disk archive whose directory splits into exactly the advertised records. */
  ghost predicate ClassicZip(d: Text, maxEntries: int, e: nat, bounds: seq<nat>) {
    && Walkable(d, e, maxEntries)
    && Chain(d, bounds, DirectoryOffset(d, e), e)
    && Last(bounds) == e
    && |bounds| - 1 == Count(d, e)
  }

  /** Too many entries: advertised, or actually present after maxEntries good records. */
  ghost predicate TooManyEntries(d: Text, maxEntries: int, e: nat, bounds: seq<nat>) {
    && LastEocd(d, e) && CommentFillsFile(d, e) && !Zip64(d, e) && !Multidisk(d, e)
    && (|| Count(d, e) > maxEntries
        || (&& DirectoryEndsAtEocd(d, e)
            && Chain(d, bounds, DirectoryOffset(d, e), e)
            && |bounds| - 1 == maxEntries && HeaderAt(d, Last(bounds), e)))
  }

  /** ZIP64 or multi-disk: in the EOCD, or in a directory header within the limit. */
  ghost predicate UnsupportedZip(d: Text, maxEntries: int, e: nat, bounds: seq<nat>) {
    && LastEocd(d, e) && CommentFillsFile(d, e)
    && (|| Zip64(d, e) || Multidisk(d, e)
        || (&& Walkable(d, e, maxEntries)
            && Chain(d, bounds, DirectoryOffset(d, e), e)
            && |bounds| <= maxEntries
            && HeaderAt(d, Last(bounds), e) && U16(d, Last(bounds) + 34) != 0))
  }

  // ----- A file has one EOCD and one chain -----

  lemma LastEocdUnique(d: Text, e: nat, e': nat)
    requires LastEocd(d, e) && LastEocd(d, e')
    ensures e == e'
  {
  }

  lemma ChainShorter(d: Text, bounds: seq<nat>, n: nat, lo: nat, end: nat)
    requires Chain(d, bounds, lo, end) && 1 <= n <= |bounds|
    ensures Chain(d, bounds[..n], lo, end)
  {
    forall k: nat | k + 1 < n ensures Link(d, bounds[..n], k, end) {
      assert Link(d, bounds, k, end);
    }
  }

  lemma ChainLonger(d: Text, bounds: seq<nat>, lo: nat, end: nat)
    requires Chain(d, bounds, lo, end) && RecordAt(d, Last(bounds), end)
    ensures Chain(d, bounds + [Last(bounds) + RecordSize(d, Last(bounds))], lo, end)
  {
    var longer := bounds + [Last(bounds) + RecordSize(d, Last(bounds))];
    forall k: nat | k + 1 < |longer| ensures Link(d, longer, k, end) {
      assert k + 1 < |bounds| ==> Link(d, bounds, k, end);
    }
  }

  /** Of two chains with the same start, the shorter is a prefix of the longer. */
  lemma {:induction false} ChainPrefix(d: Text, bounds: seq<nat>, bounds': seq<nat>, lo: nat, end: nat)
    requires Chain(d, bounds, lo, end) && Chain(d, bounds', lo, end) && |bounds| <= |bounds'|
    ensures bounds == bounds'[..|bounds|]
  {
    if |bounds| > 1 {
      var n := |bounds| - 1;
      ChainShorter(d, bounds, n, lo, end);
      ChainPrefix(d, bounds[..n], bounds', lo, end);
      assert bounds[n - 1] == bounds[..n][n - 1] == bounds'[n - 1];
      assert Link(d, bounds, n - 1, end) && Link(d, bounds', n - 1, end);
    }
  }

  /** Where a longer chain goes on, a record lies. */
  lemma ChainGoesOn(d: Text, bounds: seq<nat>, bounds': seq<nat>, lo: nat, end: nat)
    requires Chain(d, bounds, lo, end) && Chain(d, bounds', lo, end) && |bounds| < |bounds'|
    ensures RecordAt(d, Last(bounds), end)
  {
    ChainPrefix(d, bounds, bounds', lo, end);
    assert Last(bounds) == bounds'[..|bounds|][|bounds| - 1];
    assert Link(d, bounds', |bounds| - 1, end);
  }

  /** A chain that stops where no record fits contains every other chain. */
  lemma StuckChain(d: Text, bounds: seq<nat>, bounds': seq<nat>, lo: nat, end: nat)
    requires Chain(d, bounds, lo, end) && Chain(d, bounds', lo, end)
    requires !RecordAt(d, Last(bounds), end)
    ensures |bounds'| <= |bounds| && bounds' == bounds[..|bounds'|]
  {
    if |bounds| < |bounds'| {
      ChainGoesOn(d, bounds, bounds', lo, end);
    } else {
      ChainPrefix(d, bounds', bounds, lo, end);
    }
  }

  // ----- The reader -----

  /** A bounded `io.ReaderAt` whose reads fail from some point on, as when its context is cancelled. */
  class Reader {
    const data: Text
    var fuel: nat         // reads left before the context is cancelled
    var headerReads: nat  // directory headers read so far

    constructor (data: Text, fuel: nat)
      ensures this.data == data && this.fuel == fuel && headerReads == 0
    {
      this.data, this.fuel, headerReads := data, fuel, 0;
    }

    /** Every read that is asked for lies inside the file. */
    method ReadAt(offset: nat, length: nat) returns (ok: bool, bytes: Text)
      requires offset + length <= |data|
      modifies this`fuel
      ensures ok == (old(fuel) > 0)
      ensures ok ==> bytes == data[offset..offset + length] && fuel == old(fuel) - 1
    {
      if fuel == 0 {
        return false, [];
      }
      fuel := fuel - 1;
      return true, data[offset..offset + length];
    }

    method ReadHeader(offset: nat) returns (ok: bool, header: Text)
      requires offset + HEADER_SIZE <= |data|
      modifies this
      ensures ok == (old(fuel) > 0) && headerReads == old(headerReads) + 1
      ensures ok ==> header == data[offset..offset + HEADER_SIZE] && fuel == old(fuel) - 1
    {
      headerReads := headerReads + 1;
      ok, header := ReadAt(offset, HEADER_SIZE);
    }
  }

  // ----- The walk -----

  /** Searches the tail backward for the last EOCD signature; -1 when there is none. */
  method FindEocd(tail: Text) returns (end: int)
    requires |tail| >= EOCD_SIZE
    ensures -1 <= end <= |tail| - EOCD_SIZE
    ensures end >= 0 ==> Signature(tail, end, EOCD_SIGNATURE)
    ensures forall i: nat :: end < i && i + EOCD_SIZE <= |tail| ==> !Signature(tail, i, EOCD_SIGNATURE)
  {
    end := -1;
    var i := |tail| - EOCD_SIZE;
    while i >= 0
      invariant -1 <= i <= |tail| - EOCD_SIZE && end == -1
      invariant forall j: nat :: i < j && j + EOCD_SIZE <= |tail| ==> !Signature(tail, j, EOCD_SIGNATURE)
    {
      if tail[i..i + 4] == EOCD_SIGNATURE {
        end := i;
        break;
      }
      i := i - 1;
    }
  }

  /** What the directory walk says of a chain starting at the directory offset. */
  ghost predicate WalkVerdict(d: Text, maxEntries: int, e: nat, v: Verdict)
    requires Walkable(d, e, maxEntries)
  {
    && (v.Accepted? <==> exists bounds :: ClassicZip(d, maxEntries, e, bounds))
    && (v.EntryLimitExceeded? <==> exists bounds :: TooManyEntries(d, maxEntries, e, bounds))
    && (v.Unsupported? <==> exists bounds :: UnsupportedZip(d, maxEntries, e, bounds))
  }

  /** A chain that cannot be continued decides which of the three descriptions the file meets. */
  lemma StuckVerdict(d: Text, maxEntries: int, e: nat, bounds: seq<nat>)
    requires Walkable(d, e, maxEntries) && Chain(d, bounds, DirectoryOffset(d, e), e)
    requires !RecordAt(d, Last(bounds), e) || |bounds| - 1 == maxEntries
    requires |bounds| - 1 <= maxEntries
    ensures (exists b :: ClassicZip(d, maxEntries, e, b)) <==> Last(bounds) == e && |bounds| - 1 == Count(d, e)
    ensures (exists b :: TooManyEntries(d, maxEntries, e, b)) <==>
            |bounds| - 1 == maxEntries && HeaderAt(d, Last(bounds), e)
    ensures (exists b :: UnsupportedZip(d, maxEntries, e, b)) <==>
            |bounds| <= maxEntries && HeaderAt(d, Last(bounds), e) && U16(d, Last(bounds) + 34) != 0
  {
    var lo := DirectoryOffset(d, e);
    forall b | ClassicZip(d, maxEntries, e, b)
      ensures Last(bounds) == e && |bounds| - 1 == Count(d, e)
    {
      SameEnd(d, maxEntries, e, bounds, b);
    }
    forall b | TooManyEntries(d, maxEntries, e, b)
      ensures |bounds| - 1 == maxEntries && HeaderAt(d, Last(bounds), e)
    {
      if |bounds| < |b| {
        StuckChain(d, bounds, b, lo, e);
      }
      ChainPrefix(d, bounds, b, lo, e);
    }
    forall b | UnsupportedZip(d, maxEntries, e, b)
      ensures |bounds| <= maxEntries && HeaderAt(d, Last(bounds), e) && U16(d, Last(bounds) + 34) != 0
    {
      if |b| < |bounds| {
        StuckChain(d, b, bounds, lo, e);
      } else {
        if |bounds| < |b| {
          StuckChain(d, bounds, b, lo, e);
        }
        ChainPrefix(d, bounds, b, lo, e);
      }
    }
    if Last(bounds) == e && |bounds| - 1 == Count(d, e) {
      assert ClassicZip(d, maxEntries, e, bounds);
    }
    if |bounds| - 1 == maxEntries && HeaderAt(d, Last(bounds), e) {
      assert TooManyEntries(d, maxEntries, e, bounds);
    }
    if |bounds| <= maxEntries && HeaderAt(d, Last(bounds), e) && U16(d, Last(bounds) + 34) != 0 {
      assert UnsupportedZip(d, maxEntries, e, bounds);
    }
  }

  /** A chain that reaches the EOCD cannot be extended, so it is as long as any other chain. */
  lemma SameEnd(d: Text, maxEntries: int, e: nat, bounds: seq<nat>, b: seq<nat>)
    requires Walkable(d, e, maxEntries) && Chain(d, bounds, DirectoryOffset(d, e), e)
    requires !RecordAt(d, Last(bounds), e) || |bounds| - 1 == maxEntries
    requires ClassicZip(d, maxEntries, e, b)
    ensures bounds == b
  {
    var lo := DirectoryOffset(d, e);
    assert !RecordAt(d, Last(b), e);
    StuckChain(d, b, bounds, lo, e);
    if |bounds| < |b| {
      StuckChain(d, bounds, b, lo, e);
    }
    assert bounds == b[..|bounds|] == b;
  }

  /** The directory walk, one header at a time. */
  method WalkDirectory(r: Reader, maxEntries: int, ghost e: nat, directoryOffset: nat, endOffset: nat, count: nat)
    returns (v: Verdict)
    requires Walkable(r.data, e, maxEntries)
    requires directoryOffset == DirectoryOffset(r.data, e) && endOffset == e && count == Count(r.data, e)
    modifies r
    ensures !v.ReadFailed? ==> WalkVerdict(r.data, maxEntries, e, v)
    ensures v.ReadFailed? ==> old(r.fuel) <= maxEntries
    ensures r.headerReads <= old(r.headerReads) + maxEntries + 1
  {
    ghost var d := r.data;
    var actual, offset := 0, directoryOffset;
    ghost var bounds: seq<nat> := [offset];
    while offset < endOffset
      invariant Chain(d, bounds, directoryOffset, e) && Last(bounds) == offset <= endOffset
      invariant |bounds| == actual + 1 && actual <= maxEntries
      invariant r.headerReads == old(r.headerReads) + actual
      invariant r.fuel == old(r.fuel) - actual
      decreases endOffset - offset
    {
      if endOffset - offset < HEADER_SIZE {
        StuckVerdict(d, maxEntries, e, bounds);
        return Corrupt;
      }
      var ok, header := r.ReadHeader(offset);
      if !ok {
        return ReadFailed;
      }
      assert header[..4] == d[offset..offset + 4];
      if header[..4] != HEADER_SIGNATURE {
        StuckVerdict(d, maxEntries, e, bounds);
        return Corrupt;
      }
      actual := actual + 1;
      if actual > maxEntries {
        StuckVerdict(d, maxEntries, e, bounds);
        return EntryLimitExceeded;
      }
      if U16(header, 34) != 0 {
        StuckVerdict(d, maxEntries, e, bounds);
        return Unsupported;
      }
      var headerSize := HEADER_SIZE + U16(header, 28) + U16(header, 30) + U16(header, 32);
      if headerSize > endOffset - offset {
        StuckVerdict(d, maxEntries, e, bounds);
        return Corrupt;
      }
      ChainLonger(d, bounds, directoryOffset, e);
      bounds := bounds + [offset + headerSize];
      offset := offset + headerSize;
    }
    StuckVerdict(d, maxEntries, e, bounds);
    return if actual != count then Corrupt else Accepted;
  }

  /** v is Accepted, EntryLimitExceeded or Unsupported exactly when d is described as such. */
  ghost predicate Describes(d: Text, maxEntries: int, v: Verdict) {
    && (v.Accepted? <==> exists e, bounds :: ClassicZip(d, maxEntries, e, bounds))
    && (v.EntryLimitExceeded? <==> exists e, bounds :: TooManyEntries(d, maxEntries, e, bounds))
    && (v.Unsupported? <==> exists e, bounds :: UnsupportedZip(d, maxEntries, e, bounds))
  }

  /** The signatures in the tail are those of the window. */
  lemma TailSignatures(d: Text, tail: Text, i: nat)
    requires |d| >= EOCD_SIZE && tail == d[WindowStart(d)..] && i + 4 <= |tail|
    ensures Signature(tail, i, EOCD_SIGNATURE) <==> Signature(d, WindowStart(d) + i, EOCD_SIGNATURE)
  {
    assert tail[i..i + 4] == d[WindowStart(d) + i..WindowStart(d) + i + 4];
  }

  /** The last signature in the tail is the EOCD of the file; without one the file has none. */
  lemma TailSearched(d: Text, tail: Text, end: int)
    requires |d| >= EOCD_SIZE && tail == d[WindowStart(d)..] && -1 <= end <= |tail| - EOCD_SIZE
    requires end >= 0 ==> Signature(tail, end, EOCD_SIGNATURE)
    requires forall i: nat :: end < i && i + EOCD_SIZE <= |tail| ==> !Signature(tail, i, EOCD_SIGNATURE)
    ensures if end >= 0 then LastEocd(d, WindowStart(d) + end) else forall e: nat :: !LastEocd(d, e)
  {
    hide Signature;
    forall e: nat | WindowStart(d) + end < e && e + EOCD_SIZE <= |d| && WindowStart(d) <= e
      ensures !Signature(d, e, EOCD_SIGNATURE)
    {
      TailSignatures(d, tail, e - WindowStart(d));
    }
    if end >= 0 {
      TailSignatures(d, tail, end);
    }
  }

  lemma NoEocd(d: Text, maxEntries: int)
    requires forall e :: !LastEocd(d, e)
    ensures Describes(d, maxEntries, Corrupt)
  {
  }

  /** When the EOCD itself is refused, its fields say why. */
  lemma RefusedEocd(d: Text, maxEntries: int, e: nat, v: Verdict)
    requires LastEocd(d, e) && !Walkable(d, e, maxEntries)
    requires v == if !CommentFillsFile(d, e) then Corrupt
                  else if Zip64(d, e) || Multidisk(d, e) then Unsupported
                  else if Count(d, e) > maxEntries then EntryLimitExceeded
                  else Corrupt
    ensures Describes(d, maxEntries, v)
  {
    if v.Unsupported? {
      assert UnsupportedZip(d, maxEntries, e, []);
    } else if v.EntryLimitExceeded? {
      assert TooManyEntries(d, maxEntries, e, []);
    }
  }

  lemma WalkedEocd(d: Text, maxEntries: int, e: nat, v: Verdict)
    requires Walkable(d, e, maxEntries) && WalkVerdict(d, maxEntries, e, v)
    ensures Describes(d, maxEntries, v)
  {
    forall e', bounds | ClassicZip(d, maxEntries, e', bounds)
                        || TooManyEntries(d, maxEntries, e', bounds)
                        || UnsupportedZip(d, maxEntries, e', bounds)
      ensures e' == e
    {
      LastEocdUnique(d, e, e');
    }
  }

  /** The preflight as written: tail search, EOCD checks, directory walk. */
  method Preflight(r: Reader, maxEntries: int) returns (v: Verdict)
    modifies r
    ensures !v.ReadFailed? ==> Describes(r.data, maxEntries, v)
    ensures v.ReadFailed? ==> old(r.fuel) < 2 || old(r.fuel) <= maxEntries + 2
    ensures r.headerReads <= old(r.headerReads) + if maxEntries < 0 then 0 else maxEntries + 1
  {
    hide Describes;
    ghost var d := r.data;
    var size := |r.data|;
    if size < EOCD_SIZE {
      NoEocd(d, maxEntries);
      return Corrupt;
    }
    var tailSize := if size < EOCD_SIZE + MAX_COMMENT then size else EOCD_SIZE + MAX_COMMENT;
    var ok, tail := r.ReadAt(size - tailSize, tailSize);
    if !ok {
      return ReadFailed;
    }
    var end := FindEocd(tail);
    TailSearched(d, tail, end);
    if end < 0 {
      NoEocd(d, maxEntries);
      return Corrupt;
    }
    var eocd := tail[end..];
    assert eocd == d[size - |eocd|..];
    v := CheckEocd(r, maxEntries, eocd);
  }

  /** The checks on the EOCD that was found, then the walk. */
  method CheckEocd(r: Reader, maxEntries: int, eocd: Text) returns (v: Verdict)
    requires EOCD_SIZE <= |eocd| <= |r.data| && eocd == r.data[|r.data| - |eocd|..]
    requires LastEocd(r.data, |r.data| - |eocd|)
    modifies r
    ensures !v.ReadFailed? ==> Describes(r.data, maxEntries, v)
    ensures v.ReadFailed? ==> old(r.fuel) == 0 || old(r.fuel) <= maxEntries + 1
    ensures r.headerReads <= old(r.headerReads) + if maxEntries < 0 then 0 else maxEntries + 1
  {
    ghost var d, e := r.data, |r.data| - |eocd|;
    if EOCD_SIZE + U16(eocd, 20) != |eocd| {
      RefusedEocd(d, maxEntries, e, Corrupt);
      return Corrupt;
    }
    var endOffset := |r.data| - |eocd|;
    var disk, directoryDisk, diskCount, count := U16(eocd, 4), U16(eocd, 6), U16(eocd, 8), U16(eocd, 10);
    var directorySize, directoryOffset := U32(eocd, 12), U32(eocd, 16);
    if count == 0xffff || diskCount == 0xffff || directorySize == 0xffff_ffff || directoryOffset == 0xffff_ffff {
      RefusedEocd(d, maxEntries, e, Unsupported);
      return Unsupported;
    }
    if endOffset >= 20 {
      var ok, signature := r.ReadAt(endOffset - 20, 4);
      if !ok {
        return ReadFailed;
      }
      if signature == LOCATOR_SIGNATURE {
        RefusedEocd(d, maxEntries, e, Unsupported);
        return Unsupported;
      }
    }
    if disk != 0 || directoryDisk != 0 || diskCount != count {
      RefusedEocd(d, maxEntries, e, Unsupported);
      return Unsupported;
    }
    if count > maxEntries {
      RefusedEocd(d, maxEntries, e, EntryLimitExceeded);
      return EntryLimitExceeded;
    }
    if directoryOffset > endOffset || directorySize != endOffset - directoryOffset {
      RefusedEocd(d, maxEntries, e, Corrupt);
      return Corrupt;
    }
    v := WalkDirectory(r, maxEntries, e, directoryOffset, endOffset, count);
    if !v.ReadFailed? {
      WalkedEocd(d, maxEntries, e, v);
    }
  }
}
