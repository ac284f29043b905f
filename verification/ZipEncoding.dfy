/**
 A writer for classic archives, and the round trip through the preflight: which written files are
 recognised, and that the walk recovers the record boundaries that were written.
 */
module ZipEncoding {
  import opened Bytes
  import opened ZipPreflight

  /** A central-directory record; `attributes` and `trailer` are the fields the preflight skips. */
  datatype Record = Record(attributes: Text, name: Text, extra: Text, comment: Text, trailer: Text)
  {
    predicate Valid() {
      && |attributes| == 24 && |trailer| == 10
      && |name| < 0x1_0000 && |extra| < 0x1_0000 && |comment| < 0x1_0000
    }
  }

  function Le16(v: nat): (s: Text)
    requires v < 0x1_0000
    ensures |s| == 2
  {
    [v % 0x100, v / 0x100]
  }

  function Le32(v: nat): (s: Text)
    requires v < 0x1_0000_0000
    ensures |s| == 4
  {
    Le16(v % 0x1_0000) + Le16(v / 0x1_0000)
  }

  /** The fixed part of a directory header. */
  function Header(r: Record): (s: Text)
    requires r.Valid()
    ensures |s| == HEADER_SIZE
  {
    HEADER_SIGNATURE + r.attributes + Le16(|r.name|) + Le16(|r.extra|) + Le16(|r.comment|) + Le16(0) + r.trailer
  }

  function EncodeRecord(r: Record): (s: Text)
    requires r.Valid()
    ensures |s| == HEADER_SIZE + |r.name| + |r.extra| + |r.comment|
  {
    Header(r) + (r.name + r.extra + r.comment)
  }

  function Directory(records: seq<Record>): Text
    requires forall r :: r in records ==> r.Valid()
  {
    if records == [] then [] else EncodeRecord(records[0]) + Directory(records[1..])
  }

  /** The offsets at which the records start and end when the first one is written at lo. */
  function Boundaries(lo: nat, records: seq<Record>): (bounds: seq<nat>)
    requires forall r :: r in records ==> r.Valid()
    ensures |bounds| == |records| + 1 && bounds[0] == lo
    decreases |records|
  {
    if records == [] then [lo]
    else [lo] + Boundaries(lo + |EncodeRecord(records[0])|, records[1..])
  }

  /** The last boundary is the end of the directory. */
  lemma {:induction false} BoundariesEnd(lo: nat, records: seq<Record>)
    requires forall r :: r in records ==> r.Valid()
    ensures Last(Boundaries(lo, records)) == lo + |Directory(records)|
    decreases |records|
  {
    hide EncodeRecord;
    if records != [] {
      BoundariesEnd(lo + |EncodeRecord(records[0])|, records[1..]);
    }
  }

  function Eocd(count: nat, size: nat, offset: nat, comment: Text): (s: Text)
    requires count < 0x1_0000 && size < 0x1_0000_0000 && offset < 0x1_0000_0000 && |comment| < 0x1_0000
    ensures |s| == EOCD_SIZE + |comment|
  {
    EOCD_SIGNATURE + (Le16(0) + Le16(0)) + (Le16(count) + Le16(count)) + (Le32(size) + Le32(offset))
    + (Le16(|comment|) + comment)
  }

  /** The records and the lengths fit the fields that hold them. */
  predicate Encodable(data: Text, records: seq<Record>, comment: Text) {
    && (forall r :: r in records ==> r.Valid())
    && |records| < 0x1_0000 && |data| < 0x1_0000_0000 && |Directory(records)| < 0x1_0000_0000
    && |comment| < 0x1_0000
  }

  function Encode(data: Text, records: seq<Record>, comment: Text): Text
    requires Encodable(data, records, comment)
  {
    data + Directory(records) + Eocd(|records|, |Directory(records)|, |data|, comment)
  }

  // ----- Fields read back -----

  lemma U16OfLe16(d: Text, i: nat, v: nat)
    requires v < 0x1_0000 && i + 2 <= |d| && d[i..i + 2] == Le16(v)
    ensures U16(d, i) == v
  {
    assert d[i] == d[i..i + 2][0] && d[i + 1] == d[i..i + 2][1];
  }

  lemma U32OfLe32(d: Text, i: nat, v: nat)
    requires v < 0x1_0000_0000 && i + 4 <= |d| && d[i..i + 4] == Le32(v)
    ensures U32(d, i) == v
  {
    assert d[i..i + 2] == d[i..i + 4][..2] == Le16(v % 0x1_0000);
    assert d[i + 2..i + 4] == d[i..i + 4][2..] == Le16(v / 0x1_0000);
    U16OfLe16(d, i, v % 0x1_0000);
    U16OfLe16(d, i + 2, v / 0x1_0000);
  }

  lemma SubSlice(d: Text, i: nat, s: Text, a: nat, b: nat)
    requires i + |s| <= |d| && d[i..i + |s|] == s && a <= b <= |s|
    ensures d[i + a..i + b] == s[a..b]
  {
    forall k: nat | k < b - a ensures d[i + a..i + b][k] == s[a..b][k] {
      assert d[i..i + |s|][a + k] == d[i + a + k];
    }
  }

  lemma HeaderFields(r: Record)
    requires r.Valid()
    ensures EncodeRecord(r)[0..4] == HEADER_SIGNATURE
    ensures EncodeRecord(r)[28..30] == Le16(|r.name|) && EncodeRecord(r)[30..32] == Le16(|r.extra|)
    ensures EncodeRecord(r)[32..34] == Le16(|r.comment|) && EncodeRecord(r)[34..36] == Le16(0)
  {
    var h := Header(r);
    assert h[0..4] == HEADER_SIGNATURE && h[28..30] == Le16(|r.name|) && h[30..32] == Le16(|r.extra|);
    assert h[32..34] == Le16(|r.comment|) && h[34..36] == Le16(0);
    assert EncodeRecord(r)[0..46] == h;
    SubSlice(EncodeRecord(r), 0, h, 0, 4);
    SubSlice(EncodeRecord(r), 0, h, 28, 30);
    SubSlice(EncodeRecord(r), 0, h, 30, 32);
    SubSlice(EncodeRecord(r), 0, h, 32, 34);
    SubSlice(EncodeRecord(r), 0, h, 34, 36);
  }

  /** A written record is read as a record of its own length. */
  lemma RecordReadBack(d: Text, i: nat, r: Record, end: nat)
    requires r.Valid() && i + |EncodeRecord(r)| <= end <= |d|
    requires d[i..i + |EncodeRecord(r)|] == EncodeRecord(r)
    ensures RecordAt(d, i, end) && RecordSize(d, i) == |EncodeRecord(r)|
  {
    var s := EncodeRecord(r);
    HeaderFields(r);
    SubSlice(d, i, s, 0, 4);
    SubSlice(d, i, s, 28, 30);
    SubSlice(d, i, s, 30, 32);
    SubSlice(d, i, s, 32, 34);
    SubSlice(d, i, s, 34, 36);
    U16OfLe16(d, i + 28, |r.name|);
    U16OfLe16(d, i + 30, |r.extra|);
    U16OfLe16(d, i + 32, |r.comment|);
    U16OfLe16(d, i + 34, 0);
  }

  /** A written directory is walked along the boundaries it was written with. */
  lemma {:induction false} DirectoryReadBack(d: Text, lo: nat, records: seq<Record>, end: nat)
    requires forall r :: r in records ==> r.Valid()
    requires lo + |Directory(records)| <= end <= |d|
    requires d[lo..lo + |Directory(records)|] == Directory(records)
    ensures Chain(d, Boundaries(lo, records), lo, end)
    decreases |records|
  {
    hide EncodeRecord, RecordAt, RecordSize;
    if records != [] {
      var first, rest := EncodeRecord(records[0]), Directory(records[1..]);
      var next := lo + |first|;
      assert d[lo..next] == d[lo..lo + |Directory(records)|][..|first|] == first;
      assert d[next..next + |rest|] == d[lo..lo + |Directory(records)|][|first|..] == rest;
      RecordReadBack(d, lo, records[0], end);
      DirectoryReadBack(d, next, records[1..], end);
      var bounds, tail := Boundaries(lo, records), Boundaries(next, records[1..]);
      forall k: nat | k + 1 < |bounds| ensures Link(d, bounds, k, end) {
        if k > 0 {
          assert Link(d, tail, k - 1, end);
        }
      }
    }
  }

  /** The EOCD fields that the preflight compares. */
  lemma EocdReadBack(d: Text, e: nat, count: nat, size: nat, offset: nat, comment: Text)
    requires count < 0x1_0000 && size < 0x1_0000_0000 && offset < 0x1_0000_0000 && |comment| < 0x1_0000
    requires e <= |d| && d[e..] == Eocd(count, size, offset, comment)
    ensures Signature(d, e, EOCD_SIGNATURE) && CommentFillsFile(d, e) && !Multidisk(d, e)
    ensures Count(d, e) == U16(d, e + 8) == count
    ensures DirectorySize(d, e) == size && DirectoryOffset(d, e) == offset
  {
    var s := Eocd(count, size, offset, comment);
    assert d[e..e + 4] == s[..4] == EOCD_SIGNATURE;
    assert d[e + 4..e + 6] == s[4..6] == Le16(0);
    assert d[e + 6..e + 8] == s[6..8] == Le16(0);
    assert d[e + 8..e + 10] == s[8..10] == Le16(count);
    assert d[e + 10..e + 12] == s[10..12] == Le16(count);
    assert d[e + 12..e + 16] == s[12..16] == Le32(size);
    assert d[e + 16..e + 20] == s[16..20] == Le32(offset);
    assert d[e + 20..e + 22] == s[20..22] == Le16(|comment|);
    U16OfLe16(d, e + 4, 0);
    U16OfLe16(d, e + 6, 0);
    U16OfLe16(d, e + 8, count);
    U16OfLe16(d, e + 10, count);
    U32OfLe32(d, e + 12, size);
    U32OfLe32(d, e + 16, offset);
    U16OfLe16(d, e + 20, |comment|);
  }

  // ----- The round trip -----

  /** A file of `offset` bytes, a directory of `size` bytes cut at `bounds`, and an EOCD that says so. */
  ghost predicate Layout(d: Text, offset: nat, size: nat, bounds: seq<nat>) {
    var e := offset + size;
    && e + EOCD_SIZE <= |d| && |bounds| >= 1
    && Signature(d, e, EOCD_SIGNATURE) && CommentFillsFile(d, e) && !Multidisk(d, e)
    && Count(d, e) == U16(d, e + 8) == |bounds| - 1
    && DirectorySize(d, e) == size && DirectoryOffset(d, e) == offset
    && Chain(d, bounds, offset, e) && Last(bounds) == e
  }

  /** The conditions on which such a file is recognised. */
  ghost predicate Recognisable(d: Text, offset: nat, size: nat, count: nat, maxEntries: int) {
    var e := offset + size;
    && count <= maxEntries && count < 0xffff && size < 0xffff_ffff && offset < 0xffff_ffff
    && (forall i: nat :: e < i && i + EOCD_SIZE <= |d| ==> !Signature(d, i, EOCD_SIGNATURE))
    && !(e >= 20 && Signature(d, e - 20, LOCATOR_SIGNATURE))
  }

  lemma ThreeParts(a: Text, b: Text, c: Text)
    ensures (a + b + c)[|a|..|a| + |b|] == b && (a + b + c)[|a| + |b|..] == c
  {
  }

  lemma PartsLayOut(d: Text, offset: nat, records: seq<Record>, comment: Text)
    requires forall r :: r in records ==> r.Valid()
    requires |records| < 0x1_0000 && offset < 0x1_0000_0000 && |Directory(records)| < 0x1_0000_0000
    requires |comment| < 0x1_0000 && offset + |Directory(records)| <= |d|
    requires d[offset..offset + |Directory(records)|] == Directory(records)
    requires d[offset + |Directory(records)|..] == Eocd(|records|, |Directory(records)|, offset, comment)
    ensures Layout(d, offset, |Directory(records)|, Boundaries(offset, records))
  {
    var size := |Directory(records)|;
    EocdReadBack(d, offset + size, |records|, size, offset, comment);
    DirectoryReadBack(d, offset, records, offset + size);
    BoundariesEnd(offset, records);
  }

  lemma EncodedFields(data: Text, records: seq<Record>, comment: Text)
    requires Encodable(data, records, comment)
    ensures Layout(Encode(data, records, comment), |data|, |Directory(records)|, Boundaries(|data|, records))
  {
    var dir := Directory(records);
    ThreeParts(data, dir, Eocd(|records|, |dir|, |data|, comment));
    PartsLayOut(Encode(data, records, comment), |data|, records, comment);
  }

  lemma LayoutRecognised(d: Text, maxEntries: int, offset: nat, size: nat, bounds: seq<nat>)
    requires Layout(d, offset, size, bounds)
    ensures ClassicZip(d, maxEntries, offset + size, bounds) <==>
            Recognisable(d, offset, size, |bounds| - 1, maxEntries)
  {
  }

  /**
   A written archive is recognised, with exactly the boundaries it was written with, if and only
   if its fields are unsaturated, its entries fit the limit, no later EOCD signature follows and
   no ZIP64 locator signature stands 20 bytes before the EOCD.
   */
  lemma RoundTrip(data: Text, records: seq<Record>, comment: Text, maxEntries: int)
    requires Encodable(data, records, comment)
    ensures var d, size := Encode(data, records, comment), |Directory(records)|;
            ClassicZip(d, maxEntries, |data| + size, Boundaries(|data|, records)) <==>
            Recognisable(d, |data|, size, |records|, maxEntries)
  {
    hide Encode, Layout, Recognisable, ClassicZip, Directory, Boundaries;
    var d, bounds := Encode(data, records, comment), Boundaries(|data|, records);
    EncodedFields(data, records, comment);
    LayoutRecognised(d, maxEntries, |data|, |Directory(records)|, bounds);
  }

  /** Two and four little-endian bytes at i. */
  function Le2(d: Text, i: nat): int
    requires i + 2 <= |d|
  {
    (d[i] as int) + 256 * (d[i + 1] as int)
  }

  function Le4(d: Text, i: nat): int
    requires i + 4 <= |d|
  {
    (d[i] as int) + 256 * (d[i + 1] as int) + 65536 * (d[i + 2] as int) + 16777216 * (d[i + 3] as int)
  }

  predicate FourBytes(d: Text, i: nat, b0: Byte, b1: Byte, b2: Byte, b3: Byte) {
    i + 4 <= |d| && d[i] == b0 && d[i + 1] == b1 && d[i + 2] == b2 && d[i + 3] == b3
  }

  /** The end of central directory record at e, byte by byte (APPNOTE section 4.3.16). */
  ghost predicate EocdBytes(d: Text, e: nat, count: int, maxEntries: int) {
    && e + 22 <= |d| && |d| <= e + 22 + 65535
    && FourBytes(d, e, 0x50, 0x4b, 0x05, 0x06)
    && (forall i: nat :: e < i && i + 22 <= |d| ==> !FourBytes(d, i, 0x50, 0x4b, 0x05, 0x06))
    && !(e >= 20 && FourBytes(d, e - 20, 0x50, 0x4b, 0x06, 0x07))
    && Le2(d, e + 4) == 0 && Le2(d, e + 6) == 0
    && Le2(d, e + 8) == count && Le2(d, e + 10) == count && count != 0xffff && count <= maxEntries
    && Le4(d, e + 12) != 0xffff_ffff && Le4(d, e + 16) != 0xffff_ffff && Le4(d, e + 16) + Le4(d, e + 12) == e
    && e + 22 + Le2(d, e + 20) == |d|
  }

  /** A directory header from i to next, byte by byte (APPNOTE section 4.3.12). */
  predicate HeaderBytes(d: Text, i: nat, next: nat, end: nat) {
    && i + 46 <= end <= |d|
    && FourBytes(d, i, 0x50, 0x4b, 0x01, 0x02) && Le2(d, i + 34) == 0
    && next == i + 46 + Le2(d, i + 28) + Le2(d, i + 30) + Le2(d, i + 32) && next <= end
  }

  lemma FieldBytes(d: Text, i: nat)
    ensures i + 2 <= |d| ==> U16(d, i) == Le2(d, i)
    ensures i + 4 <= |d| ==> U32(d, i) == Le4(d, i)
  {
  }

  lemma SignatureBytes(d: Text, i: nat)
    ensures Signature(d, i, EOCD_SIGNATURE) <==> FourBytes(d, i, 0x50, 0x4b, 0x05, 0x06)
    ensures Signature(d, i, HEADER_SIGNATURE) <==> FourBytes(d, i, 0x50, 0x4b, 0x01, 0x02)
    ensures Signature(d, i, LOCATOR_SIGNATURE) <==> FourBytes(d, i, 0x50, 0x4b, 0x06, 0x07)
  {
    if i + 4 <= |d| {
      assert d[i..i + 4] == [d[i], d[i + 1], d[i + 2], d[i + 3]];
    }
  }

  lemma LinkBytes(d: Text, i: nat, next: nat, end: nat)
    ensures RecordAt(d, i, end) && next == i + RecordSize(d, i) <==> HeaderBytes(d, i, next, end)
  {
    hide U16, U32, Le2, Le4, Signature, FourBytes;
    SignatureBytes(d, i);
    FieldBytes(d, i + 28);
    FieldBytes(d, i + 30);
    FieldBytes(d, i + 32);
    FieldBytes(d, i + 34);
  }

  lemma EocdFieldBytes(d: Text, e: nat, count: nat, maxEntries: int)
    ensures LastEocd(d, e) && Walkable(d, e, maxEntries) && Count(d, e) == count <==> EocdBytes(d, e, count, maxEntries)
  {
    hide U16, U32, Le2, Le4, Signature, FourBytes;
    forall i: nat ensures Signature(d, i, EOCD_SIGNATURE) <==> FourBytes(d, i, 0x50, 0x4b, 0x05, 0x06) {
      SignatureBytes(d, i);
    }
    if e >= 20 {
      SignatureBytes(d, e - 20);
    }
    FieldBytes(d, e + 4);
    FieldBytes(d, e + 6);
    FieldBytes(d, e + 8);
    FieldBytes(d, e + 10);
    FieldBytes(d, e + 12);
    FieldBytes(d, e + 16);
    FieldBytes(d, e + 20);
  }

  /** Headers follow one another along the bounds. */
  ghost predicate HeadersFollow(d: Text, bounds: seq<nat>, end: nat) {
    forall k: nat :: k + 1 < |bounds| ==> HeaderBytes(d, bounds[k], bounds[k + 1], end)
  }

  lemma ChainBytes(d: Text, bounds: seq<nat>, lo: nat, end: nat)
    ensures Chain(d, bounds, lo, end) <==> |bounds| >= 1 && bounds[0] == lo && HeadersFollow(d, bounds, end)
  {
    hide HeaderBytes, RecordAt, RecordSize;
    if Chain(d, bounds, lo, end) {
      forall k: nat | k + 1 < |bounds| ensures HeaderBytes(d, bounds[k], bounds[k + 1], end) {
        assert Link(d, bounds, k, end);
        LinkBytes(d, bounds[k], bounds[k + 1], end);
      }
    }
    if |bounds| >= 1 && bounds[0] == lo && HeadersFollow(d, bounds, end) {
      forall k: nat | k + 1 < |bounds| ensures Link(d, bounds, k, end) {
        assert HeaderBytes(d, bounds[k], bounds[k + 1], end);
        LinkBytes(d, bounds[k], bounds[k + 1], end);
      }
    }
  }

  /** What is accepted, byte by byte: the last EOCD of the file, and headers that follow one another up to it. */
  lemma AcceptedExactly(d: Text, maxEntries: int, e: nat, bounds: seq<nat>)
    ensures ClassicZip(d, maxEntries, e, bounds) <==>
            && |bounds| >= 1 && EocdBytes(d, e, |bounds| - 1, maxEntries)
            && bounds[0] == Le4(d, e + 16) && bounds[|bounds| - 1] == e && HeadersFollow(d, bounds, e)
  {
    hide HeadersFollow, U16, U32, Le4, Chain, FourBytes, Signature;
    if |bounds| >= 1 {
      EocdFieldBytes(d, e, |bounds| - 1, maxEntries);
    }
    FieldBytes(d, e + 16);
    if e + 22 <= |d| {
      ChainBytes(d, bounds, DirectoryOffset(d, e), e);
    }
  }

  /** A file is recognised in one way only, so an accepted file has one EOCD and one list of records. */
  lemma ClassicZipUnique(d: Text, maxEntries: int, e: nat, bounds: seq<nat>, e': nat, bounds': seq<nat>)
    requires ClassicZip(d, maxEntries, e, bounds) && ClassicZip(d, maxEntries, e', bounds')
    ensures e == e' && bounds == bounds'
  {
    LastEocdUnique(d, e, e');
    ChainPrefix(d, bounds, bounds', DirectoryOffset(d, e), e);
  }

  /** A preflight that finishes accepts what the writer wrote, under the conditions of the round trip. */
  lemma EncodedAccepted(data: Text, records: seq<Record>, comment: Text, maxEntries: int, v: Verdict)
    requires Encodable(data, records, comment)
    requires Recognisable(Encode(data, records, comment), |data|, |Directory(records)|, |records|, maxEntries)
    requires Describes(Encode(data, records, comment), maxEntries, v)
    ensures v == Accepted
  {
    RoundTrip(data, records, comment, maxEntries);
  }

  /** A directory that holds more records than the limit is refused, whatever count it advertises. */
  lemma LongDirectoryRefused(d: Text, maxEntries: int, e: nat, bounds: seq<nat>)
    requires LastEocd(d, e) && CommentFillsFile(d, e) && !Zip64(d, e) && !Multidisk(d, e)
    requires DirectoryEndsAtEocd(d, e) && Chain(d, bounds, DirectoryOffset(d, e), e)
    requires maxEntries >= 0 && |bounds| - 1 > maxEntries
    ensures TooManyEntries(d, maxEntries, e, bounds[..maxEntries + 1])
    ensures forall e', bounds' :: !ClassicZip(d, maxEntries, e', bounds')
  {
    var short := bounds[..maxEntries + 1];
    ChainShorter(d, bounds, maxEntries + 1, DirectoryOffset(d, e), e);
    ChainGoesOn(d, short, bounds, DirectoryOffset(d, e), e);
    if Count(d, e) <= maxEntries {
      StuckVerdict(d, maxEntries, e, short);
    }
    forall e', bounds' ensures !ClassicZip(d, maxEntries, e', bounds') {
      if e' == e && |bounds'| < |bounds| && Chain(d, bounds', DirectoryOffset(d, e), e) {
        ChainGoesOn(d, bounds', bounds, DirectoryOffset(d, e), e);
      }
    }
  }
}
