/**
 What a cache key stands for: the request checks, the NUL-joined fingerprint of an archive version,
 and when two fingerprints can be equal.
 */
module Fingerprint {
  import opened Bytes
  import opened Options

  const NUL: Byte := 0
  const MAX_TOKEN := 0x4000
  const MAX_PATH_ID := 512

  datatype Request = Request(
    token: Text, profileId: Text, profileToken: Text, contentId: Text,
    fileId: int, apiVersion: Text, cacheKey: Text, offset: nat)

  /** What a HEAD of the archive answers. */
  datatype Head = Head(size: int, etag: Text, lastModified: Text)

  datatype Rejection =
    | Unauthorized | InvalidProfileToken | InvalidProfile | InvalidContent | InvalidFile
    | InvalidApiVersion | InvalidCacheKey | CacheKeyRequired

  const V1: Text := [118, 49]  // "v1"
  const V2: Text := [118, 50]  // "v2"

  // ----- Request checks -----

  predicate ValidPathId(id: Text) {
    |id| <= MAX_PATH_ID
    && forall k :: 0 <= k < |id| ==> id[k] >= 0x20 && id[k] != 47 && id[k] != 92 && id[k] != 63 && id[k] != 35
  }

  predicate ValidHeaderValue(value: Text) {
    forall k :: 0 <= k < |value| ==> value[k] >= 0x20 && value[k] != 0x7f
  }

  predicate IsHex(c: Byte) {
    IsDigit(c) || 97 <= c <= 102 || 65 <= c <= 70
  }

  /** `normalizeKey` answers with a key: 64 hexadecimal digits. */
  predicate WellFormedKey(key: Text) {
    |key| == 64 && forall k :: 0 <= k < |key| ==> IsHex(key[k])
  }

  /** At most 512 bytes, no control character and none of `/`, `\`, `?` and `#`. */
  predicate SafePath(id: Text) {
    |id| <= 512 && forall k :: 0 <= k < |id| ==> id[k] >= 32 && id[k] !in [0x2f, 0x5c, 0x3f, 0x23]
  }

  /** 64 hexadecimal digits in either case. */
  predicate HexKey(key: Text) {
    |key| == 64 && forall k :: 0 <= k < 64 ==>
      0x30 <= key[k] <= 0x39 || 0x41 <= key[k] <= 0x46 || 0x61 <= key[k] <= 0x66
  }

  /** What each rejection is for; `blank` is "trims to nothing". */
  predicate Fails(req: Request, requireCacheKey: bool, blank: Text -> bool, why: Rejection) {
    match why
    case Unauthorized => blank(req.token) || |req.token| > MAX_TOKEN
    case InvalidProfileToken => |req.profileToken| > MAX_TOKEN || !ValidHeaderValue(req.profileToken)
    case InvalidProfile => blank(req.profileId) || !ValidPathId(req.profileId)
    case InvalidContent => blank(req.contentId) || !ValidPathId(req.contentId)
    case InvalidFile => req.fileId < 1
    case InvalidApiVersion => req.apiVersion != V1 && req.apiVersion != V2
    case InvalidCacheKey => req.cacheKey != [] && !WellFormedKey(req.cacheKey)
    case CacheKeyRequired => requireCacheKey && req.cacheKey == []
  }

  /** The order in which rejections are reported. */
  function Precedence(why: Rejection): nat {
    match why
    case Unauthorized => 0
    case InvalidProfileToken => 1
    case InvalidProfile => 2
    case InvalidContent => 3
    case InvalidFile => 4
    case InvalidApiVersion => 5
    case InvalidCacheKey => 6
    case CacheKeyRequired => 7
  }

  /**
   `validateRequest`: accepts exactly the requests without a fault, and reports the first fault of
   the others. What is accepted is fit for the fingerprint.
   */
  function ValidateRequest(req: Request, requireCacheKey: bool, blank: Text -> bool): (r: Option<Rejection>)
    ensures r == None ==> forall why :: !Fails(req, requireCacheKey, blank, why)
    ensures r.Some? ==>
              && Fails(req, requireCacheKey, blank, r.value)
              && forall why :: Precedence(why) < Precedence(r.value) ==> !Fails(req, requireCacheKey, blank, why)
    ensures r == None ==> Validated(req)
    ensures r == None && requireCacheKey ==> WellFormedKey(req.cacheKey)
    ensures r == None ==>
              && |req.token| <= 0x4000 && |req.profileToken| <= 0x4000
              && SafePath(req.contentId) && SafePath(req.profileId) && req.fileId >= 1
              && (forall k :: 0 <= k < |req.profileToken| ==> 0x20 <= req.profileToken[k] != 0x7f)
              && (req.cacheKey == [] || HexKey(req.cacheKey))
    ensures r == Some(InvalidContent) ==> blank(req.contentId) || !SafePath(req.contentId)
    ensures r == Some(InvalidProfile) ==> blank(req.profileId) || !SafePath(req.profileId)
    ensures r == Some(InvalidCacheKey) ==> req.cacheKey != [] && !HexKey(req.cacheKey)
  {
    if blank(req.token) || |req.token| > MAX_TOKEN then Some(Unauthorized)
    else if |req.profileToken| > MAX_TOKEN || !ValidHeaderValue(req.profileToken) then Some(InvalidProfileToken)
    else if blank(req.profileId) || !ValidPathId(req.profileId) then Some(InvalidProfile)
    else if blank(req.contentId) || !ValidPathId(req.contentId) then Some(InvalidContent)
    else if req.fileId < 1 then Some(InvalidFile)
    else if req.apiVersion != V1 && req.apiVersion != V2 then Some(InvalidApiVersion)
    else if req.cacheKey != [] && !WellFormedKey(req.cacheKey) then Some(InvalidCacheKey)
    else if requireCacheKey && req.cacheKey == [] then Some(CacheKeyRequired)
    else None
  }

  /** The facts about a validated request that the fingerprint depends on. */
  predicate Validated(req: Request) {
    ValidPathId(req.contentId) && req.fileId >= 1 && (req.apiVersion == V1 || req.apiVersion == V2)
  }

  // ----- The fingerprint -----

  /** `strconv.FormatInt(i, 10)`. */
  function FormatInt(i: int): (s: Text)
    ensures NulFree(s)
  {
    if i < 0 then [45] + Decimal(-i) else Decimal(i)
  }

  predicate NulFree(s: Text) {
    forall k :: 0 <= k < |s| ==> s[k] != NUL
  }

  function Join(first: Text, rest: Text): Text {
    first + ([NUL] + rest)
  }

  /** The version part that the two validators contribute. */
  function Validators(head: Head): Text {
    Join(head.etag, head.lastModified)
  }

  /** `fingerprintFor`: six fields joined with NUL bytes. */
  function FingerprintFor(req: Request, head: Head): Text {
    Join(req.apiVersion, Join(req.contentId, Join(FormatInt(req.fileId),
      Join(FormatInt(head.size), Validators(head)))))
  }

  // ----- Injectivity -----

  lemma {:induction false} JoinCancel(a: Text, b: Text, rest: Text, rest': Text)
    requires NulFree(a) && NulFree(b) && Join(a, rest) == Join(b, rest')
    ensures a == b && rest == rest'
  {
    if a == [] || b == [] {
      assert Join(a, rest)[0] == Join(b, rest')[0];
      assert a == b == [];
      assert Join(a, rest)[1..] == rest && Join(b, rest')[1..] == rest';
    } else {
      assert Join(a, rest)[0] == a[0] && Join(b, rest')[0] == b[0];
      assert Join(a, rest)[1..] == Join(a[1..], rest) && Join(b, rest')[1..] == Join(b[1..], rest');
      JoinCancel(a[1..], b[1..], rest, rest');
      assert a == [a[0]] + a[1..] && b == [b[0]] + b[1..];
    }
  }

  lemma DecimalInjective(m: nat, n: nat)
    requires Decimal(m) == Decimal(n)
    ensures m == n
  {
    ValueOfDecimal(m);
    ValueOfDecimal(n);
  }

  lemma FormatIntInjective(i: int, j: int)
    requires FormatInt(i) == FormatInt(j)
    ensures i == j
  {
    assert IsDigit(Decimal(if i < 0 then -i else i)[0]) && IsDigit(Decimal(if j < 0 then -j else j)[0]);
    assert (i < 0) == (FormatInt(i)[0] == 45) && (j < 0) == (FormatInt(j)[0] == 45);
    if i < 0 {
      assert FormatInt(i)[1..] == Decimal(-i) && FormatInt(j)[1..] == Decimal(-j);
      DecimalInjective(-i, -j);
    } else {
      DecimalInjective(i, j);
    }
  }

  /** Equal fingerprints mean equal fields, up to how the two validators were joined. */
  lemma FingerprintEqualIff(req: Request, head: Head, req': Request, head': Head)
    requires Validated(req) && Validated(req')
    ensures FingerprintFor(req, head) == FingerprintFor(req', head') <==>
            && req.apiVersion == req'.apiVersion && req.contentId == req'.contentId && req.fileId == req'.fileId
            && head.size == head'.size && Validators(head) == Validators(head')
  {
    if FingerprintFor(req, head) == FingerprintFor(req', head') {
      var size, size' := Join(FormatInt(head.size), Validators(head)), Join(FormatInt(head'.size), Validators(head'));
      var file, file' := Join(FormatInt(req.fileId), size), Join(FormatInt(req'.fileId), size');
      JoinCancel(req.apiVersion, req'.apiVersion, Join(req.contentId, file), Join(req'.contentId, file'));
      JoinCancel(req.contentId, req'.contentId, file, file');
      JoinCancel(FormatInt(req.fileId), FormatInt(req'.fileId), size, size');
      JoinCancel(FormatInt(head.size), FormatInt(head'.size), Validators(head), Validators(head'));
      FormatIntInjective(req.fileId, req'.fileId);
      FormatIntInjective(head.size, head'.size);
    }
  }

  /** With NUL-free ETags the fingerprint determines all six fields; Last-Modified may be anything. */
  lemma FingerprintInjective(req: Request, head: Head, req': Request, head': Head)
    requires Validated(req) && Validated(req') && NulFree(head.etag) && NulFree(head'.etag)
    ensures FingerprintFor(req, head) == FingerprintFor(req', head') <==>
            req.apiVersion == req'.apiVersion && req.contentId == req'.contentId && req.fileId == req'.fileId
            && head == head'
  {
    FingerprintEqualIff(req, head, req', head');
    if Validators(head) == Validators(head') {
      JoinCancel(head.etag, head'.etag, head.lastModified, head'.lastModified);
    }
  }

  // ----- When the validators are ambiguous -----

  predicate HasNul(s: Text) {
    NUL in s
  }

  /** No other pair of validators joins to the same bytes exactly when neither contains a NUL. */
  lemma ValidatorsUnambiguousIff(head: Head)
    ensures (forall head': Head | head'.size == head.size :: Validators(head') == Validators(head) ==> head' == head)
            <==> !HasNul(head.etag) && !HasNul(head.lastModified)
  {
    if HasNul(head.etag) {
      var k :| 0 <= k < |head.etag| && head.etag[k] == NUL;
      SplitEtag(head, k);
    } else if HasNul(head.lastModified) {
      var k :| 0 <= k < |head.lastModified| && head.lastModified[k] == NUL;
      SplitLastModified(head, k);
    } else {
      forall head': Head | head'.size == head.size && Validators(head') == Validators(head) ensures head' == head {
        SameValidators(head, head');
      }
    }
  }

  lemma SplitEtag(head: Head, k: nat)
    requires k < |head.etag| && head.etag[k] == NUL
    ensures var head' := Head(head.size, head.etag[..k], Join(head.etag[k + 1..], head.lastModified));
            Validators(head') == Validators(head) && head' != head
  {
    var head' := Head(head.size, head.etag[..k], Join(head.etag[k + 1..], head.lastModified));
    assert head.etag == head.etag[..k] + ([NUL] + head.etag[k + 1..]);
    assert Validators(head') == Validators(head);
    assert |head'.etag| < |head.etag|;
  }

  lemma SplitLastModified(head: Head, k: nat)
    requires k < |head.lastModified| && head.lastModified[k] == NUL
    ensures var head' := Head(head.size, Join(head.etag, head.lastModified[..k]), head.lastModified[k + 1..]);
            Validators(head') == Validators(head) && head' != head
  {
    var head' := Head(head.size, Join(head.etag, head.lastModified[..k]), head.lastModified[k + 1..]);
    assert head.lastModified == head.lastModified[..k] + ([NUL] + head.lastModified[k + 1..]);
    assert Validators(head') == Validators(head);
    assert |head'.lastModified| < |head.lastModified|;
  }

  lemma SameValidators(head: Head, head': Head)
    requires !HasNul(head.etag) && !HasNul(head.lastModified)
    requires head'.size == head.size && Validators(head') == Validators(head)
    ensures head' == head
  {
    var s := Validators(head);
    forall k | 0 <= k < |s| && k != |head.etag| ensures s[k] != NUL {
      if k < |head.etag| {
        assert s[k] == head.etag[k];
      } else {
        assert s[k] == head.lastModified[k - |head.etag| - 1];
      }
    }
    assert Validators(head')[|head'.etag|] == NUL;
    assert head'.etag == Validators(head')[..|head'.etag|] && head.etag == s[..|head.etag|];
    assert head'.lastModified == Validators(head')[|head'.etag| + 1..] && head.lastModified == s[|head.etag| + 1..];
  }
}
