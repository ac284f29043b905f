/**
 The natural-order comparison of page names.

 `Order` is the reference definition: a name is cut into tokens (maximal digit runs and single
 other bytes), digit runs are compared by the number they denote and then by their width, and
 token lists are compared lexicographically. `NaturalCompare` is the two-index loop.
 */
module NaturalOrder {
  import opened Bytes

  /** One token: a byte (rank, 0, 0), or a digit run (rank of '0', value, width). */
  datatype Token = Token(rank: int, value: nat, width: nat)

  // ----- Tokens -----

  /** The first index at or after i that does not hold a digit. */
  function RunEnd(s: Text, i: nat): (end: nat)
    requires i <= |s|
    ensures i <= end <= |s|
    ensures AllDigits(s[i..end])
    ensures end < |s| ==> !IsDigit(s[end])
    decreases |s| - i
  {
    if i < |s| && IsDigit(s[i]) then
      var end := RunEnd(s, i + 1);
      assert s[i..end] == [s[i]] + s[i + 1..end];
      end
    else i
  }

  function RunToken(run: Text): Token
    requires AllDigits(run)
  {
    Token(ZERO, Value(run), |run|)
  }

  function Tokens(s: Text): seq<Token>
    decreases |s|
  {
    if s == [] then []
    else if IsDigit(s[0]) then
      var end := RunEnd(s, 0);
      assert end > 0;
      [RunToken(s[..end])] + Tokens(s[end..])
    else [Token(s[0], 0, 0)] + Tokens(s[1..])
  }

  /** Every byte its own token: the reading behind `strings.Compare`. */
  function RawTokens(s: Text): seq<Token> {
    if s == [] then [] else [Token(s[0], 0, 0)] + RawTokens(s[1..])
  }

  // ----- The orders -----

  function Sign(x: int, y: int): (c: int)
    ensures -1 <= c <= 1
  {
    if x < y then -1 else if x > y then 1 else 0
  }

  function CompareToken(x: Token, y: Token): (c: int)
    ensures -1 <= c <= 1
  {
    if x.rank != y.rank then Sign(x.rank, y.rank)
    else if x.value != y.value then Sign(x.value, y.value)
    else Sign(x.width, y.width)
  }

  /** Lexicographic order; a proper prefix comes first. */
  function CompareTokens(xs: seq<Token>, ys: seq<Token>): (c: int)
    ensures -1 <= c <= 1
  {
    if xs == [] || ys == [] then Sign(|xs|, |ys|)
    else
      var c := CompareToken(xs[0], ys[0]);
      if c != 0 then c else CompareTokens(xs[1..], ys[1..])
  }

  /** `strings.Compare`. */
  function Lexical(a: Text, b: Text): (c: int)
    ensures -1 <= c <= 1
  {
    CompareTokens(RawTokens(a), RawTokens(b))
  }

  /** The order that page names are sorted by; `lower` stands for `strings.ToLower`. */
  function Order(a: Text, b: Text, lower: Text -> Text): (c: int)
    ensures -1 <= c <= 1
  {
    var c := CompareTokens(Tokens(lower(a)), Tokens(lower(b)));
    if c != 0 then c else Lexical(a, b)
  }

  // ----- Order is a strict total order -----

  lemma {:induction false} CompareTokensAntisymmetric(xs: seq<Token>, ys: seq<Token>)
    ensures CompareTokens(xs, ys) == -CompareTokens(ys, xs)
  {
    if xs != [] && ys != [] {
      CompareTokensAntisymmetric(xs[1..], ys[1..]);
    }
  }

  lemma {:induction false} CompareTokensTransitive(xs: seq<Token>, ys: seq<Token>, zs: seq<Token>)
    requires CompareTokens(xs, ys) <= 0 && CompareTokens(ys, zs) <= 0
    ensures CompareTokens(xs, zs) <= 0
    ensures CompareTokens(xs, ys) < 0 || CompareTokens(ys, zs) < 0 ==> CompareTokens(xs, zs) < 0
  {
    if xs != [] && ys != [] && zs != [] {
      if xs[0] == ys[0] == zs[0] {
        CompareTokensTransitive(xs[1..], ys[1..], zs[1..]);
      }
    }
  }

  lemma {:induction false} CompareTokensZero(xs: seq<Token>, ys: seq<Token>)
    ensures CompareTokens(xs, ys) == 0 <==> xs == ys
  {
    if xs != [] && ys != [] {
      CompareTokensZero(xs[1..], ys[1..]);
      assert xs == [xs[0]] + xs[1..] && ys == [ys[0]] + ys[1..];
    }
  }

  lemma {:induction false} RawTokensInjective(a: Text, b: Text)
    requires RawTokens(a) == RawTokens(b)
    ensures a == b
  {
    if a != [] && b != [] {
      assert RawTokens(a)[1..] == RawTokens(a[1..]) && RawTokens(b)[1..] == RawTokens(b[1..]);
      RawTokensInjective(a[1..], b[1..]);
      assert a == [a[0]] + a[1..] && b == [b[0]] + b[1..];
    }
  }

  /** Tokens lose nothing: a digit run is determined by its value and its width. */
  lemma {:induction false} TokensInjective(a: Text, b: Text)
    requires Tokens(a) == Tokens(b)
    ensures a == b
    decreases |a|
  {
    if a != [] && b != [] {
      assert Tokens(a)[0].rank == Tokens(b)[0].rank;
      assert IsDigit(a[0]) <==> IsDigit(b[0]);
      var m := if IsDigit(a[0]) then RunEnd(a, 0) else 1;
      var n := if IsDigit(b[0]) then RunEnd(b, 0) else 1;
      assert Tokens(a)[1..] == Tokens(a[m..]) && Tokens(b)[1..] == Tokens(b[n..]);
      if IsDigit(a[0]) {
        assert a[0..m] == a[..m] && b[0..n] == b[..n];
        ValueInjective(a[..m], b[..n]);
      }
      TokensInjective(a[m..], b[n..]);
      assert a == a[..m] + a[m..] && b == b[..n] + b[n..];
    }
  }

  lemma OrderAntisymmetric(a: Text, b: Text, lower: Text -> Text)
    ensures Order(a, b, lower) == -Order(b, a, lower)
  {
    CompareTokensAntisymmetric(Tokens(lower(a)), Tokens(lower(b)));
    CompareTokensAntisymmetric(RawTokens(a), RawTokens(b));
  }

  lemma OrderTransitive(a: Text, b: Text, c: Text, lower: Text -> Text)
    requires Order(a, b, lower) <= 0 && Order(b, c, lower) <= 0
    ensures Order(a, c, lower) <= 0
    ensures Order(a, b, lower) < 0 || Order(b, c, lower) < 0 ==> Order(a, c, lower) < 0
  {
    var x, y, z := Tokens(lower(a)), Tokens(lower(b)), Tokens(lower(c));
    CompareTokensTransitive(x, y, z);
    CompareTokensZero(x, y);
    CompareTokensZero(y, z);
    CompareTokensZero(x, z);
    if x == y == z {
      CompareTokensTransitive(RawTokens(a), RawTokens(b), RawTokens(c));
    }
  }

  /** Only a name itself compares equal to it, whatever `lower` does. */
  lemma OrderZeroIffEqual(a: Text, b: Text, lower: Text -> Text)
    ensures Order(a, b, lower) == 0 <==> a == b
  {
    CompareTokensZero(Tokens(lower(a)), Tokens(lower(b)));
    CompareTokensZero(RawTokens(a), RawTokens(b));
    if RawTokens(a) == RawTokens(b) {
      RawTokensInjective(a, b);
    }
  }

  // ----- Ties: the raw names decide, byte by byte -----

  lemma {:induction false} RawTokensOfCut(s: Text, rest: Text)
    ensures RawTokens(s + rest) == RawTokens(s) + RawTokens(rest)
  {
    if s == [] {
      assert s + rest == rest;
    } else {
      assert (s + rest)[1..] == s[1..] + rest;
      RawTokensOfCut(s[1..], rest);
    }
  }

  /** Of two names with equal lower-cased forms, the one with the smaller first different byte comes first. */
  lemma TieByFirstByte(a: Text, b: Text, lower: Text -> Text, p: Text, x: Byte, xs: Text, y: Byte, ys: Text)
    requires lower(a) == lower(b) && a == p + ([x] + xs) && b == p + ([y] + ys) && x < y
    ensures Order(a, b, lower) == -1 && Order(b, a, lower) == 1
  {
    CompareTokensZero(Tokens(lower(a)), Tokens(lower(b)));
    RawTokensOfCut(p, [x] + xs);
    RawTokensOfCut(p, [y] + ys);
    assert ([x] + xs)[1..] == xs && ([y] + ys)[1..] == ys;
    FirstDifference(RawTokens(a), RawTokens(b), RawTokens(p), Token(x, 0, 0), RawTokens(xs), Token(y, 0, 0),
        RawTokens(ys));
    OrderAntisymmetric(a, b, lower);
  }

  /** ... and a name comes before its own continuations. */
  lemma TieByLength(a: Text, rest: Text, lower: Text -> Text)
    requires rest != [] && lower(a) == lower(a + rest)
    ensures Order(a, a + rest, lower) == -1 && Order(a + rest, a, lower) == 1
  {
    CompareTokensZero(Tokens(lower(a)), Tokens(lower(a + rest)));
    RawTokensOfCut(a, rest);
    CommonPrefix(RawTokens(a), [], RawTokens(rest));
    assert RawTokens(a) + [] == RawTokens(a);
    OrderAntisymmetric(a, a + rest, lower);
  }

  // ----- Digit runs compare as unbounded numbers -----

  /** s can be cut before `rest` without cutting through a digit run. */
  predicate CleanCut(s: Text, rest: Text) {
    s == [] || rest == [] || !IsDigit(s[|s| - 1]) || !IsDigit(rest[0])
  }

  lemma {:induction false} RunEndAt(s: Text, i: nat, end: nat)
    requires i <= end <= |s| && AllDigits(s[i..end]) && (end < |s| ==> !IsDigit(s[end]))
    ensures RunEnd(s, i) == end
    decreases end - i
  {
    if i < end {
      assert s[i] == s[i..end][0];
      assert s[i + 1..end] == s[i..end][1..];
      RunEndAt(s, i + 1, end);
    }
  }

  /** A clean cut does not lengthen the run before it. */
  lemma RunOfCut(s: Text, rest: Text)
    requires CleanCut(s, rest) && s != [] && IsDigit(s[0])
    ensures RunEnd(s + rest, 0) == RunEnd(s, 0)
  {
    var n := RunEnd(s, 0);
    assert s[0..n] == (s + rest)[0..n];
    assert n < |s| ==> (s + rest)[n] == s[n];
    assert n == |s| ==> IsDigit(s[0..n][n - 1]);
    RunEndAt(s + rest, 0, n);
  }

  lemma {:induction false} TokensOfCut(s: Text, rest: Text)
    requires CleanCut(s, rest)
    ensures Tokens(s + rest) == Tokens(s) + Tokens(rest)
    decreases |s|
  {
    hide Value, RunToken, RunEnd;
    if s == [] {
      assert s + rest == rest;
    } else {
      var n := if IsDigit(s[0]) then RunEnd(s, 0) else 1;
      assert (s + rest)[..n] == s[..n] && (s + rest)[n..] == s[n..] + rest;
      if IsDigit(s[0]) {
        RunOfCut(s, rest);
        assert (s + rest)[0..n] == s[0..n];
      }
      assert n < |s| ==> s[n..][|s[n..]| - 1] == s[|s| - 1];
      TokensOfCut(s[n..], rest);
    }
  }

  lemma TokensOfRun(run: Text, rest: Text)
    requires run != [] && AllDigits(run) && (rest == [] || !IsDigit(rest[0]))
    ensures Tokens(run + rest) == [RunToken(run)] + Tokens(rest)
  {
    var s := run + rest;
    assert s[0..|run|] == s[..|run|] == run && s[|run|..] == rest;
    RunEndAt(s, 0, |run|);
    assert s[0] == run[0];
  }

  lemma {:induction false} CommonPrefix(p: seq<Token>, xs: seq<Token>, ys: seq<Token>)
    ensures CompareTokens(p + xs, p + ys) == CompareTokens(xs, ys)
  {
    if p == [] {
      assert p + xs == xs && p + ys == ys;
    } else {
      assert (p + xs)[1..] == p[1..] + xs && (p + ys)[1..] == p[1..] + ys;
      CommonPrefix(p[1..], xs, ys);
    }
  }

  /** A text read as prefix tokens, one number, and whatever follows. */
  lemma TokensAroundRun(s: Text, p: Text, run: Text, rest: Text)
    requires s == p + (run + rest)
    requires run != [] && AllDigits(run) && (rest == [] || !IsDigit(rest[0]))
    requires p == [] || !IsDigit(p[|p| - 1])
    ensures Tokens(s) == Tokens(p) + ([RunToken(run)] + Tokens(rest))
  {
    TokensOfCut(p, run + rest);
    TokensOfRun(run, rest);
  }

  lemma FirstDifference(s: seq<Token>, t: seq<Token>,
                        p: seq<Token>, x: Token, xs: seq<Token>, y: Token, ys: seq<Token>)
    requires s == p + ([x] + xs) && t == p + ([y] + ys)
    requires CompareToken(x, y) != 0
    ensures CompareTokens(s, t) == CompareToken(x, y)
  {
    CommonPrefix(p, [x] + xs, [y] + ys);
  }

  lemma RunsDecide(s: Text, t: Text, p: Text, run: Text, rest: Text, run': Text, rest': Text)
    requires s == p + (run + rest) && t == p + (run' + rest')
    requires run != [] && AllDigits(run) && (rest == [] || !IsDigit(rest[0]))
    requires run' != [] && AllDigits(run') && (rest' == [] || !IsDigit(rest'[0]))
    requires p == [] || !IsDigit(p[|p| - 1])
    requires CompareToken(RunToken(run), RunToken(run')) != 0
    ensures CompareTokens(Tokens(s), Tokens(t)) == CompareToken(RunToken(run), RunToken(run'))
  {
    var left, right, start, after, after' := Tokens(s), Tokens(t), Tokens(p), Tokens(rest), Tokens(rest');
    TokensAroundRun(s, p, run, rest);
    TokensAroundRun(t, p, run', rest');
    FirstDifference(left, right, start, RunToken(run), after, RunToken(run'), after');
  }

  /**
   Names whose lower-cased forms agree up to a point not preceded by a digit, and continue there
   with digit runs of different value, are ordered by that value: for any run length and any zero
   padding. Runs of equal value but different width are ordered by width.
   */
  lemma DigitRunsOrderByValue(a: Text, b: Text, lower: Text -> Text,
                              p: Text, run: Text, rest: Text, run': Text, rest': Text)
    requires lower(a) == p + (run + rest) && lower(b) == p + (run' + rest')
    requires run != [] && AllDigits(run) && (rest == [] || !IsDigit(rest[0]))
    requires run' != [] && AllDigits(run') && (rest' == [] || !IsDigit(rest'[0]))
    requires p == [] || !IsDigit(p[|p| - 1])
    ensures Value(run) != Value(run') ==> Order(a, b, lower) == Sign(Value(run), Value(run'))
    ensures Value(run) == Value(run') && |run| != |run'| ==> Order(a, b, lower) == Sign(|run|, |run'|)
  {
    if CompareToken(RunToken(run), RunToken(run')) != 0 {
      RunsDecide(lower(a), lower(b), p, run, rest, run', rest');
    }
  }

  // ----- The loop -----

  /** `strings.TrimLeft(run, "0")`. */
  function TrimZeros(run: Text): (t: Text)
    requires AllDigits(run)
    ensures AllDigits(t) && |t| <= |run| && Value(t) == Value(run)
    ensures t != [] ==> t[0] != ZERO
  {
    if run != [] && run[0] == ZERO then TrimZeros(run[1..]) else run
  }

  /** Trimmed runs of one width compare byte by byte as their values do. */
  lemma {:induction false} LexicalIsNumeric(s: Text, t: Text)
    requires AllDigits(s) && AllDigits(t) && |s| == |t|
    ensures Lexical(s, t) == Sign(Value(s), Value(t))
  {
    if s != [] {
      assert RawTokens(s)[1..] == RawTokens(s[1..]) && RawTokens(t)[1..] == RawTokens(t[1..]);
      if s[0] < t[0] {
        FirstDigitDecides(s, t);
      } else if t[0] < s[0] {
        FirstDigitDecides(t, s);
      } else {
        LexicalIsNumeric(s[1..], t[1..]);
      }
    }
  }

  /** The code's test on trimmed runs (width, then bytes, then untrimmed width) is `CompareToken`. */
  lemma TrimmedComparison(run: Text, run': Text)
    requires AllDigits(run) && AllDigits(run')
    ensures var an, bn := TrimZeros(run), TrimZeros(run');
            CompareToken(RunToken(run), RunToken(run')) ==
            if |an| != |bn| then Sign(|an|, |bn|)
            else if Lexical(an, bn) != 0 then Lexical(an, bn)
            else Sign(|run|, |run'|)
  {
    var an, bn := TrimZeros(run), TrimZeros(run');
    if |an| < |bn| {
      LongerRunIsLarger(an, bn);
    } else if |bn| < |an| {
      LongerRunIsLarger(bn, an);
    } else {
      LexicalIsNumeric(an, bn);
    }
  }

  // ----- Other bytes compare as bytes -----

  lemma FirstTokenRank(s: Text)
    requires s != []
    ensures Tokens(s) != [] && Tokens(s)[0].rank == if IsDigit(s[0]) then ZERO else s[0]
  {
  }

  /**
   Names that agree, lower-cased, up to a point that cuts through no digit run, and then differ in a
   byte that is not a digit in both, are ordered by that byte.
   */
  lemma BytesDecide(a: Text, b: Text, lower: Text -> Text, p: Text, s: Text, t: Text)
    requires lower(a) == p + s && lower(b) == p + t && CleanCut(p, s) && CleanCut(p, t)
    requires s != [] && t != [] && s[0] != t[0] && !(IsDigit(s[0]) && IsDigit(t[0]))
    ensures Order(a, b, lower) == Sign(s[0], t[0])
  {
    hide Tokens;
    TokensOfCut(p, s);
    TokensOfCut(p, t);
    FirstTokenRank(s);
    FirstTokenRank(t);
    var xs, ys := Tokens(s), Tokens(t);
    assert xs == [xs[0]] + xs[1..] && ys == [ys[0]] + ys[1..];
    FirstDifference(Tokens(lower(a)), Tokens(lower(b)), Tokens(p), xs[0], xs[1..], ys[0], ys[1..]);
  }

  /** A name whose lower-cased form the other continues, without continuing its last digit run, comes first. */
  lemma ShorterNameFirst(a: Text, b: Text, lower: Text -> Text, rest: Text)
    requires lower(b) == lower(a) + rest && rest != [] && CleanCut(lower(a), rest)
    ensures Order(a, b, lower) == -1
  {
    hide Tokens;
    TokensOfCut(lower(a), rest);
    FirstTokenRank(rest);
    CommonPrefix(Tokens(lower(a)), [], Tokens(rest));
    assert Tokens(lower(a)) + [] == Tokens(lower(a));
  }

  /** What is left of the comparison once both names agree up to index i, outside any run. */
  ghost predicate Agrees(aa: Text, bb: Text, i: nat) {
    && i <= |aa| && i <= |bb| && aa[..i] == bb[..i]
    && CompareTokens(Tokens(aa), Tokens(bb)) == CompareTokens(Tokens(aa[i..]), Tokens(bb[i..]))
  }

  lemma AgreesStep(aa: Text, bb: Text, i: nat, m: nat)
    requires Agrees(aa, bb, i) && i < |aa| && i < |bb|
    requires i < m <= |aa| && m <= |bb| && aa[i..m] == bb[i..m]
    requires Tokens(aa[i..]) == Tokens(aa[i..m]) + Tokens(aa[m..])
    requires Tokens(bb[i..]) == Tokens(bb[i..m]) + Tokens(bb[m..])
    ensures Agrees(aa, bb, m)
  {
    assert aa[..m] == aa[..i] + aa[i..m] && bb[..m] == bb[..i] + bb[i..m];
    CommonPrefix(Tokens(aa[i..m]), Tokens(aa[m..]), Tokens(bb[m..]));
  }

  lemma NoTokens()
    ensures Tokens([]) == []
  {
  }

  /** Cutting s at the end of the run that starts at i. */
  lemma RunAt(s: Text, i: nat, m: nat)
    requires i < m <= |s| && m == RunEnd(s, i)
    ensures Tokens(s[i..]) == [RunToken(s[i..m])] + Tokens(s[m..])
    ensures Tokens(s[i..m]) == [RunToken(s[i..m])]
  {
    hide Tokens, RunToken;
    assert s[i..] == s[i..m] + s[m..];
    TokensOfRun(s[i..m], s[m..]);
    TokensOfRun(s[i..m], []);
    NoTokens();
    assert s[i..m] + [] == s[i..m];
  }

  /** Two runs that start together: either they decide, or they are equal and the walk goes on. */
  lemma RunStep(aa: Text, bb: Text, i: nat, m: nat, n: nat)
    requires Agrees(aa, bb, i)
    requires i < m <= |aa| && m == RunEnd(aa, i) && i < n <= |bb| && n == RunEnd(bb, i)
    ensures var c := CompareToken(RunToken(aa[i..m]), RunToken(bb[i..n]));
            if c != 0 then CompareTokens(Tokens(aa), Tokens(bb)) == c else m == n && Agrees(aa, bb, m)
  {
    RunAt(aa, i, m);
    RunAt(bb, i, n);
    if CompareToken(RunToken(aa[i..m]), RunToken(bb[i..n])) == 0 {
      ValueInjective(aa[i..m], bb[i..n]);
      AgreesStep(aa, bb, i, m);
    }
  }

  lemma TokensOfByte(s: Text, i: nat)
    requires i < |s| && !IsDigit(s[i])
    ensures Tokens(s[i..]) == [Token(s[i], 0, 0)] + Tokens(s[i + 1..])
    ensures Tokens(s[i..i + 1]) == [Token(s[i], 0, 0)]
  {
    assert s[i..][1..] == s[i + 1..];
    assert s[i..i + 1][1..] == [];
  }

  /** Two bytes that do not both belong to a run. */
  lemma ByteStep(aa: Text, bb: Text, i: nat)
    requires Agrees(aa, bb, i) && i < |aa| && i < |bb| && !(IsDigit(aa[i]) && IsDigit(bb[i]))
    ensures if aa[i] != bb[i] then CompareTokens(Tokens(aa), Tokens(bb)) == Sign(aa[i], bb[i])
            else Agrees(aa, bb, i + 1)
  {
    assert Tokens(aa[i..])[0].rank == aa[i] || IsDigit(aa[i]);
    assert Tokens(bb[i..])[0].rank == bb[i] || IsDigit(bb[i]);
    if aa[i] == bb[i] {
      TokensOfByte(aa, i);
      TokensOfByte(bb, i);
      AgreesStep(aa, bb, i, i + 1);
    }
  }

  /** When one name is used up, the shorter one is a prefix of the other. */
  lemma EndOfNames(aa: Text, bb: Text, i: nat)
    requires Agrees(aa, bb, i) && (i == |aa| || i == |bb|)
    ensures CompareTokens(Tokens(aa), Tokens(bb)) == Sign(|aa|, |bb|)
  {
    if |aa| == |bb| {
      assert aa == aa[..i] && bb == bb[..i];
      CompareTokensZero(Tokens(aa), Tokens(bb));
    }
  }

  method SkipDigits(s: Text, start: nat) returns (i: nat)
    requires start <= |s|
    ensures i == RunEnd(s, start)
  {
    i := start;
    while i < |s| && IsDigit(s[i])
      invariant start <= i <= |s| && RunEnd(s, start) == RunEnd(s, i)
    {
      i := i + 1;
    }
  }

  /** The comparator as written: two indices advanced together over the lower-cased names. */
  method NaturalCompare(a: Text, b: Text, lower: Text -> Text) returns (c: int)
    ensures c == Order(a, b, lower)
  {
    hide Tokens, CompareTokens, RunToken, TrimZeros, Lexical;
    var aa, bb := lower(a), lower(b);
    var i, j := 0, 0;
    assert aa[0..] == aa && bb[0..] == bb;
    while i < |aa| && j < |bb|
      invariant i == j && Agrees(aa, bb, i)
    {
      var aDigit, bDigit := IsDigit(aa[i]), IsDigit(bb[j]);
      if aDigit && bDigit {
        var ai, bj := i, j;
        i := SkipDigits(aa, i);
        j := SkipDigits(bb, j);
        RunStep(aa, bb, ai, i, j);
        var an, bn := TrimZeros(aa[ai..i]), TrimZeros(bb[bj..j]);
        TrimmedComparison(aa[ai..i], bb[bj..j]);
        if |an| != |bn| {
          return if |an| < |bn| then -1 else 1;
        }
        if Lexical(an, bn) != 0 {
          return Lexical(an, bn);
        }
        if i - ai != j - bj {
          return if i - ai < j - bj then -1 else 1;
        }
      } else {
        ByteStep(aa, bb, i);
        if aa[i] != bb[j] {
          return if aa[i] < bb[j] then -1 else 1;
        }
        i := i + 1;
        j := j + 1;
      }
    }
    EndOfNames(aa, bb, i);
    if |aa| != |bb| {
      return if |aa| < |bb| then -1 else 1;
    }
    return Lexical(a, b);
  }
}
