/**
 The order of the extracted pages: a stable sort by natural name order, and the generated
 file names. `StableSort` stands for the library's `sort.SliceStable`; its contract is that it
 returns the one sorted sequence that keeps same-named items in their original order.
 */
module PageOrder {
  import opened Bytes
  import opened NaturalOrder

  function Insert<T>(x: T, s: seq<T>, name: T -> Text, lower: Text -> Text): seq<T> {
    if s == [] || Order(name(x), name(s[0]), lower) <= 0 then [x] + s
    else [s[0]] + Insert(x, s[1..], name, lower)
  }

  function StableSort<T>(s: seq<T>, name: T -> Text, lower: Text -> Text): seq<T> {
    if s == [] then [] else Insert(s[0], StableSort(s[1..], name, lower), name, lower)
  }

  ghost predicate Sorted<T>(s: seq<T>, name: T -> Text, lower: Text -> Text) {
    forall i, j :: 0 <= i < j < |s| ==> Order(name(s[i]), name(s[j]), lower) <= 0
  }

  /** The items of one name, in their order. */
  function Named<T>(s: seq<T>, name: T -> Text, n: Text): seq<T> {
    if s == [] then []
    else if name(s[0]) == n then [s[0]] + Named(s[1..], name, n)
    else Named(s[1..], name, n)
  }

  lemma {:induction false} InsertSorted<T>(x: T, s: seq<T>, name: T -> Text, lower: Text -> Text)
    requires Sorted(s, name, lower)
    ensures Sorted(Insert(x, s, name, lower), name, lower)
    ensures multiset(Insert(x, s, name, lower)) == multiset{x} + multiset(s)
  {
    if s == [] {
    } else if Order(name(x), name(s[0]), lower) <= 0 {
      forall j | 0 <= j < |s| ensures Order(name(x), name(s[j]), lower) <= 0 {
        if j > 0 {
          OrderTransitive(name(x), name(s[0]), name(s[j]), lower);
        }
      }
    } else {
      var rest := Insert(x, s[1..], name, lower);
      InsertSorted(x, s[1..], name, lower);
      assert s == [s[0]] + s[1..];
      OrderAntisymmetric(name(x), name(s[0]), lower);
      forall j | 0 <= j < |rest| ensures Order(name(s[0]), name(rest[j]), lower) <= 0 {
        assert rest[j] in multiset(rest);
        assert rest[j] == x || rest[j] in s[1..];
      }
    }
  }

  lemma {:induction false} InsertStable<T>(x: T, s: seq<T>, name: T -> Text, lower: Text -> Text, n: Text)
    ensures Named(Insert(x, s, name, lower), name, n) == Named([x] + s, name, n)
  {
    if s != [] && Order(name(x), name(s[0]), lower) > 0 {
      OrderZeroIffEqual(name(x), name(s[0]), lower);
      InsertStable(x, s[1..], name, lower, n);
      assert ([s[0]] + Insert(x, s[1..], name, lower))[1..] == Insert(x, s[1..], name, lower);
      assert ([x] + s)[1..] == s && ([x] + s[1..])[1..] == s[1..];
    }
  }

  /** The sort is a sorted permutation. */
  lemma {:induction false} SortIsSortedPermutation<T>(s: seq<T>, name: T -> Text, lower: Text -> Text)
    ensures Sorted(StableSort(s, name, lower), name, lower)
    ensures multiset(StableSort(s, name, lower)) == multiset(s)
    ensures |StableSort(s, name, lower)| == |s|
  {
    hide Order;
    if s != [] {
      SortIsSortedPermutation(s[1..], name, lower);
      InsertSorted(s[0], StableSort(s[1..], name, lower), name, lower);
      assert s == [s[0]] + s[1..];
    }
    assert |multiset(StableSort(s, name, lower))| == |multiset(s)|;
  }

  /** Items of equal name keep their archive order. */
  lemma {:induction false} SortIsStable<T>(s: seq<T>, name: T -> Text, lower: Text -> Text, n: Text)
    ensures Named(StableSort(s, name, lower), name, n) == Named(s, name, n)
  {
    if s != [] {
      var rest := StableSort(s[1..], name, lower);
      SortIsStable(s[1..], name, lower, n);
      InsertStable(s[0], rest, name, lower, n);
      assert ([s[0]] + rest)[1..] == rest;
    }
  }

  lemma {:induction false} NamedMember<T>(s: seq<T>, name: T -> Text, i: nat)
    requires i < |s|
    ensures Named(s, name, name(s[i])) != []
  {
    if i > 0 {
      NamedMember(s[1..], name, i - 1);
    }
  }

  lemma {:induction false} NamedFound<T>(s: seq<T>, name: T -> Text, n: Text) returns (i: nat)
    requires Named(s, name, n) != []
    ensures i < |s| && name(s[i]) == n
  {
    if name(s[0]) == n {
      i := 0;
    } else {
      i := NamedFound(s[1..], name, n);
      i := i + 1;
    }
  }

  lemma {:induction false} NoneNamed<T>(s: seq<T>, name: T -> Text, n: Text)
    requires forall i :: 0 <= i < |s| ==> name(s[i]) != n
    ensures Named(s, name, n) == []
  {
    if s != [] {
      NoneNamed(s[1..], name, n);
    }
  }

  /** The head of a sorted sequence precedes every name that occurs in it. */
  lemma HeadIsLeast<T>(s: seq<T>, name: T -> Text, lower: Text -> Text, n: Text)
    requires Sorted(s, name, lower) && Named(s, name, n) != []
    ensures s != [] && Order(name(s[0]), n, lower) <= 0
  {
    var i := NamedFound(s, name, n);
    OrderZeroIffEqual(name(s[0]), name(s[0]), lower);
  }

  /** Sortedness and stability determine the result. */
  lemma {:induction false} StableSortUnique<T>(s: seq<T>, t: seq<T>, name: T -> Text, lower: Text -> Text)
    requires Sorted(s, name, lower) && Sorted(t, name, lower)
    requires forall n :: Named(s, name, n) == Named(t, name, n)
    ensures s == t
  {
    if s == [] {
      if t != [] {
        assert false;
      }
    } else {
      NamedMember(s, name, 0);
      HeadIsLeast(t, name, lower, name(s[0]));
      NamedMember(t, name, 0);
      HeadIsLeast(s, name, lower, name(t[0]));
      OrderAntisymmetric(name(s[0]), name(t[0]), lower);
      OrderZeroIffEqual(name(s[0]), name(t[0]), lower);
      assert s[0] == Named(s, name, name(s[0]))[0] == t[0];
      forall n ensures Named(s[1..], name, n) == Named(t[1..], name, n) {
        assert Named(s, name, n) == Named(t, name, n);
        if n == name(s[0]) {
          assert Named(s[1..], name, n) == Named(s, name, n)[1..];
          assert Named(t[1..], name, n) == Named(t, name, n)[1..];
        }
      }
      StableSortUnique(s[1..], t[1..], name, lower);
      assert s == [s[0]] + s[1..] && t == [t[0]] + t[1..];
    }
  }

  ghost predicate DistinctNames<T>(s: seq<T>, name: T -> Text) {
    forall i, j :: 0 <= i < j < |s| ==> name(s[i]) != name(s[j])
  }

  /** With distinct names, a name selects one item: the one in the multiset. */
  lemma {:induction false} NamedOfDistinct<T>(s: seq<T>, name: T -> Text, n: Text)
    requires DistinctNames(s, name)
    ensures |Named(s, name, n)| <= 1
    ensures forall x :: x in s && name(x) == n ==> Named(s, name, n) == [x]
    ensures Named(s, name, n) != [] ==> Named(s, name, n)[0] in s && name(Named(s, name, n)[0]) == n
  {
    if s != [] {
      NamedOfDistinct(s[1..], name, n);
      if name(s[0]) == n {
        NoneNamed(s[1..], name, n);
      }
    }
  }

  /** Pages of distinct names come out in the same order whatever their order in the archive. */
  lemma SortIgnoresArchiveOrder<T>(s: seq<T>, t: seq<T>, name: T -> Text, lower: Text -> Text)
    requires DistinctNames(s, name) && DistinctNames(t, name) && multiset(s) == multiset(t)
    ensures StableSort(s, name, lower) == StableSort(t, name, lower)
  {
    SortIsSortedPermutation(s, name, lower);
    SortIsSortedPermutation(t, name, lower);
    forall n ensures Named(StableSort(s, name, lower), name, n) == Named(StableSort(t, name, lower), name, n) {
      SortIsStable(s, name, lower, n);
      SortIsStable(t, name, lower, n);
      NamedOfDistinct(s, name, n);
      NamedOfDistinct(t, name, n);
      assert forall x :: x in s <==> x in multiset(s);
      assert forall x :: x in t <==> x in multiset(t);
    }
    StableSortUnique(StableSort(s, name, lower), StableSort(t, name, lower), name, lower);
  }

  // ----- Sorting commutes with a relabelling that keeps the names -----

  function Relabel<T, U>(s: seq<T>, f: T -> U): (r: seq<U>)
    ensures |r| == |s| && forall i :: 0 <= i < |s| ==> r[i] == f(s[i])
  {
    if s == [] then [] else [f(s[0])] + Relabel(s[1..], f)
  }

  lemma {:induction false} InsertRelabel<T, U>(x: T, s: seq<T>, f: T -> U,
                                               name: T -> Text, name': U -> Text, lower: Text -> Text)
    requires name'(f(x)) == name(x) && forall y :: y in s ==> name'(f(y)) == name(y)
    ensures Relabel(Insert(x, s, name, lower), f) == Insert(f(x), Relabel(s, f), name', lower)
  {
    if s != [] {
      if Order(name(x), name(s[0]), lower) <= 0 {
        assert ([x] + s)[1..] == s;
      } else {
        InsertRelabel(x, s[1..], f, name, name', lower);
        assert ([s[0]] + Insert(x, s[1..], name, lower))[1..] == Insert(x, s[1..], name, lower);
      }
    }
  }

  lemma {:induction false} SortRelabel<T, U>(s: seq<T>, f: T -> U,
                                             name: T -> Text, name': U -> Text, lower: Text -> Text)
    requires forall y :: y in s ==> name'(f(y)) == name(y)
    ensures Relabel(StableSort(s, name, lower), f) == StableSort(Relabel(s, f), name', lower)
  {
    if s != [] {
      var rest := StableSort(s[1..], name, lower);
      SortRelabel(s[1..], f, name, name', lower);
      SortIsSortedPermutation(s[1..], name, lower);
      forall y | y in rest ensures name'(f(y)) == name(y) {
        assert y in multiset(rest);
      }
      InsertRelabel(s[0], rest, f, name, name', lower);
      assert Relabel(s, f)[1..] == Relabel(s[1..], f);
    }
  }

  // ----- Generated file names -----

  const PAGE_PREFIX: Text := [112, 97, 103, 101, 45]  // "page-"

  /** The file of the page at `index`: `fmt.Sprintf("page-%06d", index+1)`. */
  function PageFile(index: nat): (file: Text)
    ensures |file| >= 11 && file[..5] == PAGE_PREFIX
  {
    var digits := Decimal(index + 1);
    PAGE_PREFIX + (if |digits| < 6 then seq(6 - |digits|, _ => ZERO) + digits else digits)
  }

  /** Different pages get different file names. */
  lemma PageFilesDistinct(i: nat, j: nat)
    requires PageFile(i) == PageFile(j)
    ensures i == j
  {
    PageFileNumber(i);
    PageFileNumber(j);
  }

  lemma PageFileNumber(index: nat)
    ensures AllDigits(PageFile(index)[5..]) && Value(PageFile(index)[5..]) == index + 1
  {
    var digits := Decimal(index + 1);
    ValueOfDecimal(index + 1);
    if |digits| < 6 {
      var zeros: Text := seq(6 - |digits|, _ => ZERO);
      ValueOfZeroPadded(zeros, digits);
      assert PageFile(index)[5..] == zeros + digits;
    } else {
      assert PageFile(index)[5..] == digits;
    }
  }
}
