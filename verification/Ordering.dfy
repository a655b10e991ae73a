/** Byte-lexicographic order on names and the stable sort the installer applies
    to directory listings. */
module Ordering {

  /** `a` comes strictly before `b` in byte order. */
  predicate Before(a: seq<int>, b: seq<int>) {
    if b == [] then false
    else if a == [] then true
    else if a[0] != b[0] then a[0] < b[0]
    else Before(a[1..], b[1..])
  }

  /** `a` and `b` agree in front of `i`, where `a` ends or has the smaller element. */
  predicate FirstDifference(a: seq<int>, b: seq<int>, i: nat) {
    && i <= |a| && i < |b| && a[..i] == b[..i]
    && (i == |a| || a[i] < b[i])
  }

  lemma PrefixesStartAlike(a: seq<int>, b: seq<int>, i: nat)
    requires 0 < i <= |a| && i <= |b| && a[..i] == b[..i]
    ensures a[0] == b[0]
  {
    assert a[0] == a[..i][0] && b[0] == b[..i][0];
  }

  /** Names are compared at their first difference, a proper prefix coming first. */
  lemma {:induction false} BeforeIsFirstDifference(a: seq<int>, b: seq<int>)
    ensures Before(a, b) <==> exists i: nat :: FirstDifference(a, b, i)
  {
    if a != [] && b != [] && a[0] == b[0] {
      BeforeIsFirstDifference(a[1..], b[1..]);
      if i: nat :| FirstDifference(a, b, i) {
        assert i > 0;
        assert a[1..][..i - 1] == a[..i][1..] && b[1..][..i - 1] == b[..i][1..];
        assert FirstDifference(a[1..], b[1..], i - 1);
      }
      if i: nat :| FirstDifference(a[1..], b[1..], i) {
        assert a[..i + 1] == [a[0]] + a[1..][..i] && b[..i + 1] == [b[0]] + b[1..][..i];
        assert FirstDifference(a, b, i + 1);
      }
    } else if b != [] {
      if a == [] || a[0] < b[0] { assert FirstDifference(a, b, 0); }
      forall i: nat | FirstDifference(a, b, i) ensures i == 0 {
        if i > 0 { PrefixesStartAlike(a, b, i); }
      }
    }
  }

  lemma {:induction false} BeforeTrichotomy(a: seq<int>, b: seq<int>)
    ensures Before(a, b) || Before(b, a) || a == b
    ensures !(Before(a, b) && Before(b, a))
    ensures Before(a, b) ==> a != b
  {
    if a != [] && b != [] && a[0] == b[0] {
      BeforeTrichotomy(a[1..], b[1..]);
      assert a == [a[0]] + a[1..] && b == [b[0]] + b[1..];
    }
  }

  lemma {:induction false} BeforeTransitive(a: seq<int>, b: seq<int>, c: seq<int>)
    requires Before(a, b) && Before(b, c)
    ensures Before(a, c)
  {
    if a != [] && a[0] == b[0] == c[0] {
      BeforeTransitive(a[1..], b[1..], c[1..]);
    }
  }

  lemma {:induction false} BeforeBehindPrefix(p: seq<int>, a: seq<int>, b: seq<int>)
    ensures Before(p + a, p + b) <==> Before(a, b)
  {
    if p == [] {
      assert p + a == a && p + b == b;
    } else {
      assert (p + a)[1..] == p[1..] + a && (p + b)[1..] == p[1..] + b;
      BeforeBehindPrefix(p[1..], a, b);
    }
  }

  ghost predicate DistinctKeys<T(!new)>(xs: seq<T>, key: T -> seq<int>) {
    forall i, j :: 0 <= i < j < |xs| ==> key(xs[i]) != key(xs[j])
  }

  ghost predicate SortedBy<T(!new)>(xs: seq<T>, key: T -> seq<int>) {
    forall i, j :: 0 <= i < j < |xs| ==> !Before(key(xs[j]), key(xs[i]))
  }

  function Insert<T>(x: T, xs: seq<T>, key: T -> seq<int>): seq<T> {
    if xs == [] || !Before(key(xs[0]), key(x)) then [x] + xs
    else [xs[0]] + Insert(x, xs[1..], key)
  }

  /** Stable ascending sort by key. */
  function SortBy<T>(xs: seq<T>, key: T -> seq<int>): seq<T> {
    if xs == [] then [] else Insert(xs[0], SortBy(xs[1..], key), key)
  }

  lemma {:induction false} InsertKeeps<T(!new)>(x: T, xs: seq<T>, key: T -> seq<int>)
    requires SortedBy(xs, key)
    ensures SortedBy(Insert(x, xs, key), key)
    ensures multiset(Insert(x, xs, key)) == multiset(xs) + multiset{x}
  {
    if xs == [] {
    } else if !Before(key(xs[0]), key(x)) {
      forall j | 0 <= j < |xs| ensures !Before(key(xs[j]), key(x)) {
        if Before(key(xs[j]), key(x)) {
          BeforeTrichotomy(key(xs[0]), key(xs[j]));
          BeforeTrichotomy(key(x), key(xs[0]));
          if key(xs[0]) != key(xs[j]) { BeforeTransitive(key(xs[0]), key(xs[j]), key(x)); }
        }
      }
    } else {
      var rest := Insert(x, xs[1..], key);
      assert xs == [xs[0]] + xs[1..];
      InsertKeeps(x, xs[1..], key);
      forall j | 0 <= j < |rest| ensures !Before(key(rest[j]), key(xs[0])) {
        assert rest[j] in multiset(rest);
        if rest[j] == x { BeforeTrichotomy(key(xs[0]), key(x)); }
        else { assert rest[j] in multiset(xs[1..]); }
      }
    }
  }

  lemma {:induction false} SortByKeeps<T(!new)>(xs: seq<T>, key: T -> seq<int>)
    ensures SortedBy(SortBy(xs, key), key)
    ensures multiset(SortBy(xs, key)) == multiset(xs)
    ensures |SortBy(xs, key)| == |xs|
  {
    if xs != [] {
      assert xs == [xs[0]] + xs[1..];
      SortByKeeps(xs[1..], key);
      InsertKeeps(xs[0], SortBy(xs[1..], key), key);
      assert |multiset(SortBy(xs, key))| == |multiset(xs)|;
    }
  }

  lemma SortByMembers<T(!new)>(xs: seq<T>, key: T -> seq<int>)
    ensures forall x :: x in SortBy(xs, key) <==> x in xs
  {
    SortByKeeps(xs, key);
    var ys := SortBy(xs, key);
    forall x ensures x in ys <==> x in xs {
      assert x in ys <==> x in multiset(ys);
      assert x in xs <==> x in multiset(xs);
    }
  }

  lemma {:induction false} DistinctSurvivesInsert<T(!new)>(x: T, xs: seq<T>, key: T -> seq<int>)
    requires SortedBy(xs, key) && DistinctKeys(xs, key)
    requires forall y :: y in xs ==> key(y) != key(x)
    ensures DistinctKeys(Insert(x, xs, key), key)
  {
    if xs != [] && Before(key(xs[0]), key(x)) {
      var rest := Insert(x, xs[1..], key);
      DistinctSurvivesInsert(x, xs[1..], key);
      InsertKeeps(x, xs[1..], key);
      forall j | 0 <= j < |rest| ensures key(rest[j]) != key(xs[0]) {
        assert rest[j] in multiset(rest);
        assert rest[j] == x || rest[j] in multiset(xs[1..]);
        if rest[j] != x { assert rest[j] in xs[1..]; }
      }
    }
  }

  lemma {:induction false} DistinctSurvivesSort<T(!new)>(xs: seq<T>, key: T -> seq<int>)
    requires DistinctKeys(xs, key)
    ensures DistinctKeys(SortBy(xs, key), key)
  {
    if xs != [] {
      DistinctSurvivesSort(xs[1..], key);
      SortByKeeps(xs[1..], key);
      SortByMembers(xs[1..], key);
      DistinctSurvivesInsert(xs[0], SortBy(xs[1..], key), key);
    }
  }

  /** With distinct keys the sorted order is fixed by the set of elements, so the
      listing order the operating system chose cannot be observed afterwards. */
  lemma {:induction false} SortIgnoresListingOrder<T(!new)>(xs: seq<T>, ys: seq<T>, key: T -> seq<int>)
    requires DistinctKeys(xs, key) && DistinctKeys(ys, key)
    requires |xs| == |ys| && forall x :: x in xs <==> x in ys
    ensures SortBy(xs, key) == SortBy(ys, key)
  {
    SortByKeeps(xs, key);
    SortByKeeps(ys, key);
    SortByMembers(xs, key);
    SortByMembers(ys, key);
    DistinctSurvivesSort(xs, key);
    DistinctSurvivesSort(ys, key);
    StrictlySortedUnique(SortBy(xs, key), SortBy(ys, key), key);
  }

  lemma {:induction false} StrictlySortedUnique<T(!new)>(xs: seq<T>, ys: seq<T>, key: T -> seq<int>)
    requires SortedBy(xs, key) && SortedBy(ys, key)
    requires DistinctKeys(xs, key) && DistinctKeys(ys, key)
    requires |xs| == |ys| && forall x :: x in xs <==> x in ys
    ensures xs == ys
  {
    if xs != [] {
      assert xs[0] in ys;
      assert ys[0] in xs;
      BeforeTrichotomy(key(xs[0]), key(ys[0]));
      assert xs[0] == ys[0];
      forall x ensures x in xs[1..] <==> x in ys[1..] {
        assert x in xs[1..] ==> x in xs && x != xs[0];
        assert x in ys[1..] ==> x in ys && x != ys[0];
      }
      StrictlySortedUnique(xs[1..], ys[1..], key);
      assert xs == [xs[0]] + xs[1..] && ys == [ys[0]] + ys[1..];
    }
  }

  // ----- sorting a listing whose elements are rewritten one by one

  function Map<T, U>(f: T -> U, xs: seq<T>): (r: seq<U>)
    ensures |r| == |xs|
    ensures forall i :: 0 <= i < |xs| ==> r[i] == f(xs[i])
  {
    seq(|xs|, i requires 0 <= i < |xs| => f(xs[i]))
  }

  /** Every element of `xs` is rewritten to what some element of `ys` is. */
  ghost predicate Covered<T(!new)>(f: T -> T, xs: seq<T>, ys: seq<T>) {
    forall x :: x in xs ==> exists y :: y in ys && f(x) == f(y)
  }

  lemma CoveredIsInclusion<T(!new)>(f: T -> T, xs: seq<T>, ys: seq<T>)
    ensures Covered(f, xs, ys) <==> forall c :: c in Map(f, xs) ==> c in Map(f, ys)
  {
    var fx, fy := Map(f, xs), Map(f, ys);
    if Covered(f, xs, ys) {
      forall c | c in fx ensures c in fy {
        var i :| 0 <= i < |fx| && fx[i] == c;
        assert xs[i] in xs;
        var y :| y in ys && f(xs[i]) == f(y);
        var j :| 0 <= j < |ys| && ys[j] == y;
        assert fy[j] == c;
      }
    }
    if forall c :: c in fx ==> c in fy {
      forall x | x in xs ensures exists y :: y in ys && f(x) == f(y) {
        var i :| 0 <= i < |xs| && xs[i] == x;
        assert fx[i] in fx && fx[i] in fy;
        var j :| 0 <= j < |fy| && fy[j] == fx[i];
        assert ys[j] in ys;
      }
    }
  }

  lemma RewrittenListingsAgree<T(!new)>(f: T -> T, xs: seq<T>, ys: seq<T>, key: T -> seq<int>)
    requires forall x :: key(f(x)) == key(x)
    requires DistinctKeys(xs, key) && DistinctKeys(ys, key)
    ensures SortBy(Map(f, xs), key) == SortBy(Map(f, ys), key) <==>
            |xs| == |ys| && Covered(f, xs, ys) && Covered(f, ys, xs)
  {
    var fx, fy := Map(f, xs), Map(f, ys);
    CoveredIsInclusion(f, xs, ys);
    CoveredIsInclusion(f, ys, xs);
    SortByKeeps(fx, key);
    SortByKeeps(fy, key);
    SortByMembers(fx, key);
    SortByMembers(fy, key);
    if |xs| == |ys| && Covered(f, xs, ys) && Covered(f, ys, xs) {
      SortIgnoresListingOrder(fx, fy, key);
    }
  }

  lemma {:induction false} InsertCommutes<T, U>(f: T -> U, x: T, xs: seq<T>, key: T -> seq<int>, keyOf: U -> seq<int>)
    requires forall y :: y in xs || y == x ==> keyOf(f(y)) == key(y)
    ensures Map(f, Insert(x, xs, key)) == Insert(f(x), Map(f, xs), keyOf)
  {
    if xs != [] {
      assert xs[0] in xs;
      assert Map(f, xs)[1..] == Map(f, xs[1..]);
      if Before(key(xs[0]), key(x)) {
        InsertCommutes(f, x, xs[1..], key, keyOf);
        assert Map(f, [xs[0]] + Insert(x, xs[1..], key)) == [f(xs[0])] + Map(f, Insert(x, xs[1..], key));
      } else {
        assert Map(f, [x] + xs) == [f(x)] + Map(f, xs);
      }
    }
  }

  /** Sorting a listing and then looking at each element is looking first and
      sorting afterwards. */
  lemma {:induction false} SortCommutes<T(!new), U>(f: T -> U, xs: seq<T>, key: T -> seq<int>, keyOf: U -> seq<int>)
    requires forall y :: y in xs ==> keyOf(f(y)) == key(y)
    ensures Map(f, SortBy(xs, key)) == SortBy(Map(f, xs), keyOf)
  {
    if xs != [] {
      SortCommutes(f, xs[1..], key, keyOf);
      SortByMembers(xs[1..], key);
      InsertCommutes(f, xs[0], SortBy(xs[1..], key), key, keyOf);
      assert Map(f, xs)[1..] == Map(f, xs[1..]);
    }
  }
}
