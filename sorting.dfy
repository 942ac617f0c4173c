/** Python's `list.sort(key=..., reverse=True)`: a stable sort, highest key
    first, elements with equal keys kept in their original order. */
module Sorting {

  predicate SortedDesc<T>(s: seq<T>, key: T -> int) {
    forall i, j :: 0 <= i < j < |s| ==> key(s[i]) >= key(s[j])
  }

  /** The elements of `s` whose key is `k`, in the order of `s`. */
  function WithKey<T>(s: seq<T>, key: T -> int, k: int): (r: seq<T>)
    ensures |r| <= |s|
  {
    if s == [] then []
    else (if key(s[0]) == k then [s[0]] else []) + WithKey(s[1..], key, k)
  }

  /** Puts `x` after every element whose key is at least its own. */
  function Insert<T>(x: T, s: seq<T>, key: T -> int): (r: seq<T>)
    ensures |r| == |s| + 1
  {
    if s == [] || key(s[0]) < key(x) then [x] + s
    else [s[0]] + Insert(x, s[1..], key)
  }

  /** The sorted list: each element, taken in input order, is inserted after
      those already placed with a key at least as high. */
  function SortDesc<T>(s: seq<T>, key: T -> int): (r: seq<T>)
    ensures |r| == |s|
  {
    if s == [] then [] else Insert(s[|s| - 1], SortDesc(s[..|s| - 1], key), key)
  }

  /** An insertion adds no key above a bound both inputs respect. */
  lemma {:induction false} InsertBounded<T>(x: T, s: seq<T>, key: T -> int, b: int)
    requires key(x) <= b && forall i :: 0 <= i < |s| ==> key(s[i]) <= b
    ensures forall j :: 0 <= j < |Insert(x, s, key)| ==> key(Insert(x, s, key)[j]) <= b
  {
    if s != [] && key(s[0]) >= key(x) {
      InsertBounded(x, s[1..], key, b);
    }
  }

  lemma {:induction false} InsertSorted<T>(x: T, s: seq<T>, key: T -> int)
    requires SortedDesc(s, key)
    ensures SortedDesc(Insert(x, s, key), key)
    ensures multiset(Insert(x, s, key)) == multiset(s) + multiset{x}
  {
    var r := Insert(x, s, key);
    if s != [] && key(s[0]) >= key(x) {
      var rest := Insert(x, s[1..], key);
      InsertSorted(x, s[1..], key);
      InsertBounded(x, s[1..], key, key(s[0]));
      assert r == [s[0]] + rest;
      forall i, j | 0 <= i < j < |r| ensures key(r[i]) >= key(r[j]) {
        assert r[j] == rest[j - 1];
        if i > 0 {
          assert r[i] == rest[i - 1];
        }
      }
      assert s == [s[0]] + s[1..];
    } else {
      assert r == [x] + s;
      forall i, j | 0 <= i < j < |r| ensures key(r[i]) >= key(r[j]) {
        assert r[j] == s[j - 1];
        if i > 0 {
          assert r[i] == s[i - 1];
        }
      }
    }
  }

  lemma {:induction false} WithKeyAppend<T>(a: seq<T>, b: seq<T>, key: T -> int, k: int)
    ensures WithKey(a + b, key, k) == WithKey(a, key, k) + WithKey(b, key, k)
  {
    if a != [] {
      assert (a + b)[1..] == a[1..] + b;
      WithKeyAppend(a[1..], b, key, k);
    } else {
      assert a + b == b;
    }
  }

  lemma {:induction false} WithKeyBelow<T>(s: seq<T>, key: T -> int, k: int)
    requires forall i :: 0 <= i < |s| ==> key(s[i]) < k
    ensures WithKey(s, key, k) == []
  {
    if s != [] {
      WithKeyBelow(s[1..], key, k);
    }
  }

  lemma {:induction false} InsertWithKey<T>(x: T, s: seq<T>, key: T -> int, k: int)
    requires SortedDesc(s, key)
    ensures WithKey(Insert(x, s, key), key, k) == WithKey(s, key, k) + (if key(x) == k then [x] else [])
  {
    if s == [] || key(s[0]) < key(x) {
      if key(x) == k {
        WithKeyBelow(s, key, k);
      }
      assert ([x] + s)[1..] == s;
    } else {
      InsertWithKey(x, s[1..], key, k);
      assert ([s[0]] + Insert(x, s[1..], key))[1..] == Insert(x, s[1..], key);
    }
  }

  /** The sort orders by key, loses and adds nothing, and keeps elements of
      equal key in their input order. */
  lemma {:induction false} SortDescCorrect<T>(s: seq<T>, key: T -> int)
    ensures SortedDesc(SortDesc(s, key), key)
    ensures multiset(SortDesc(s, key)) == multiset(s)
    ensures forall k :: WithKey(SortDesc(s, key), key, k) == WithKey(s, key, k)
  {
    if s != [] {
      var init, last := s[..|s| - 1], s[|s| - 1];
      assert s == init + [last];
      SortDescCorrect(init, key);
      InsertSorted(last, SortDesc(init, key), key);
      forall k ensures WithKey(SortDesc(s, key), key, k) == WithKey(s, key, k) {
        InsertWithKey(last, SortDesc(init, key), key, k);
        WithKeyAppend(init, [last], key, k);
      }
    }
  }

  /** Whatever holds of every element still holds of every element of the
      sorted list, which is in order. */
  lemma SortDescPreserves<T>(s: seq<T>, key: T -> int, p: T -> bool)
    requires forall i :: 0 <= i < |s| ==> p(s[i])
    ensures SortedDesc(SortDesc(s, key), key)
    ensures forall i :: 0 <= i < |SortDesc(s, key)| ==> p(SortDesc(s, key)[i])
  {
    SortDescCorrect(s, key);
    var r := SortDesc(s, key);
    forall i | 0 <= i < |r| ensures p(r[i]) {
      assert r[i] in multiset(s);
    }
  }

  /** The first element with key `k` heads `WithKey(s, key, k)`. */
  lemma {:induction false} WithKeyHead<T>(s: seq<T>, key: T -> int, k: int, i: nat)
    requires i < |s| && key(s[i]) == k
    requires forall j :: 0 <= j < i ==> key(s[j]) != k
    ensures WithKey(s, key, k) != [] && WithKey(s, key, k)[0] == s[i]
  {
    if i > 0 {
      WithKeyHead(s[1..], key, k, i - 1);
    }
  }

  /** Python's `sorted(...)[0]`: the head of the sorted list has the highest
      key, and among elements with that key it is the one that came first. */
  lemma {:induction false} SortDescHead<T>(s: seq<T>, key: T -> int) returns (i: nat)
    requires s != []
    ensures i < |s| && s[i] == SortDesc(s, key)[0]
    ensures forall j :: 0 <= j < i ==> key(s[j]) < key(s[i])
    ensures forall j :: 0 <= j < |s| ==> key(s[j]) <= key(s[i])
  {
    var r := SortDesc(s, key);
    SortDescCorrect(s, key);
    assert r[0] in multiset(s);
    var i0 :| 0 <= i0 < |s| && s[i0] == r[0];
    var m := key(r[0]);
    forall j | 0 <= j < |s| ensures key(s[j]) <= m {
      assert s[j] in multiset(r);
    }
    i := FirstWithKey(s, key, m, i0);
    WithKeyHead(s, key, m, i);
    WithKeyHead(r, key, m, 0);
  }

  lemma {:induction false} FirstWithKey<T>(s: seq<T>, key: T -> int, k: int, i0: nat) returns (i: nat)
    requires i0 < |s| && key(s[i0]) == k
    ensures i <= i0 && key(s[i]) == k && forall j :: 0 <= j < i ==> key(s[j]) != k
  {
    if key(s[0]) == k {
      i := 0;
    } else {
      var i1 := FirstWithKey(s[1..], key, k, i0 - 1);
      i := i1 + 1;
    }
  }

  /** Python's `sorted(...)[:n]`: everything kept ranks at least as high as
      everything dropped, and nothing outside the input is kept. */
  lemma SortDescPrefix<T>(s: seq<T>, key: T -> int, n: nat)
    requires n <= |s|
    ensures forall i, j :: 0 <= i < n <= j < |s| ==> key(SortDesc(s, key)[i]) >= key(SortDesc(s, key)[j])
    ensures forall i :: 0 <= i < n ==> SortDesc(s, key)[i] in s
  {
    SortDescCorrect(s, key);
    var r := SortDesc(s, key);
    forall i | 0 <= i < n ensures r[i] in s {
      assert r[i] in multiset(r);
    }
  }

  /** Python's `sorted(...)[:n]` is itself in order, and every element of
      the input left out ranks no higher than anything kept. */
  lemma SortDescTop<T>(s: seq<T>, key: T -> int, n: nat)
    requires n <= |s|
    ensures SortedDesc(SortDesc(s, key)[..n], key)
    ensures forall x, i :: x in s && x !in SortDesc(s, key)[..n] && 0 <= i < n ==> key(SortDesc(s, key)[i]) >= key(x)
  {
    var r := SortDesc(s, key);
    SortDescCorrect(s, key);
    forall x, i | x in s && x !in r[..n] && 0 <= i < n
      ensures key(r[i]) >= key(x)
    {
      assert x in multiset(r);
      var j :| 0 <= j < |r| && r[j] == x;
      assert n <= j;
    }
  }
  /** A list whose elements carry pairwise distinct tags holds no element
      twice. */
  lemma {:induction false} MultiplicityOne<T, U>(s: seq<T>, tag: T -> U, x: T)
    requires forall i, j :: 0 <= i < j < |s| ==> tag(s[i]) != tag(s[j])
    ensures multiset(s)[x] <= 1
  {
    if s != [] {
      var rest := s[1..];
      assert s == [s[0]] + rest;
      MultiplicityOne(rest, tag, x);
      if x == s[0] {
        forall k | 0 <= k < |rest| ensures rest[k] != x {
          assert tag(s[0]) != tag(s[k + 1]);
        }
        assert x !in multiset(rest);
      }
    }
  }

  /** An element found at two positions occurs at least twice. */
  lemma MultiplicityTwo<T>(s: seq<T>, i: nat, j: nat)
    requires i < j < |s| && s[i] == s[j]
    ensures multiset(s)[s[i]] >= 2
  {
    assert s == s[..j] + s[j..];
    assert s[i] in s[..j];
    assert s[j..][0] == s[j];
  }

  /** Rearranging a list whose elements carry pairwise distinct tags, as the
      sort does, keeps the tags distinct. */
  lemma PermutationDistinct<T, U>(s: seq<T>, r: seq<T>, tag: T -> U)
    requires multiset(r) == multiset(s)
    requires forall i, j :: 0 <= i < j < |s| ==> tag(s[i]) != tag(s[j])
    ensures forall i, j :: 0 <= i < j < |r| ==> tag(r[i]) != tag(r[j])
  {
    forall i, j | 0 <= i < j < |r| ensures tag(r[i]) != tag(r[j]) {
      assert r[i] in multiset(s) && r[j] in multiset(s);
      var i' :| 0 <= i' < |s| && s[i'] == r[i];
      var j' :| 0 <= j' < |s| && s[j'] == r[j];
      if i' == j' {
        MultiplicityTwo(r, i, j);
        MultiplicityOne(s, tag, r[i]);
      } else if i' < j' {
        assert tag(s[i']) != tag(s[j']);
      } else {
        assert tag(s[j']) != tag(s[i']);
      }
    }
  }
  /** The sort keeps pairwise distinct tags distinct. */
  lemma SortDescDistinct<T, U>(s: seq<T>, key: T -> int, tag: T -> U)
    requires forall i, j :: 0 <= i < j < |s| ==> tag(s[i]) != tag(s[j])
    ensures forall i, j :: 0 <= i < j < |SortDesc(s, key)| ==> tag(SortDesc(s, key)[i]) != tag(SortDesc(s, key)[j])
  {
    SortDescCorrect(s, key);
    PermutationDistinct(s, SortDesc(s, key), tag);
  }
}
