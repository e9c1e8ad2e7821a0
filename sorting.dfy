/** `Array.prototype.sort` with a comparator `(a, b) => key(b) - key(a)`: a stable
    sort into non-increasing key order. The screens sort category totals by
    amount and feed items by time. */
module Sorting {
  import opened Base

  /** `x` goes before the first element whose key is not larger than its own, so
      an element inserted from further left stays ahead of equal keys. */
  function Insert<T>(x: T, s: seq<T>, key: T -> real): seq<T>
    decreases |s|
  {
    if s == [] || key(s[0]) <= key(x) then [x] + s else [s[0]] + Insert(x, s[1..], key)
  }

  function SortDesc<T>(s: seq<T>, key: T -> real): seq<T>
    decreases |s|
  {
    if s == [] then [] else Insert(s[0], SortDesc(s[1..], key), key)
  }

  ghost predicate SortedDesc<T>(s: seq<T>, key: T -> real)
  {
    forall i, j :: 0 <= i < j < |s| ==> key(s[i]) >= key(s[j])
  }

  /** Insertion adds exactly one element, and the first element is either the
      inserted one or the old first one. */
  lemma {:induction false} InsertPerm<T>(x: T, s: seq<T>, key: T -> real)
    ensures multiset(Insert(x, s, key)) == multiset(s) + multiset{x}
    ensures |Insert(x, s, key)| == |s| + 1
    ensures Insert(x, s, key)[0] == x || (s != [] && Insert(x, s, key)[0] == s[0])
    decreases |s|
  {
    if s != [] && key(s[0]) > key(x) {
      InsertPerm(x, s[1..], key);
      assert s == [s[0]] + s[1..];
    }
  }

  /** Insertion into a sorted sequence keeps it sorted. */
  lemma {:induction false} InsertSorted<T>(x: T, s: seq<T>, key: T -> real)
    requires SortedDesc(s, key)
    ensures SortedDesc(Insert(x, s, key), key)
    decreases |s|
  {
    var t := Insert(x, s, key);
    if s == [] || key(s[0]) <= key(x) {
      assert t == [x] + s;
      forall i, j | 0 <= i < j < |t| ensures key(t[i]) >= key(t[j]) {
        if i == 0 {
          assert t[j] == s[j - 1];
          assert key(s[0]) >= key(s[j - 1]);
        } else {
          assert t[i] == s[i - 1] && t[j] == s[j - 1];
        }
      }
    } else {
      var tail := s[1..];
      InsertSorted(x, tail, key);
      InsertPerm(x, tail, key);
      var r := Insert(x, tail, key);
      assert t == [s[0]] + r;
      assert key(s[0]) >= key(r[0]);
      forall i, j | 0 <= i < j < |t| ensures key(t[i]) >= key(t[j]) {
        if i == 0 {
          assert t[j] == r[j - 1];
          assert key(r[0]) >= key(r[j - 1]) || j == 1;
        } else {
          assert t[i] == r[i - 1] && t[j] == r[j - 1];
        }
      }
    }
  }

  /** The result is sorted into non-increasing key order and is a permutation of
      the input. */
  lemma {:induction false} SortDescCorrect<T>(s: seq<T>, key: T -> real)
    ensures SortedDesc(SortDesc(s, key), key)
    ensures multiset(SortDesc(s, key)) == multiset(s)
    ensures |SortDesc(s, key)| == |s|
    decreases |s|
  {
    if s != [] {
      SortDescCorrect(s[1..], key);
      InsertSorted(s[0], SortDesc(s[1..], key), key);
      InsertPerm(s[0], SortDesc(s[1..], key), key);
      assert s == [s[0]] + s[1..];
    }
  }

  /** A prefix of a sorted sequence is sorted. */
  lemma SortedPrefix<T>(s: seq<T>, key: T -> real, n: nat)
    requires SortedDesc(s, key) && n <= |s|
    ensures SortedDesc(s[..n], key)
  {
  }

  /** `sort(...).slice(0, n)`: at most `n` elements, in non-increasing key order,
      all taken from the input, and no element left out has a larger key than
      one kept. */
  lemma TopFacts<T>(s: seq<T>, key: T -> real, n: nat)
    ensures var t := Take(SortDesc(s, key), n);
      |t| == (if |s| < n then |s| else n)
      && SortedDesc(t, key)
      && (forall x :: x in t ==> x in s)
      && (forall x, j :: x in s && x !in t && 0 <= j < |t| ==> key(t[j]) >= key(x))
  {
    SortDescCorrect(s, key);
    var r := SortDesc(s, key);
    var t := Take(r, n);
    forall x | x in t ensures x in s {
      assert x in multiset(r);
    }
    forall x, j | x in s && x !in t && 0 <= j < |t| ensures key(t[j]) >= key(x) {
      assert x in multiset(r);
      var k :| 0 <= k < |r| && r[k] == x;
      assert k >= |t| by {
        assert forall m | 0 <= m < |t| :: r[m] == t[m];
      }
      assert t[j] == r[j];
    }
  }
}
