/** Generic building blocks shared by the screens: optional values, results,
    and the list operations the screens perform with `filter`, `includes`,
    spread-append and `slice`. */
module Base {

  datatype Option<+T> = None | Some(value: T)

  datatype Result<+T, +E> = Ok(value: T) | Err(error: E)

  /** `Math.abs`. */
  function Abs(x: real): (r: real)
    ensures r >= 0.0 && (r == x || r == -x)
  {
    if x < 0.0 then -x else x
  }

  /** JavaScript `a || b` on an optional string: an absent or empty string is falsy. */
  function OrElse(o: Option<string>, default: string): (r: string)
    ensures (o.Some? && o.value != "") ==> r == o.value
    ensures (o.None? || o.value == "") ==> r == default
  {
    if o.Some? && o.value != "" then o.value else default
  }

  /** The elements of `s` satisfying `p`, in their original order (Array.prototype.filter). */
  function Keep<T>(s: seq<T>, p: T -> bool): (r: seq<T>)
    ensures |r| <= |s|
    decreases |s|
  {
    if s == [] then [] else (if p(s[0]) then [s[0]] else []) + Keep(s[1..], p)
  }

  /** `a` is obtained from `b` by deleting elements: an order-preserving subsequence. */
  predicate IsSubsequence<T(==)>(a: seq<T>, b: seq<T>)
    decreases |b|
  {
    a == [] || (b != [] && ((a[0] == b[0] && IsSubsequence(a[1..], b[1..])) || IsSubsequence(a, b[1..])))
  }

  lemma {:induction false} KeepMembers<T>(s: seq<T>, p: T -> bool, x: T)
    ensures x in Keep(s, p) <==> x in s && p(x)
    decreases |s|
  {
    if s != [] {
      KeepMembers(s[1..], p, x);
      assert s == [s[0]] + s[1..];
    }
  }

  lemma {:induction false} KeepAll<T>(s: seq<T>, p: T -> bool)
    ensures forall k :: 0 <= k < |Keep(s, p)| ==> p(Keep(s, p)[k])
    decreases |s|
  {
    if s != [] {
      KeepAll(s[1..], p);
    }
  }

  /** Filtering keeps order: the result is a subsequence of the input. */
  lemma {:induction false} KeepIsSubsequence<T>(s: seq<T>, p: T -> bool)
    ensures IsSubsequence(Keep(s, p), s)
    decreases |s|
  {
    if s != [] {
      KeepIsSubsequence(s[1..], p);
      if p(s[0]) {
        var t := Keep(s, p);
        assert t == [s[0]] + Keep(s[1..], p);
        assert t[0] == s[0] && t[1..] == Keep(s[1..], p);
        assert IsSubsequence(t[1..], s[1..]);
      } else {
        assert Keep(s, p) == Keep(s[1..], p);
      }
    }
  }

  /** Two successive filters are one filter by the conjunction. */
  lemma {:induction false} KeepKeep<T>(s: seq<T>, p: T -> bool, q: T -> bool, pq: T -> bool)
    requires forall x :: pq(x) == (p(x) && q(x))
    ensures Keep(Keep(s, p), q) == Keep(s, pq)
    decreases |s|
  {
    if s != [] {
      KeepKeep(s[1..], p, q, pq);
      var t := Keep(s, p);
      assert pq(s[0]) == (p(s[0]) && q(s[0]));
      if p(s[0]) {
        assert t == [s[0]] + Keep(s[1..], p);
        assert t[0] == s[0] && t[1..] == Keep(s[1..], p);
        assert Keep(t, q) == (if q(s[0]) then [s[0]] else []) + Keep(t[1..], q);
      } else {
        assert t == Keep(s[1..], p);
        assert Keep(s, pq) == Keep(s[1..], pq);
      }
    }
  }

  /** Filters by predicates that agree everywhere give the same result. */
  lemma {:induction false} KeepSame<T>(s: seq<T>, p: T -> bool, q: T -> bool)
    requires forall x :: p(x) == q(x)
    ensures Keep(s, p) == Keep(s, q)
    decreases |s|
  {
    if s != [] {
      KeepSame(s[1..], p, q);
    }
  }

  /** Filtering by a predicate that holds everywhere changes nothing. */
  lemma {:induction false} KeepTrue<T>(s: seq<T>, p: T -> bool)
    requires forall x :: p(x)
    ensures Keep(s, p) == s
    decreases |s|
  {
    if s != [] {
      KeepTrue(s[1..], p);
    }
  }

  /** Every occurrence of `x` removed, the rest kept in order (`filter(y => y !== x)`). */
  function RemoveAll<T(==)>(s: seq<T>, x: T): (r: seq<T>)
    ensures x !in r
    ensures forall y :: y in s && y != x ==> y in r
    ensures forall y :: y in r ==> y in s
    ensures |r| <= |s|
    decreases |s|
  {
    if s == [] then [] else (if s[0] == x then [] else [s[0]]) + RemoveAll(s[1..], x)
  }

  lemma {:induction false} RemoveAllAbsent<T>(s: seq<T>, x: T)
    requires x !in s
    ensures RemoveAll(s, x) == s
    decreases |s|
  {
    if s != [] {
      RemoveAllAbsent(s[1..], x);
    }
  }

  /** Removal keeps the remaining elements in their order. */
  lemma {:induction false} RemoveAllIsSubsequence<T>(s: seq<T>, x: T)
    ensures IsSubsequence(RemoveAll(s, x), s)
    decreases |s|
  {
    if s != [] {
      RemoveAllIsSubsequence(s[1..], x);
      var r := RemoveAll(s, x);
      if s[0] != x {
        assert r == [s[0]] + RemoveAll(s[1..], x);
        assert r[0] == s[0] && r[1..] == RemoveAll(s[1..], x);
      } else {
        assert r == RemoveAll(s[1..], x);
      }
    }
  }

  /** No element occurs twice. */
  predicate NoDuplicates<T(==)>(s: seq<T>)
  {
    forall i, j :: 0 <= i < j < |s| ==> s[i] != s[j]
  }

  /** Appending an element not yet present keeps the elements distinct. */
  lemma AppendNoDuplicates<T>(s: seq<T>, x: T)
    requires NoDuplicates(s) && x !in s
    ensures NoDuplicates(s + [x])
  {
    var r := s + [x];
    forall i, j | 0 <= i < j < |r| ensures r[i] != r[j] {
      if j == |s| {
        assert r[i] == s[i];
      }
    }
  }

  lemma {:induction false} RemoveAllNoDuplicates<T>(s: seq<T>, x: T)
    requires NoDuplicates(s)
    ensures NoDuplicates(RemoveAll(s, x))
    decreases |s|
  {
    if s != [] {
      RemoveAllNoDuplicates(s[1..], x);
      var rest := RemoveAll(s[1..], x);
      assert s[0] !in s[1..];
      assert s[0] !in rest;
    }
  }

  /** `includes(x) ? filter(y => y !== x) : [...s, x]`: the membership toggle used by
      the expense selection and the category and currency filter chips. */
  function ToggleMember<T(==)>(s: seq<T>, x: T): (r: seq<T>)
    ensures x in r <==> x !in s
    ensures forall y :: y in s && y != x ==> y in r
    ensures forall y :: y in r && y != x ==> y in s
  {
    if x in s then RemoveAll(s, x) else s + [x]
  }

  /** Toggling an absent element and toggling it again restores the list exactly. */
  lemma ToggleAbsentTwice<T>(s: seq<T>, x: T)
    requires x !in s
    ensures ToggleMember(ToggleMember(s, x), x) == s
  {
    var t := s + [x];
    assert x in t;
    RemoveAllAppend(s, x);
    RemoveAllAbsent(s, x);
  }

  /** Toggling twice restores membership exactly, whether or not `x` was present
      (when it was, it moves to the end). */
  lemma ToggleTwiceMembers<T>(s: seq<T>, x: T)
    ensures forall y :: y in ToggleMember(ToggleMember(s, x), x) <==> y in s
  {
  }

  lemma {:induction false} RemoveAllAppend<T>(s: seq<T>, x: T)
    ensures RemoveAll(s + [x], x) == RemoveAll(s, x)
    decreases |s|
  {
    if s == [] {
      assert RemoveAll([x], x) == [] + RemoveAll([x][1..], x);
    } else {
      assert (s + [x])[1..] == s[1..] + [x];
      RemoveAllAppend(s[1..], x);
    }
  }

  /** Toggling keeps a duplicate-free list duplicate-free. */
  lemma ToggleNoDuplicates<T>(s: seq<T>, x: T)
    requires NoDuplicates(s)
    ensures NoDuplicates(ToggleMember(s, x))
  {
    if x in s {
      RemoveAllNoDuplicates(s, x);
    }
  }

  /** The first `n` elements, or all of them when there are fewer (`slice(0, n)`). */
  function Take<T>(s: seq<T>, n: nat): (r: seq<T>)
    ensures |r| == if |s| < n then |s| else n
    ensures forall k :: 0 <= k < |r| ==> r[k] == s[k]
  {
    if |s| <= n then s else s[..n]
  }
}
