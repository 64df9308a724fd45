/** `Array.prototype.filter`, a stable `sort` by an integer key and `slice(0, k)`,
    with the facts the list views rely on. */
module Seqs {

  /** `s.filter(p)`. */
  function Filter<T>(s: seq<T>, p: T -> bool): (r: seq<T>)
    ensures |r| <= |s|
    ensures forall i :: 0 <= i < |r| ==> p(r[i])
  {
    if s == [] then []
    else if p(s[0]) then [s[0]] + Filter(s[1..], p)
    else Filter(s[1..], p)
  }

  /** `r` is `s` with some elements removed, the rest in the same order. */
  predicate IsSubsequence<T(==)>(r: seq<T>, s: seq<T>)
    decreases |s|
  {
    r == [] || (s != [] && ((r[0] == s[0] && IsSubsequence(r[1..], s[1..])) || IsSubsequence(r, s[1..])))
  }

  lemma {:induction false} FilterIsSubsequence<T>(s: seq<T>, p: T -> bool)
    ensures IsSubsequence(Filter(s, p), s)
  {
    if s != [] {
      FilterIsSubsequence(s[1..], p);
    }
  }

  /** An element is kept exactly when it is in the input and passes the test. */
  lemma {:induction false} FilterMembership<T>(s: seq<T>, p: T -> bool, x: T)
    ensures x in Filter(s, p) <==> x in s && p(x)
  {
    if s != [] {
      FilterMembership(s[1..], p, x);
    }
  }

  lemma {:induction false} FilterSnoc<T>(s: seq<T>, x: T, p: T -> bool)
    ensures Filter(s + [x], p) == Filter(s, p) + (if p(x) then [x] else [])
  {
    if s != [] {
      assert (s + [x])[1..] == s[1..] + [x];
      FilterSnoc(s[1..], x, p);
    }
  }

  /** Two filters in a row are one filter by the conjunction. */
  lemma {:induction false} FilterTwice<T>(s: seq<T>, p: T -> bool, q: T -> bool)
    ensures Filter(Filter(s, p), q) == Filter(s, x => p(x) && q(x))
  {
    if s != [] {
      FilterTwice(s[1..], p, q);
    }
  }

  /** A filter whose test does the same as another gives the same list. */
  lemma {:induction false} FilterSameTest<T>(s: seq<T>, p: T -> bool, q: T -> bool)
    requires forall x :: x in s ==> p(x) == q(x)
    ensures Filter(s, p) == Filter(s, q)
  {
    if s != [] {
      FilterSameTest(s[1..], p, q);
    }
  }

  /** A filter that every element passes changes nothing. */
  lemma {:induction false} FilterAll<T>(s: seq<T>, p: T -> bool)
    requires forall x :: x in s ==> p(x)
    ensures Filter(s, p) == s
  {
    if s != [] {
      FilterAll(s[1..], p);
    }
  }

  /** `if (on) result = result.filter(p)`. */
  function Keep<T>(s: seq<T>, on: bool, p: T -> bool): seq<T>
  {
    if on then Filter(s, p) else s
  }

  /** A conditional filter after a filter is one filter by the combined test `r`. */
  lemma KeepStep<T>(base: seq<T>, q: T -> bool, on: bool, p: T -> bool, r: T -> bool)
    requires forall x :: r(x) == (q(x) && (!on || p(x)))
    ensures Keep(Filter(base, q), on, p) == Filter(base, r)
  {
    if on {
      FilterTwice(base, q, p);
      FilterSameTest(base, x => q(x) && p(x), r);
    } else {
      FilterSameTest(base, q, r);
    }
  }

  predicate SortedBy<T>(s: seq<T>, key: T -> int)
  {
    forall i, j :: 0 <= i < j < |s| ==> key(s[i]) <= key(s[j])
  }

  /** Inserts `x` before the first element whose key is not smaller. */
  function Insert<T>(x: T, s: seq<T>, key: T -> int): (r: seq<T>)
    ensures |r| == |s| + 1
    ensures multiset(r) == multiset(s) + multiset{x}
  {
    if s == [] || key(x) <= key(s[0]) then [x] + s
    else
      assert s == [s[0]] + s[1..];
      [s[0]] + Insert(x, s[1..], key)
  }

  lemma {:induction false} InsertElement<T>(x: T, s: seq<T>, key: T -> int, k: nat)
    requires k < |s| + 1
    ensures Insert(x, s, key)[k] == x || Insert(x, s, key)[k] in s
  {
    if !(s == [] || key(x) <= key(s[0])) && k > 0 {
      InsertElement(x, s[1..], key, k - 1);
    }
  }

  lemma ConsSorted<T>(y: T, s: seq<T>, key: T -> int)
    requires SortedBy(s, key)
    requires forall k :: 0 <= k < |s| ==> key(y) <= key(s[k])
    ensures SortedBy([y] + s, key)
  {
    var r := [y] + s;
    forall i, j | 0 <= i < j < |r| ensures key(r[i]) <= key(r[j]) {
      assert r[j] == s[j - 1];
      if i > 0 {
        assert r[i] == s[i - 1];
      }
    }
  }

  lemma {:induction false} InsertSorted<T>(x: T, s: seq<T>, key: T -> int)
    requires SortedBy(s, key)
    ensures SortedBy(Insert(x, s, key), key)
  {
    if s == [] || key(x) <= key(s[0]) {
      ConsSorted(x, s, key);
    } else {
      var rest := Insert(x, s[1..], key);
      InsertSorted(x, s[1..], key);
      forall k | 0 <= k < |rest| ensures key(s[0]) <= key(rest[k]) {
        InsertElement(x, s[1..], key, k);
      }
      ConsSorted(s[0], rest, key);
    }
  }

  /** `s.sort((a, b) => key(a) - key(b))`: stable, ascending by `key`. */
  function SortBy<T>(s: seq<T>, key: T -> int): (r: seq<T>)
    ensures |r| == |s|
    ensures multiset(r) == multiset(s)
    ensures SortedBy(r, key)
  {
    if s == [] then []
    else
      assert s == [s[0]] + s[1..];
      InsertSorted(s[0], SortBy(s[1..], key), key);
      Insert(s[0], SortBy(s[1..], key), key)
  }

  /** `s.slice(0, k)`. */
  function Take<T>(s: seq<T>, k: nat): seq<T>
  {
    if |s| <= k then s else s[..k]
  }

  lemma PrefixOfSortedIsSmallest<T>(r: seq<T>, key: T -> int, k: nat, y: T, x: T)
    requires SortedBy(r, key) && k <= |r|
    requires y in r[..k]
    requires x in multiset(r) - multiset(r[..k])
    ensures key(y) <= key(x)
  {
    assert r == r[..k] + r[k..];
    assert multiset(r) == multiset(r[..k]) + multiset(r[k..]);
    assert x in multiset(r[k..]);
    assert x in r[k..];
    var j :| k <= j < |r| && r[j] == x;
    var i :| 0 <= i < k && r[i] == y;
  }

  /** The first `k` of a sorted permutation are the `k` smallest keys: nothing
      left out has a smaller key than anything kept. */
  lemma TakeOfSortedIsSmallest<T>(s: seq<T>, key: T -> int, k: nat, y: T, x: T)
    requires y in Take(SortBy(s, key), k)
    requires x in multiset(s) - multiset(Take(SortBy(s, key), k))
    ensures key(y) <= key(x)
  {
    var r := SortBy(s, key);
    if |r| > k {
      PrefixOfSortedIsSmallest(r, key, k, y, x);
    }
  }
}
