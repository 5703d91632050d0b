/**
 * `Array.prototype.sort` with a comparator of the form `(a, b) => key(b) - key(a)`
 * (a stable sort into non-increasing key order, as the ECMAScript standard has
 * required since 2019) followed by `slice(0, n)`.
 */
module Sorting {

  predicate SortedDesc<T>(s: seq<T>, key: T -> int) {
    forall i, j :: 0 <= i < j < |s| ==> key(s[i]) >= key(s[j])
  }

  /** Inserts `x` before the first element whose key is not larger than its own. */
  function Insert<T>(x: T, s: seq<T>, key: T -> int): (r: seq<T>)
    ensures |r| == |s| + 1
    ensures multiset(r) == multiset(s) + multiset{x}
  {
    if |s| == 0 || key(x) >= key(s[0]) then [x] + s
    else
      assert s == [s[0]] + s[1..];
      [s[0]] + Insert(x, s[1..], key)
  }

  /** A sequence is sorted when its tail is and its head is not below the tail's head. */
  lemma SortedCons<T>(h: T, t: seq<T>, key: T -> int)
    requires SortedDesc(t, key)
    requires |t| > 0 ==> key(h) >= key(t[0])
    ensures SortedDesc([h] + t, key)
  {
    var r := [h] + t;
    forall i, j | 0 <= i < j < |r| ensures key(r[i]) >= key(r[j]) {
      if i == 0 && j > 1 {
        assert r[1] == t[0] && r[j] == t[j - 1];
      }
    }
  }

  lemma {:induction false} InsertSorted<T>(x: T, s: seq<T>, key: T -> int)
    requires SortedDesc(s, key)
    ensures SortedDesc(Insert(x, s, key), key)
  {
    if |s| == 0 || key(x) >= key(s[0]) {
      SortedCons(x, s, key);
    } else {
      var rest := Insert(x, s[1..], key);
      InsertSorted(x, s[1..], key);
      if |s| > 1 && key(x) < key(s[1]) {
        assert rest[0] == s[1];
      } else {
        assert rest[0] == x;
      }
      SortedCons(s[0], rest, key);
    }
  }

  /** Stable insertion sort into non-increasing key order. */
  function SortDesc<T>(s: seq<T>, key: T -> int): (r: seq<T>)
    ensures |r| == |s|
    ensures multiset(r) == multiset(s)
    ensures SortedDesc(r, key)
  {
    if |s| == 0 then []
    else
      assert s == [s[0]] + s[1..];
      var sorted := SortDesc(s[1..], key);
      InsertSorted(s[0], sorted, key);
      Insert(s[0], sorted, key)
  }

  /** The elements of `s` whose key is `k`, in their order in `s`. */
  function WithKey<T>(s: seq<T>, key: T -> int, k: int): seq<T> {
    if |s| == 0 then []
    else (if key(s[0]) == k then [s[0]] else []) + WithKey(s[1..], key, k)
  }

  lemma {:induction false} InsertWithKey<T>(x: T, s: seq<T>, key: T -> int, k: int)
    ensures WithKey(Insert(x, s, key), key, k)
         == (if key(x) == k then [x] else []) + WithKey(s, key, k)
  {
    if |s| == 0 || key(x) >= key(s[0]) {
      var r := [x] + s;
      assert r[0] == x && r[1..] == s;
      assert WithKey(r, key, k) == (if key(x) == k then [x] else []) + WithKey(s, key, k);
    } else {
      var rest := Insert(x, s[1..], key);
      var r := [s[0]] + rest;
      InsertWithKey(x, s[1..], key, k);
      assert r[0] == s[0] && r[1..] == rest;
      assert WithKey(r, key, k) == (if key(s[0]) == k then [s[0]] else []) + WithKey(rest, key, k);
      assert WithKey(s, key, k) == (if key(s[0]) == k then [s[0]] else []) + WithKey(s[1..], key, k);
    }
  }

  /** Stability: elements with equal keys keep their relative order. */
  lemma {:induction false} SortDescStable<T>(s: seq<T>, key: T -> int, k: int)
    ensures WithKey(SortDesc(s, key), key, k) == WithKey(s, key, k)
  {
    if |s| > 0 {
      SortDescStable(s[1..], key, k);
      InsertWithKey(s[0], SortDesc(s[1..], key), key, k);
    }
  }

  /** `s.slice(0, n)` */
  function Take<T>(s: seq<T>, n: nat): (r: seq<T>)
    ensures |r| == if |s| <= n then |s| else n
    ensures r == s[..|r|]
  {
    if |s| <= n then s else s[..n]
  }

  /** `s.sort(byKeyDescending).slice(0, n)` */
  function Top<T>(s: seq<T>, key: T -> int, n: nat): seq<T> {
    Take(SortDesc(s, key), n)
  }

  /**
   * The kept elements: at most `n` elements of `s`, in non-increasing key
   * order, and none of the dropped elements has a larger key than a kept one.
   */
  lemma TopSpec<T>(s: seq<T>, key: T -> int, n: nat)
    ensures var r := Top(s, key, n);
      && |r| == (if |s| <= n then |s| else n)
      && SortedDesc(r, key)
      && multiset(r) <= multiset(s)
      && forall x, y :: x in r && y in multiset(s) - multiset(r) ==> key(x) >= key(y)
  {
    var sorted := SortDesc(s, key);
    var k := |Take(sorted, n)|;
    assert Take(sorted, n) == sorted[..k];
    SortedPrefix(sorted, k, key);
    PrefixRest(sorted, k);
    SortedSplit(sorted, k, key);
  }

  lemma SortedPrefix<T>(s: seq<T>, k: nat, key: T -> int)
    requires k <= |s| && SortedDesc(s, key)
    ensures SortedDesc(s[..k], key)
  {
    forall i, j | 0 <= i < j < k ensures key(s[..k][i]) >= key(s[..k][j]) {
      assert s[..k][i] == s[i] && s[..k][j] == s[j];
    }
  }

  /** What a prefix leaves out of the multiset is in the rest of the sequence. */
  lemma PrefixRest<T>(s: seq<T>, k: nat)
    requires k <= |s|
    ensures multiset(s[..k]) <= multiset(s)
    ensures forall y :: y in multiset(s) - multiset(s[..k]) ==> y in s[k..]
  {
    assert s == s[..k] + s[k..];
    assert multiset(s) == multiset(s[..k]) + multiset(s[k..]);
    forall y | y in multiset(s) - multiset(s[..k]) ensures y in s[k..] {
      assert y in multiset(s[k..]);
    }
  }

  /** In a sorted sequence no element after position `k` has a larger key than one before it. */
  lemma SortedSplit<T>(s: seq<T>, k: nat, key: T -> int)
    requires k <= |s| && SortedDesc(s, key)
    ensures forall x, y :: x in s[..k] && y in s[k..] ==> key(x) >= key(y)
  {
    forall x, y | x in s[..k] && y in s[k..] ensures key(x) >= key(y) {
      var i :| 0 <= i < k && s[..k][i] == x;
      var j :| 0 <= j < |s| - k && s[k..][j] == y;
      assert s[i] == x && s[k + j] == y;
    }
  }
}
