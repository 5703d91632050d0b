/**
 * `Array.prototype.filter` with a pure predicate, shared by the comparison
 * form (non-blank usernames) and the developer search.
 */
module Lists {

  /** The elements of `s` that satisfy `keep`, in their order in `s`. */
  function Filter<T>(s: seq<T>, keep: T -> bool): (r: seq<T>)
    ensures |r| <= |s|
    ensures forall i :: 0 <= i < |r| ==> r[i] in s && keep(r[i])
    ensures forall i :: 0 <= i < |s| && keep(s[i]) ==> s[i] in r
  {
    if |s| == 0 then []
    else
      var rest := Filter(s[1..], keep);
      assert forall i :: 1 <= i < |s| ==> s[i] == s[1..][i - 1];
      (if keep(s[0]) then [s[0]] else []) + rest
  }

  /** Each element is kept as many times as it occurs, or not at all. */
  lemma {:induction false} FilterMultiplicity<T>(s: seq<T>, keep: T -> bool)
    ensures forall x :: multiset(Filter(s, keep))[x] == (if keep(x) then multiset(s)[x] else 0)
  {
    if |s| > 0 {
      FilterMultiplicity(s[1..], keep);
      var head := if keep(s[0]) then [s[0]] else [];
      assert Filter(s, keep) == head + Filter(s[1..], keep);
      assert s == [s[0]] + s[1..];
      assert multiset(s) == multiset{s[0]} + multiset(s[1..]);
      assert multiset(Filter(s, keep)) == multiset(head) + multiset(Filter(s[1..], keep));
    }
  }

  /** `a` is `b` with some elements left out, the others in the same order. */
  predicate IsSubsequence<T(==)>(a: seq<T>, b: seq<T>)
    decreases |b|
  {
    |a| == 0 || (|b| > 0 && ((a[0] == b[0] && IsSubsequence(a[1..], b[1..])) || IsSubsequence(a, b[1..])))
  }

  lemma {:induction false} FilterIsSubsequence<T>(s: seq<T>, keep: T -> bool)
    ensures IsSubsequence(Filter(s, keep), s)
  {
    if |s| > 0 {
      FilterIsSubsequence(s[1..], keep);
      var r := Filter(s, keep);
      if keep(s[0]) {
        assert r[0] == s[0] && r[1..] == Filter(s[1..], keep);
      } else {
        assert r == Filter(s[1..], keep);
      }
    }
  }

  /** Two different positions of `s` satisfy `keep`. */
  predicate TwoSatisfy<T>(s: seq<T>, keep: T -> bool) {
    exists i, j :: 0 <= i < j < |s| && keep(s[i]) && keep(s[j])
  }

  /** At least two elements are kept iff two different positions satisfy the predicate. */
  lemma {:induction false} FilterAtLeastTwo<T>(s: seq<T>, keep: T -> bool)
    ensures |Filter(s, keep)| >= 2 <==> TwoSatisfy(s, keep)
  {
    if |s| > 0 {
      FilterAtLeastTwo(s[1..], keep);
      if keep(s[0]) {
        assert |Filter(s, keep)| == 1 + |Filter(s[1..], keep)|;
        FilterNonEmpty(s[1..], keep);
        TwoWithHead(s, keep);
      } else {
        assert Filter(s, keep) == Filter(s[1..], keep);
        TwoWithoutHead(s, keep);
      }
    }
  }

  lemma FilterNonEmpty<T>(s: seq<T>, keep: T -> bool)
    ensures |Filter(s, keep)| >= 1 <==> exists k :: 0 <= k < |s| && keep(s[k])
  {
    if |Filter(s, keep)| >= 1 {
      var x := Filter(s, keep)[0];
      assert x in s;
    }
  }

  lemma TwoWithHead<T>(s: seq<T>, keep: T -> bool)
    requires |s| > 0 && keep(s[0])
    ensures TwoSatisfy(s, keep) <==> exists k :: 0 <= k < |s[1..]| && keep(s[1..][k])
  {
    if exists k :: 0 <= k < |s[1..]| && keep(s[1..][k]) {
      var k :| 0 <= k < |s[1..]| && keep(s[1..][k]);
      assert keep(s[0]) && keep(s[k + 1]);
    }
    if TwoSatisfy(s, keep) {
      var i, j :| 0 <= i < j < |s| && keep(s[i]) && keep(s[j]);
      assert s[1..][j - 1] == s[j];
    }
  }

  lemma TwoWithoutHead<T>(s: seq<T>, keep: T -> bool)
    requires |s| > 0 && !keep(s[0])
    ensures TwoSatisfy(s, keep) <==> TwoSatisfy(s[1..], keep)
  {
    var tail := s[1..];
    if TwoSatisfy(s, keep) {
      var i, j :| 0 <= i < j < |s| && keep(s[i]) && keep(s[j]);
      assert tail[i - 1] == s[i] && tail[j - 1] == s[j];
    }
    if TwoSatisfy(tail, keep) {
      var i, j :| 0 <= i < j < |tail| && keep(tail[i]) && keep(tail[j]);
      assert s[i + 1] == tail[i] && s[j + 1] == tail[j];
    }
  }

  /** Everything kept satisfies the predicate, so a second pass changes nothing. */
  lemma FilterIdempotent<T>(s: seq<T>, keep: T -> bool)
    ensures Filter(Filter(s, keep), keep) == Filter(s, keep)
  {
    FilterKeepsAll(Filter(s, keep), keep);
  }

  lemma {:induction false} FilterKeepsAll<T>(s: seq<T>, keep: T -> bool)
    requires forall i :: 0 <= i < |s| ==> keep(s[i])
    ensures Filter(s, keep) == s
  {
    if |s| > 0 {
      FilterKeepsAll(s[1..], keep);
    }
  }

  /** Two predicates that agree on every element keep the same elements. */
  lemma {:induction false} FilterAgreeing<T>(s: seq<T>, keep: T -> bool, keep': T -> bool)
    requires forall i :: 0 <= i < |s| ==> keep(s[i]) == keep'(s[i])
    ensures Filter(s, keep) == Filter(s, keep')
  {
    if |s| > 0 {
      FilterAgreeing(s[1..], keep, keep');
    }
  }
}
