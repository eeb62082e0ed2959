/** Order-preserving filtering of sequences, the shape of Go's
    `found := []T{}; for _, r := range recs { if … { found = append(found, r) } }`. */
module Seqs {

  /** The elements of `s` that satisfy `p`, in the order they appear in `s`. */
  function Filter<T(!new)>(s: seq<T>, p: T -> bool): (r: seq<T>)
    ensures |r| <= |s|
    ensures forall x :: x in r <==> x in s && p(x)
    decreases |s|
  {
    if s == [] then []
    else
      var init := s[..|s| - 1];
      assert s == init + [s[|s| - 1]];
      Filter(init, p) + (if p(s[|s| - 1]) then [s[|s| - 1]] else [])
  }

  /** `a` can be obtained from `b` by deleting elements: same elements, same order. */
  ghost predicate IsSubsequence<T>(a: seq<T>, b: seq<T>)
    decreases |b|
  {
    if b == [] then a == []
    else
      (a != [] && a[|a| - 1] == b[|b| - 1] && IsSubsequence(a[..|a| - 1], b[..|b| - 1]))
      || IsSubsequence(a, b[..|b| - 1])
  }

  /** Filtering one more element appends it or not, as the loop body does. */
  lemma FilterSnoc<T(!new)>(s: seq<T>, x: T, p: T -> bool)
    ensures Filter(s + [x], p) == Filter(s, p) + (if p(x) then [x] else [])
  {
    assert (s + [x])[..|s|] == s;
  }

  lemma {:induction false} FilterIsSubsequence<T(!new)>(s: seq<T>, p: T -> bool)
    ensures IsSubsequence(Filter(s, p), s)
    decreases |s|
  {
    if s != [] {
      var init, last := s[..|s| - 1], s[|s| - 1];
      FilterIsSubsequence(init, p);
      var f := Filter(init, p);
      if p(last) {
        assert Filter(s, p) == f + [last];
        assert (f + [last])[..|f|] == f;
      } else {
        assert Filter(s, p) == f;
      }
    }
  }

  /** Keeping what is kept a second time changes nothing. */
  lemma {:induction false} FilterIdempotent<T(!new)>(s: seq<T>, p: T -> bool)
    ensures Filter(Filter(s, p), p) == Filter(s, p)
    decreases |s|
  {
    if s != [] {
      var init, last := s[..|s| - 1], s[|s| - 1];
      var f := Filter(init, p);
      FilterIdempotent(init, p);
      if p(last) {
        assert Filter(s, p) == f + [last];
        FilterSnoc(f, last, p);
      } else {
        assert Filter(s, p) == f;
      }
    }
  }

  /** A filter that keeps every element returns its input. */
  lemma {:induction false} FilterKeepsAll<T(!new)>(s: seq<T>, p: T -> bool)
    requires forall x :: x in s ==> p(x)
    ensures Filter(s, p) == s
    decreases |s|
  {
    if s != [] {
      var init := s[..|s| - 1];
      assert s == init + [s[|s| - 1]];
      FilterKeepsAll(init, p);
    }
  }

  /** Two filters that agree on every element of `s` select the same subsequence. */
  lemma {:induction false} FilterCongruent<T(!new)>(s: seq<T>, p: T -> bool, q: T -> bool)
    requires forall x :: x in s ==> p(x) == q(x)
    ensures Filter(s, p) == Filter(s, q)
    decreases |s|
  {
    if s != [] {
      var init := s[..|s| - 1];
      assert s == init + [s[|s| - 1]];
      FilterCongruent(init, p, q);
    }
  }

  /** `i` is the one position of `s` whose element satisfies `p`. */
  ghost predicate OnlyIndex<T>(s: seq<T>, p: T -> bool, i: int)
  {
    0 <= i < |s| && p(s[i]) && forall j :: 0 <= j < |s| && p(s[j]) ==> j == i
  }

  /** A filter returns exactly one element iff exactly one position qualifies,
      and that element is the one at that position. */
  lemma {:induction false} FilterSingleton<T(!new)>(s: seq<T>, p: T -> bool)
    ensures |Filter(s, p)| == 1 <==> exists i :: OnlyIndex(s, p, i)
    ensures forall i :: OnlyIndex(s, p, i) ==> Filter(s, p) == [s[i]]
    decreases |s|
  {
    if s != [] {
      var n := |s| - 1;
      var init, last := s[..n], s[n];
      assert s == init + [last];
      FilterSingleton(init, p);
      forall i | OnlyIndex(s, p, i) && i < n
        ensures OnlyIndex(init, p, i)
      {
        assert init[i] == s[i];
        forall j | 0 <= j < n && p(init[j]) ensures j == i {
          assert s[j] == init[j];
        }
      }
      if p(last) {
        if Filter(init, p) != [] {
          var x := Filter(init, p)[0];
          assert x in init;
          var j :| 0 <= j < n && init[j] == x;
          forall i | 0 <= i < |s| ensures !OnlyIndex(s, p, i) {
            assert p(s[j]) && p(s[n]) && j != n;
          }
        } else {
          forall j | 0 <= j < n ensures !p(s[j]) {
            assert s[j] == init[j];
          }
          assert OnlyIndex(s, p, n);
        }
      } else {
        forall i | OnlyIndex(init, p, i) ensures OnlyIndex(s, p, i) {
          assert s[i] == init[i];
          forall j | 0 <= j < |s| && p(s[j]) ensures j == i {
            if j < n { assert s[j] == init[j]; }
          }
        }
      }
    }
  }
}
