/**
  Order-preserving filtering of a sequence, the operation behind both the
  tenant filter of the active-tracker cache and the capability filter of
  every fan-out. `Filter` is defined from the back, the way a loop that
  appends to a result builds it; `Selected` gives the positions it keeps,
  which characterizes the result as a subsequence.
 */
module Subsequence {

  /** The elements of `s` that satisfy `p`, in their order in `s`. */
  function Filter<T>(s: seq<T>, p: T -> bool): (r: seq<T>)
    ensures |r| <= |s|
    ensures |r| == |s| ==> r == s
  {
    if s == [] then []
    else Filter(s[..|s| - 1], p) + (if p(s[|s| - 1]) then [s[|s| - 1]] else [])
  }

  /** The positions of the elements of `s` that satisfy `p`, ascending. */
  function Selected<T>(s: seq<T>, p: T -> bool): seq<nat>
  {
    if s == [] then []
    else Selected(s[..|s| - 1], p) + (if p(s[|s| - 1]) then [|s| - 1] else [])
  }

  /** Extending the input by one element extends the result by that element if it passes. */
  lemma FilterSnoc<T>(s: seq<T>, x: T, p: T -> bool)
    ensures Filter(s + [x], p) == Filter(s, p) + (if p(x) then [x] else [])
  {
    assert (s + [x])[..|s + [x]| - 1] == s;
  }

  /** An element is kept exactly when it occurs in the input and passes. */
  lemma {:induction false} FilterMembership<T>(s: seq<T>, p: T -> bool, x: T)
    ensures x in Filter(s, p) <==> x in s && p(x)
  {
    if s != [] {
      var init, last := s[..|s| - 1], s[|s| - 1];
      assert s == init + [last];
      FilterMembership(init, p, x);
    }
  }

  /** Everything kept occurs in the input and passes. */
  lemma FilterPasses<T>(s: seq<T>, p: T -> bool)
    ensures forall x :: x in Filter(s, p) ==> x in s && p(x)
  {
    forall x | x in Filter(s, p) {
      FilterMembership(s, p, x);
    }
  }

  /** Filtering distributes over concatenation: the order of the input is kept. */
  lemma {:induction false} FilterAppend<T>(s: seq<T>, t: seq<T>, p: T -> bool)
    ensures Filter(s + t, p) == Filter(s, p) + Filter(t, p)
    decreases |t|
  {
    if t == [] {
      assert s + t == s;
    } else {
      var init, last := t[..|t| - 1], t[|t| - 1];
      assert t == init + [last];
      assert s + t == (s + init) + [last];
      FilterSnoc(s + init, last, p);
      FilterSnoc(init, last, p);
      FilterAppend(s, init, p);
    }
  }

  /** When every element passes, nothing is dropped. */
  lemma {:induction false} FilterKeepsAll<T>(s: seq<T>, p: T -> bool)
    requires forall i :: 0 <= i < |s| ==> p(s[i])
    ensures Filter(s, p) == s
  {
    if s != [] {
      var init := s[..|s| - 1];
      assert s == init + [s[|s| - 1]];
      FilterKeepsAll(init, p);
    }
  }

  /** When no element passes, the result is empty. */
  lemma {:induction false} FilterDropsAll<T>(s: seq<T>, p: T -> bool)
    requires forall i :: 0 <= i < |s| ==> !p(s[i])
    ensures Filter(s, p) == []
  {
    if s != [] {
      FilterDropsAll(s[..|s| - 1], p);
    }
  }

  /** No duplication: each passing value occurs as often as in the input, any other value never. */
  lemma {:induction false} FilterMultiplicity<T>(s: seq<T>, p: T -> bool, x: T)
    ensures multiset(Filter(s, p))[x] == if p(x) then multiset(s)[x] else 0
  {
    if s != [] {
      var init, last := s[..|s| - 1], s[|s| - 1];
      assert s == init + [last];
      FilterMultiplicity(init, p, x);
    }
  }

  /** Filtering twice is filtering once by the conjunction `pq`, in the same order. */
  lemma {:induction false} FilterFilter<T>(s: seq<T>, p: T -> bool, q: T -> bool, pq: T -> bool)
    requires forall x :: pq(x) == (p(x) && q(x))
    ensures Filter(Filter(s, p), q) == Filter(s, pq)
  {
    if s != [] {
      var init, last := s[..|s| - 1], s[|s| - 1];
      FilterFilter(init, p, q, pq);
      assert pq(last) == (p(last) && q(last));
      assert Filter(s, p) == Filter(init, p) + (if p(last) then [last] else []);
      if p(last) {
        FilterSnoc(Filter(init, p), last, q);
      } else {
        assert Filter(s, p) == Filter(init, p);
      }
    }
  }

  /**
    `Filter(s, p)` is exactly the subsequence of `s` at the ascending positions
    `Selected(s, p)`, and those are all the positions whose element passes.
   */
  lemma {:induction false} FilterIsSubsequence<T>(s: seq<T>, p: T -> bool)
    ensures |Selected(s, p)| == |Filter(s, p)|
    ensures forall j :: 0 <= j < |Selected(s, p)| ==>
              Selected(s, p)[j] < |s| && Filter(s, p)[j] == s[Selected(s, p)[j]]
    ensures forall j, k :: 0 <= j < k < |Selected(s, p)| ==> Selected(s, p)[j] < Selected(s, p)[k]
    ensures forall i :: 0 <= i < |s| ==> (i in Selected(s, p) <==> p(s[i]))
  {
    if s != [] {
      var init, last := s[..|s| - 1], s[|s| - 1];
      FilterIsSubsequence(init, p);
      var oldIdx, idx := Selected(init, p), Selected(s, p);
      var f := Filter(s, p);
      assert idx == oldIdx + (if p(last) then [|s| - 1] else []);
      assert f == Filter(init, p) + (if p(last) then [last] else []);
      forall j | 0 <= j < |idx|
        ensures idx[j] < |s| && f[j] == s[idx[j]]
      {
        if j < |oldIdx| {
          assert idx[j] == oldIdx[j];
          assert s[idx[j]] == init[idx[j]];
        }
      }
      forall i | 0 <= i < |s|
        ensures i in idx <==> p(s[i])
      {
        if i < |s| - 1 {
          assert s[i] == init[i];
          assert i in oldIdx <==> i in idx;
        }
      }
    }
  }
}
