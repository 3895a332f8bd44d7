/** Order-preserving selection from sequences, and what pins it down. */
module Seqs {

  predicate Distinct<T(==)>(xs: seq<T>) {
    forall i, j :: 0 <= i < j < |xs| ==> xs[i] != xs[j]
  }

  /** `s` can be obtained from `xs` by deleting elements, keeping the order of the rest. */
  predicate IsSubseq<T(==)>(s: seq<T>, xs: seq<T>)
    decreases |xs|
  {
    if |s| == 0 then true
    else if |xs| == 0 then false
    else (s[0] == xs[0] && IsSubseq(s[1..], xs[1..])) || IsSubseq(s, xs[1..])
  }

  /** The elements of `xs` that `keep` accepts, in their original order. */
  function Filter<T(!new)>(xs: seq<T>, keep: T -> bool): (r: seq<T>)
    ensures forall x :: x in r <==> x in xs && keep(x)
    ensures IsSubseq(r, xs)
  {
    if |xs| == 0 then []
    else
      var rest := Filter(xs[1..], keep);
      assert forall x :: x in xs <==> x == xs[0] || x in xs[1..];
      if keep(xs[0]) then
        assert ([xs[0]] + rest)[1..] == rest;
        [xs[0]] + rest
      else rest
  }

  /** A subsequence holds nothing its source does not. */
  lemma {:induction false} SubseqMembers<T>(s: seq<T>, xs: seq<T>, x: T)
    requires IsSubseq(s, xs) && x in s
    ensures x in xs
    decreases |xs|
  {
    if s[0] == xs[0] && IsSubseq(s[1..], xs[1..]) {
      if x != s[0] {
        assert x in s[1..];
        SubseqMembers(s[1..], xs[1..], x);
      }
    } else {
      SubseqMembers(s, xs[1..], x);
    }
  }

  /** A subsequence of a repetition-free sequence repeats nothing either. */
  lemma {:induction false} SubseqDistinct<T>(s: seq<T>, xs: seq<T>)
    requires IsSubseq(s, xs) && Distinct(xs)
    ensures Distinct(s)
    decreases |xs|
  {
    if |s| > 0 {
      assert Distinct(xs[1..]);
      if s[0] == xs[0] && IsSubseq(s[1..], xs[1..]) {
        SubseqDistinct(s[1..], xs[1..]);
        forall j | 0 < j < |s| ensures s[0] != s[j] {
          assert s[j] in s[1..];
          SubseqMembers(s[1..], xs[1..], s[j]);
        }
      } else {
        SubseqDistinct(s, xs[1..]);
      }
    }
  }

  /**
   * When `xs` repeats nothing, `Filter` is the ONLY subsequence of `xs` holding
   * exactly the accepted elements: membership and order determine the result.
   */
  lemma {:induction false} FilterUnique<T(!new)>(s: seq<T>, xs: seq<T>, keep: T -> bool)
    requires Distinct(xs) && IsSubseq(s, xs)
    requires forall x :: x in s <==> x in xs && keep(x)
    ensures s == Filter(xs, keep)
    decreases |xs|
  {
    if |xs| > 0 {
      var x, rest := xs[0], xs[1..];
      assert Distinct(rest);
      assert x !in rest;
      if |s| > 0 && s[0] == x && IsSubseq(s[1..], rest) {
        forall y ensures y in s[1..] <==> y in rest && keep(y) {
          if y in s[1..] {
            SubseqMembers(s[1..], rest, y);
          }
          if y in rest && keep(y) {
            assert y in s && y != x;
          }
        }
        FilterUnique(s[1..], rest, keep);
        assert s == [x] + s[1..];
      } else if |s| > 0 {
        assert IsSubseq(s, rest);
        if keep(x) {
          assert x in s;
          SubseqMembers(s, rest, x);
        }
        forall y ensures y in s <==> y in rest && keep(y) {
          if y in s {
            SubseqMembers(s, rest, y);
          }
        }
        FilterUnique(s, rest, keep);
      } else {
        assert !keep(x);
        forall y ensures y in s <==> y in rest && keep(y) {
        }
        FilterUnique(s, rest, keep);
      }
    }
  }
}
