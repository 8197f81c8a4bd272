/** Facts about sequences shared by several parts of the storefront. */
module Seqs {
  /** `r` is `s` with some elements left out, the rest kept in order. */
  predicate IsSubsequence<T(==)>(r: seq<T>, s: seq<T>)
    decreases |s|
  {
    r == [] || (s != [] && ((r[0] == s[0] && IsSubsequence(r[1..], s[1..])) || IsSubsequence(r, s[1..])))
  }

  /** A subsequence stays one when an element is added to the end of the sequence, with or without adding it to the subsequence. */
  lemma {:induction false} SubsequenceSnoc<T>(r: seq<T>, s: seq<T>, x: T)
    requires IsSubsequence(r, s)
    ensures IsSubsequence(r, s + [x]) && IsSubsequence(r + [x], s + [x])
    decreases |s|
  {
    if s == [] {
      assert r == [];
      assert IsSubsequence(([] + [x])[1..], ([] + [x])[1..]);
    } else {
      assert (s + [x])[1..] == s[1..] + [x];
      if r == [] {
        SubsequenceSnoc(r, s[1..], x);
        assert r + [x] == [x];
      } else {
        assert (r + [x])[1..] == r[1..] + [x];
        if r[0] == s[0] && IsSubsequence(r[1..], s[1..]) {
          SubsequenceSnoc(r[1..], s[1..], x);
        } else {
          SubsequenceSnoc(r, s[1..], x);
        }
      }
    }
  }

  /** Reversal, as `[...xs].reverse()`. */
  function Reverse<T>(xs: seq<T>): (r: seq<T>)
    ensures |r| == |xs|
    ensures forall i :: 0 <= i < |xs| ==> r[i] == xs[|xs| - 1 - i]
  {
    if xs == [] then [] else Reverse(xs[1..]) + [xs[0]]
  }

  /** Reversing twice gives the sequence back. */
  lemma ReverseReverse<T>(xs: seq<T>)
    ensures Reverse(Reverse(xs)) == xs
  {
    var r := Reverse(xs);
    assert forall i :: 0 <= i < |xs| ==> Reverse(r)[i] == xs[i];
  }

  /** The position of the first occurrence of `x` in `xs`. */
  function FirstIndex<T(==)>(xs: seq<T>, x: T): (i: nat)
    requires x in xs
    ensures i < |xs| && xs[i] == x && x !in xs[..i]
  {
    if xs[0] == x then 0
    else
      var i := FirstIndex(xs[1..], x) + 1;
      assert xs[..i] == [xs[0]] + xs[1..][..i - 1];
      i
  }

  /** Appending elements does not move a first occurrence. */
  lemma FirstIndexAppend<T>(xs: seq<T>, ys: seq<T>, x: T)
    requires x in xs
    ensures x in xs + ys && FirstIndex(xs + ys, x) == FirstIndex(xs, x)
  {
    assert (xs + ys)[..FirstIndex(xs, x)] == xs[..FirstIndex(xs, x)];
    FirstIndexUnique(xs + ys, x, FirstIndex(xs, x));
  }

  /** A position holding `x` with no `x` before it is the first occurrence. */
  lemma {:induction false} FirstIndexUnique<T>(xs: seq<T>, x: T, k: nat)
    requires k < |xs| && xs[k] == x && x !in xs[..k]
    ensures FirstIndex(xs, x) == k
  {
    if k > 0 {
      assert xs[0] == xs[..k][0];
      assert xs[1..][..k - 1] == xs[..k][1..];
      FirstIndexUnique(xs[1..], x, k - 1);
    }
  }

  /** No element occurs twice. */
  predicate Distinct<T(==)>(xs: seq<T>) {
    forall i, j :: 0 <= i < j < |xs| ==> xs[i] != xs[j]
  }

  /**
   * `Array.from(new Set(xs))`: each element once, at the place of its first
   * occurrence, elements ordered by where they first occur.
   */
  function Dedup<T(==)>(xs: seq<T>): (r: seq<T>)
    ensures forall i :: 0 <= i < |r| ==> r[i] in xs
    ensures forall i :: 0 <= i < |xs| ==> xs[i] in r
    ensures Distinct(r)
    ensures forall i, j :: 0 <= i < j < |r| ==> FirstIndex(xs, r[i]) < FirstIndex(xs, r[j])
  {
    if xs == [] then []
    else
      var r := Dedup(xs[..|xs| - 1]);
      DedupStep(xs, r);
      if xs[|xs| - 1] in xs[..|xs| - 1] then r else r + [xs[|xs| - 1]]
  }

  /** What `Dedup` promises of `r`, for the elements `xs`. */
  /** Dedup keeps exactly the values of its input. */
  lemma DedupMembers<T>(xs: seq<T>)
    ensures forall x :: x in Dedup(xs) <==> x in xs
  {
    var r := Dedup(xs);
    forall x | x in r ensures x in xs {
      var i :| 0 <= i < |r| && r[i] == x;
    }
    forall x | x in xs ensures x in r {
      var i :| 0 <= i < |xs| && xs[i] == x;
    }
  }

  predicate DedupOf<T(==)>(xs: seq<T>, r: seq<T>) {
    && (forall i :: 0 <= i < |r| ==> r[i] in xs)
    && (forall i :: 0 <= i < |xs| ==> xs[i] in r)
    && Distinct(r)
    && (forall i, j :: 0 <= i < j < |r| ==> FirstIndex(xs, r[i]) < FirstIndex(xs, r[j]))
  }

  /** One more element: it is appended exactly when it is new. */
  lemma DedupStep<T>(xs: seq<T>, r: seq<T>)
    requires xs != [] && DedupOf(xs[..|xs| - 1], r)
    ensures DedupOf(xs, if xs[|xs| - 1] in xs[..|xs| - 1] then r else r + [xs[|xs| - 1]])
  {
    var init := xs[..|xs| - 1];
    var last := xs[|xs| - 1];
    assert xs == init + [last];
    forall x | x in init ensures FirstIndex(xs, x) == FirstIndex(init, x) {
      FirstIndexAppend(init, [last], x);
    }
    if last in init {
      DedupKnown(init, last, r);
    } else {
      DedupNew(init, last, r);
    }
  }

  lemma DedupKnown<T>(init: seq<T>, last: T, r: seq<T>)
    requires DedupOf(init, r) && last in init
    requires forall x :: x in init ==> FirstIndex(init + [last], x) == FirstIndex(init, x)
    ensures DedupOf(init + [last], r)
  {
    var xs := init + [last];
    forall i | 0 <= i < |xs| ensures xs[i] in r {
      if i < |init| {
        assert xs[i] == init[i];
      }
    }
  }

  lemma DedupNew<T>(init: seq<T>, last: T, r: seq<T>)
    requires DedupOf(init, r) && last !in init
    requires forall x :: x in init ==> FirstIndex(init + [last], x) == FirstIndex(init, x)
    ensures DedupOf(init + [last], r + [last])
  {
    var xs := init + [last];
    var r' := r + [last];
    assert FirstIndex(xs, last) == |init| by {
      FirstIndexUnique(xs, last, |init|);
      assert xs[..|init|] == init;
    }
    forall i | 0 <= i < |r'| ensures r'[i] in xs && (i < |r| ==> r'[i] == r[i] && r[i] in init) {
    }
    forall i | 0 <= i < |xs| ensures xs[i] in r' {
      if i < |init| {
        assert xs[i] == init[i];
      }
    }
    forall i, j | 0 <= i < j < |r'| ensures r'[i] != r'[j] && FirstIndex(xs, r'[i]) < FirstIndex(xs, r'[j]) {
      if j < |r| {
        assert FirstIndex(init, r[i]) < FirstIndex(init, r[j]);
      } else {
        assert FirstIndex(init, r[i]) < |init|;
      }
    }
  }

  /** `xs.filter(p)`: the elements that pass, in their original order. */
  function Filter<T(==)>(xs: seq<T>, p: T -> bool): (r: seq<T>)
    ensures forall i :: 0 <= i < |r| ==> r[i] in xs && p(r[i])
    ensures forall i :: 0 <= i < |xs| && p(xs[i]) ==> xs[i] in r
    ensures IsSubsequence(r, xs)
  {
    if xs == [] then []
    else if p(xs[0]) then [xs[0]] + Filter(xs[1..], p)
    else Filter(xs[1..], p)
  }

  /** Filtering a concatenation filters each part. */
  lemma {:induction false} FilterAppend<T>(xs: seq<T>, ys: seq<T>, p: T -> bool)
    ensures Filter(xs + ys, p) == Filter(xs, p) + Filter(ys, p)
  {
    if xs == [] {
      assert xs + ys == ys;
    } else {
      assert (xs + ys)[0] == xs[0];
      assert (xs + ys)[1..] == xs[1..] + ys;
      FilterAppend(xs[1..], ys, p);
    }
  }
}
