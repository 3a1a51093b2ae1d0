/** Small sequence vocabulary shared by the observation, batching and actor
    models: sums and concatenation peeled from the back (so that running
    prefix sums extend one element at a time), Python's clipped slice, and
    zero-filled tables. */
module Seqs {

  /** Sum of a sequence of naturals. */
  function Sum(xs: seq<nat>): nat
  {
    if |xs| == 0 then 0 else Sum(xs[..|xs| - 1]) + xs[|xs| - 1]
  }

  lemma SumSnoc(xs: seq<nat>, x: nat)
    ensures Sum(xs + [x]) == Sum(xs) + x
  {
    assert (xs + [x])[..|xs|] == xs;
  }

  lemma SumPrefixStep(xs: seq<nat>, i: nat)
    requires i < |xs|
    ensures Sum(xs[..i + 1]) == Sum(xs[..i]) + xs[i]
  {
    assert xs[..i + 1] == xs[..i] + [xs[i]];
    SumSnoc(xs[..i], xs[i]);
  }

  lemma {:induction false} SumAppend(xs: seq<nat>, ys: seq<nat>)
    ensures Sum(xs + ys) == Sum(xs) + Sum(ys)
    decreases |ys|
  {
    if |ys| == 0 {
      assert xs + ys == xs;
    } else {
      var init := ys[..|ys| - 1];
      var last := ys[|ys| - 1];
      assert ys == init + [last];
      assert xs + ys == (xs + init) + [last];
      SumSnoc(xs + init, last);
      SumAppend(xs, init);
      SumSnoc(init, last);
    }
  }

  /** Prefix sums never decrease. */
  lemma {:induction false} SumPrefixMonotone(xs: seq<nat>, i: nat, j: nat)
    requires i <= j <= |xs|
    ensures Sum(xs[..i]) <= Sum(xs[..j])
    decreases j - i
  {
    if i < j {
      SumPrefixStep(xs, j - 1);
      SumPrefixMonotone(xs, i, j - 1);
    }
  }

  /** A prefix sum that stops before the end leaves room for the next element. */
  lemma SumPrefixBound(xs: seq<nat>, i: nat)
    requires i < |xs|
    ensures Sum(xs[..i]) + xs[i] <= Sum(xs)
  {
    SumPrefixStep(xs, i);
    SumPrefixMonotone(xs, i + 1, |xs|);
    assert xs[..|xs|] == xs;
  }

  /** Concatenation of a sequence of sequences. */
  function Concat<T>(xss: seq<seq<T>>): seq<T>
  {
    if |xss| == 0 then [] else Concat(xss[..|xss| - 1]) + xss[|xss| - 1]
  }

  /** The length of every member, in order. */
  function Lengths<T>(xss: seq<seq<T>>): (r: seq<nat>)
    ensures |r| == |xss|
    ensures forall i :: 0 <= i < |xss| ==> r[i] == |xss[i]|
  {
    seq(|xss|, i requires 0 <= i < |xss| => |xss[i]|)
  }

  lemma ConcatSnoc<T>(xss: seq<seq<T>>, xs: seq<T>)
    ensures Concat(xss + [xs]) == Concat(xss) + xs
  {
    assert (xss + [xs])[..|xss|] == xss;
  }

  lemma ConcatCons<T>(xs: seq<T>, xss: seq<seq<T>>)
    ensures Concat([xs] + xss) == xs + Concat(xss)
  {
    ConcatAppend([xs], xss);
    ConcatSnoc([], xs);
    assert [] + [xs] == [xs];
  }

  lemma {:induction false} ConcatAppend<T>(xss: seq<seq<T>>, yss: seq<seq<T>>)
    ensures Concat(xss + yss) == Concat(xss) + Concat(yss)
    decreases |yss|
  {
    if |yss| == 0 {
      assert xss + yss == xss;
    } else {
      var init := yss[..|yss| - 1];
      var last := yss[|yss| - 1];
      assert yss == init + [last];
      assert xss + yss == (xss + init) + [last];
      ConcatSnoc(xss + init, last);
      ConcatAppend(xss, init);
      ConcatSnoc(init, last);
    }
  }

  lemma {:induction false} ConcatLength<T>(xss: seq<seq<T>>)
    ensures |Concat(xss)| == Sum(Lengths(xss))
    decreases |xss|
  {
    if |xss| > 0 {
      var init := xss[..|xss| - 1];
      ConcatLength(init);
      assert Lengths(xss) == Lengths(init) + [|xss[|xss| - 1]|];
      SumSnoc(Lengths(init), |xss[|xss| - 1]|);
    }
  }

  /** Member i of a concatenation occupies the slice between the prefix sums
      of the lengths before and after it. */
  lemma ConcatSlice<T>(xss: seq<seq<T>>, i: nat)
    requires i < |xss|
    ensures Sum(Lengths(xss)[..i]) + |xss[i]| <= |Concat(xss)|
    ensures Concat(xss)[Sum(Lengths(xss)[..i])..Sum(Lengths(xss)[..i]) + |xss[i]|] == xss[i]
  {
    var before := xss[..i];
    var after := xss[i + 1..];
    assert xss == before + [xss[i]] + after;
    ConcatAppend(before + [xss[i]], after);
    ConcatSnoc(before, xss[i]);
    ConcatLength(before);
    assert Lengths(before) == Lengths(xss)[..i];
  }

  /** Entry j of member i sits at Sum(Lengths(xss)[..i]) + j of the
      concatenation. */
  lemma ConcatAt<T>(xss: seq<seq<T>>, i: nat, j: nat)
    requires i < |xss| && j < |xss[i]|
    ensures Sum(Lengths(xss)[..i]) + j < |Concat(xss)|
    ensures Concat(xss)[Sum(Lengths(xss)[..i]) + j] == xss[i][j]
  {
    ConcatSlice(xss, i);
    var start := Sum(Lengths(xss)[..i]);
    assert Concat(xss)[start..start + |xss[i]|][j] == xss[i][j];
  }

  /** n copies of x. */
  function Repeat<T>(x: T, n: nat): (r: seq<T>)
    ensures |r| == n
    ensures forall k :: 0 <= k < n ==> r[k] == x
  {
    seq(n, _ => x)
  }

  /** A rows-by-cols table of zeros (numpy's zeros((rows, cols))). */
  function Zeros(rows: nat, cols: nat): (r: seq<seq<real>>)
    ensures |r| == rows
    ensures forall i :: 0 <= i < rows ==> r[i] == Repeat(0.0, cols)
  {
    Repeat(Repeat(0.0, cols), rows)
  }

  /** Python's s[:k] for a non-negative k: it clips to the length of s. */
  function Take<T>(s: seq<T>, k: nat): (r: seq<T>)
    ensures |r| == if k <= |s| then k else |s|
    ensures r == s[..|r|]
  {
    if k <= |s| then s[..k] else s
  }

  /** Largest element, 0 for the empty sequence. */
  function Max(xs: seq<nat>): nat
  {
    if |xs| == 0 then 0
    else if Max(xs[..|xs| - 1]) < xs[|xs| - 1] then xs[|xs| - 1]
    else Max(xs[..|xs| - 1])
  }

  lemma {:induction false} MaxBounds(xs: seq<nat>)
    ensures forall i :: 0 <= i < |xs| ==> xs[i] <= Max(xs)
    ensures |xs| > 0 ==> exists i :: 0 <= i < |xs| && xs[i] == Max(xs)
    decreases |xs|
  {
    if |xs| > 0 {
      var init := xs[..|xs| - 1];
      MaxBounds(init);
      if Max(init) < xs[|xs| - 1] {
        assert xs[|xs| - 1] == Max(xs);
      } else if |init| > 0 {
        var i :| 0 <= i < |init| && init[i] == Max(init);
        assert xs[i] == Max(xs);
      } else {
        assert xs[0] == Max(xs);
      }
    }
  }
}
