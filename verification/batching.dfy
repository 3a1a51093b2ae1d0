/** Index bookkeeping of `RTGNBatch.forward` (rtgn_batch_test.py): several
    molecule graphs are merged into one batch whose nodes are numbered
    consecutively, graph after graph. Each graph's torsion atom lists are
    shifted by the number of nodes of the graphs before it, every torsion is
    tagged with the graph it came from, and the number of torsions per graph
    is recorded so that per-torsion outputs can later be split back.

    Tensors are sequences; each observation contributes exactly one graph. */
module Batching {
  import opened Seqs

  /** One observation: the graph's node count and its torsions, each a list
      of atom indices local to that graph. */
  datatype GraphObs = GraphObs(numNodes: nat, torsions: seq<seq<int>>)

  /** Node count of every graph, in batch order. */
  function NodeCounts(obs: seq<GraphObs>): (r: seq<nat>)
    ensures |r| == |obs|
    ensures forall i :: 0 <= i < |obs| ==> r[i] == obs[i].numNodes
  {
    seq(|obs|, i requires 0 <= i < |obs| => obs[i].numNodes)
  }

  /** torsion_list_sizes: the torsion count of every graph. */
  function TorsionCounts(obs: seq<GraphObs>): (r: seq<nat>)
    ensures |r| == |obs|
    ensures forall i :: 0 <= i < |obs| ==> r[i] == |obs[i].torsions|
  {
    seq(|obs|, i requires 0 <= i < |obs| => |obs[i].torsions|)
  }

  /** First batch node of graph i: the nodes of graphs 0..i-1. */
  function Offset(obs: seq<GraphObs>, i: nat): nat
    requires i <= |obs|
  {
    Sum(NodeCounts(obs)[..i])
  }

  /** Adds d to every atom index of a torsion (`nr_list[i] += so_far`). */
  function ShiftRow(t: seq<int>, d: int): (r: seq<int>)
    ensures |r| == |t|
    ensures forall j :: 0 <= j < |t| ==> r[j] - d == t[j]
  {
    seq(|t|, j requires 0 <= j < |t| => t[j] + d)
  }

  function ShiftRows(ts: seq<seq<int>>, d: int): (r: seq<seq<int>>)
    ensures |r| == |ts|
    ensures forall j :: 0 <= j < |ts| ==> r[j] == ShiftRow(ts[j], d)
  {
    seq(|ts|, j requires 0 <= j < |ts| => ShiftRow(ts[j], d))
  }

  /** nr_list after the loop: graph i's torsions shifted by its offset. */
  function ShiftedLists(obs: seq<GraphObs>): (r: seq<seq<seq<int>>>)
    ensures |r| == |obs|
    ensures forall i :: 0 <= i < |obs| ==> r[i] == ShiftRows(obs[i].torsions, Offset(obs, i))
  {
    seq(|obs|, i requires 0 <= i < |obs| => ShiftRows(obs[i].torsions, Offset(obs, i)))
  }

  /** torsion_batch_idx: sizes[i] copies of i, for every i in order. */
  function Tags(sizes: seq<nat>): seq<nat>
  {
    if |sizes| == 0 then []
    else Tags(sizes[..|sizes| - 1]) + Repeat(|sizes| - 1, sizes[|sizes| - 1])
  }

  lemma TagsSnoc(sizes: seq<nat>, x: nat)
    ensures Tags(sizes + [x]) == Tags(sizes) + Repeat(|sizes|, x)
  {
    assert (sizes + [x])[..|sizes|] == sizes;
  }

  /** The loop of `forward` over the graphs, with so_far, nr_list,
      torsion_batch_idx and torsion_list_sizes as in the source, followed by
      torch.cat(nr_list). */
  method BatchForward(obs: seq<GraphObs>) returns (nrs: seq<seq<int>>, torsionBatchIdx: seq<nat>, torsionListSizes: seq<nat>)
    ensures nrs == Concat(ShiftedLists(obs))
    ensures torsionListSizes == TorsionCounts(obs)
    ensures torsionBatchIdx == Tags(torsionListSizes)
  {
    var soFar: nat := 0;
    var nrList: seq<seq<seq<int>>> := [];
    torsionBatchIdx := [];
    torsionListSizes := [];
    var i := 0;
    while i < |obs|
      invariant i <= |obs|
      invariant soFar == Offset(obs, i)
      invariant nrList == ShiftedLists(obs)[..i]
      invariant torsionListSizes == TorsionCounts(obs)[..i]
      invariant torsionBatchIdx == Tags(torsionListSizes)
    {
      nrList := nrList + [ShiftRows(obs[i].torsions, soFar)];
      SumPrefixStep(NodeCounts(obs), i);
      soFar := soFar + obs[i].numNodes;
      TagsSnoc(torsionListSizes, |obs[i].torsions|);
      torsionBatchIdx := torsionBatchIdx + Repeat(i, |obs[i].torsions|);
      torsionListSizes := torsionListSizes + [|obs[i].torsions|];
      i := i + 1;
    }
    assert nrList == ShiftedLists(obs);
    assert torsionListSizes == TorsionCounts(obs);
    nrs := Concat(nrList);
  }

  // ---------------------------------------------------------------------
  // Properties of the tags

  lemma {:induction false} TagsLength(sizes: seq<nat>)
    ensures |Tags(sizes)| == Sum(sizes)
    decreases |sizes|
  {
    if |sizes| > 0 {
      TagsLength(sizes[..|sizes| - 1]);
    }
  }

  /** Position k carries tag i exactly when it lies in graph i's block,
      between the torsion counts of graphs 0..i-1 and 0..i. */
  lemma {:induction false} TagsBlock(sizes: seq<nat>, k: nat, i: nat)
    requires k < Sum(sizes)
    ensures k < |Tags(sizes)|
    ensures Tags(sizes)[k] == i <==> i < |sizes| && Sum(sizes[..i]) <= k < Sum(sizes[..i]) + sizes[i]
    decreases |sizes|
  {
    TagsLength(sizes);
    var n := |sizes|;
    var init := sizes[..n - 1];
    var s := Sum(init);
    assert sizes[..n - 1] == init;
    TagsLength(init);
    if k < s {
      TagsBlock(init, k, i);
      assert Tags(sizes)[k] == Tags(init)[k];
      if i < n - 1 {
        assert init[..i] == sizes[..i];
      } else if i == n - 1 {
        assert Sum(sizes[..i]) == s;
      }
    } else {
      assert Tags(sizes)[k] == n - 1;
      assert Sum(sizes[..n - 1]) + sizes[n - 1] == Sum(sizes);
      if i < n - 1 {
        SumPrefixBound(init, i);
        assert init[..i] == sizes[..i];
      }
    }
  }

  /** Every tag names a graph, and the tags never decrease. */
  lemma TagsSorted(sizes: seq<nat>)
    ensures forall k :: 0 <= k < |Tags(sizes)| ==> Tags(sizes)[k] < |sizes|
    ensures forall a, b :: 0 <= a <= b < |Tags(sizes)| ==> Tags(sizes)[a] <= Tags(sizes)[b]
  {
    var tags := Tags(sizes);
    TagsLength(sizes);
    forall k | 0 <= k < |tags| ensures tags[k] < |sizes| {
      TagsBlock(sizes, k, tags[k]);
    }
    forall a, b | 0 <= a <= b < |tags| ensures tags[a] <= tags[b] {
      var i, j := tags[a], tags[b];
      TagsBlock(sizes, a, i);
      TagsBlock(sizes, b, j);
      if j < i {
        SumPrefixStep(sizes, j);
        SumPrefixMonotone(sizes, j + 1, i);
        assert false;
      }
    }
  }

  lemma {:induction false} RepeatCount<T>(x: T, n: nat, y: T)
    ensures multiset(Repeat(x, n))[y] == if y == x then n else 0
    decreases n
  {
    if n > 0 {
      assert Repeat(x, n) == Repeat(x, n - 1) + [x];
      RepeatCount(x, n - 1, y);
    }
  }

  /** Graph i is tagged on exactly sizes[i] torsions; other values never
      occur. */
  lemma {:induction false} TagsCount(sizes: seq<nat>, i: nat)
    ensures multiset(Tags(sizes))[i] == if i < |sizes| then sizes[i] else 0
    decreases |sizes|
  {
    if |sizes| > 0 {
      var n := |sizes|;
      var init := sizes[..n - 1];
      TagsCount(init, i);
      RepeatCount(n - 1, sizes[n - 1], i);
      assert multiset(Tags(sizes)) == multiset(Tags(init)) + multiset(Repeat(n - 1, sizes[n - 1]));
    }
  }

  // ---------------------------------------------------------------------
  // Properties of the shifted torsions

  /** The concatenated torsion list, the tags and the sum of the sizes all
      have the same length. */
  lemma BatchLengths(obs: seq<GraphObs>)
    ensures |Concat(ShiftedLists(obs))| == |Tags(TorsionCounts(obs))| == Sum(TorsionCounts(obs))
  {
    ConcatLength(ShiftedLists(obs));
    assert Lengths(ShiftedLists(obs)) == TorsionCounts(obs);
    TagsLength(TorsionCounts(obs));
  }

  /** Row t of the concatenated torsions is torsion t - start of graph
      torsion_batch_idx[t] (start being the first row of that graph),
      shifted by that graph's node offset. */
  lemma RowsFollowTags(obs: seq<GraphObs>, t: nat)
    requires t < Sum(TorsionCounts(obs))
    ensures var sizes, nrs, tags := TorsionCounts(obs), Concat(ShiftedLists(obs)), Tags(TorsionCounts(obs));
      && t < |nrs| && t < |tags|
      && var i := tags[t];
         && i < |obs|
         && Sum(sizes[..i]) <= t
         && t - Sum(sizes[..i]) < |obs[i].torsions|
         && nrs[t] == ShiftRow(obs[i].torsions[t - Sum(sizes[..i])], Offset(obs, i))
  {
    var sizes, lists := TorsionCounts(obs), ShiftedLists(obs);
    BatchLengths(obs);
    var i := Tags(sizes)[t];
    TagsBlock(sizes, t, i);
    assert Lengths(lists) == sizes;
    ConcatAt(lists, i, t - Sum(sizes[..i]));
  }

  /** The inverse of the shift: subtracting the offset recovers the
      graph-local atom indices. */
  lemma UnshiftRow(t: seq<int>, d: int)
    ensures ShiftRow(ShiftRow(t, d), -d) == t
  {
  }

  /** Graph i's nodes occupy [Offset(i), Offset(i) + numNodes) of the batch;
      these blocks follow each other without gaps and fill the batch. */
  lemma OffsetBlocks(obs: seq<GraphObs>, i: nat)
    requires i < |obs|
    ensures Offset(obs, i) + obs[i].numNodes == Offset(obs, i + 1)
    ensures Offset(obs, i + 1) <= Offset(obs, |obs|) == Sum(NodeCounts(obs))
    ensures forall j :: i < j <= |obs| ==> Offset(obs, i + 1) <= Offset(obs, j)
  {
    SumPrefixStep(NodeCounts(obs), i);
    assert NodeCounts(obs)[..|obs|] == NodeCounts(obs);
    forall j | i < j <= |obs| ensures Offset(obs, i + 1) <= Offset(obs, j) {
      SumPrefixMonotone(NodeCounts(obs), i + 1, j);
    }
  }

  /** A torsion whose atoms are valid nodes of graph i lands, after the
      shift, inside graph i's block of batch nodes, and so inside no other
      graph's block. */
  lemma ShiftIntoBlock(obs: seq<GraphObs>, i: nat, t: seq<int>)
    requires i < |obs|
    requires forall a :: 0 <= a < |t| ==> 0 <= t[a] < obs[i].numNodes
    ensures forall a :: 0 <= a < |t| ==>
      Offset(obs, i) <= ShiftRow(t, Offset(obs, i))[a] < Offset(obs, i + 1)
    ensures forall a, j :: 0 <= a < |t| && 0 <= j < |obs| && j != i ==>
      !(Offset(obs, j) <= ShiftRow(t, Offset(obs, i))[a] < Offset(obs, j + 1))
  {
    OffsetBlocks(obs, i);
    var r := ShiftRow(t, Offset(obs, i));
    forall a, j | 0 <= a < |t| && 0 <= j < |obs| && j != i
      ensures !(Offset(obs, j) <= r[a] < Offset(obs, j + 1))
    {
      OffsetBlocks(obs, j);
    }
  }
}
