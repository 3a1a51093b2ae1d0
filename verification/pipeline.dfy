/** The batched actor from end to end, without its layers: the bookkeeping
    of `RTGNBatch.forward` feeds the gathers, the split and the padding of
    `ActorBatchNet.forward`. The memory output (one row per graph), the
    node features (one row per batch node) and the per-torsion head (lin1,
    relu, lin2, applied row by row) are parameters. The result is that
    every graph gets its own torsions' logits, in order, computed from its
    own memory row and from the node rows of its own atoms. */
module Pipeline {
  import opened Seqs
  import opened Outcomes
  import opened Batching
  import opened Actor

  /** The inputs of the head in `ActorBatchNet.forward`: per torsion, the
      memory row of its graph followed by the node rows of its four atoms;
      torch.cat along dimension 1 needs as many rows on both sides. */
  function TorsionInputs(lstmOut: seq<seq<real>>, out: seq<seq<real>>, nonring: seq<seq<int>>,
                         torsionBatchIdx: seq<int>, dim: nat): Option<seq<seq<real>>>
    requires dim > 0
  {
    match MemoryRows(lstmOut, torsionBatchIdx)
    case None => None
    case Some(memory) =>
      match TorsionRows(out, nonring, dim)
      case None => None
      case Some(features) =>
        if |memory| != |features| then None
        else Some(seq(|memory|, t requires 0 <= t < |memory| => memory[t] + features[t]))
  }

  /** The end of `ActorBatchNet.forward`: the head on every input row, the
      split by the torsion counts and the padding with zero rows of width
      actionDim. */
  function ActorLogits(lstmOut: seq<seq<real>>, out: seq<seq<real>>, nonring: seq<seq<int>>,
                       torsionBatchIdx: seq<int>, torsionListSizes: seq<nat>, dim: nat,
                       actionDim: nat, head: seq<real> -> seq<real>): Option<seq<seq<seq<real>>>>
    requires dim > 0
  {
    match TorsionInputs(lstmOut, out, nonring, torsionBatchIdx, dim)
    case None => None
    case Some(inputs) =>
      var logits := seq(|inputs|, t requires 0 <= t < |inputs| => head(inputs[t]));
      match Split(logits, torsionListSizes)
      case None => None
      case Some(pieces) => Pad(pieces, Repeat(0.0, actionDim))
  }

  /** The torsion inputs of a batch built by BatchForward from obs. */
  function BatchedInputs(obs: seq<GraphObs>, lstmOut: seq<seq<real>>, out: seq<seq<real>>, dim: nat): Option<seq<seq<real>>>
    requires dim > 0
  {
    TorsionInputs(lstmOut, out, Concat(ShiftedLists(obs)), Tags(TorsionCounts(obs)), dim)
  }

  /** Every torsion of graph i names four valid nodes of graph i. */
  predicate WellFormed(obs: seq<GraphObs>)
  {
    forall i, j :: 0 <= i < |obs| && 0 <= j < |obs[i].torsions| ==>
      FourAtoms(obs[i].torsions[j], obs[i].numNodes)
  }

  /** The input row of torsion j of graph i: the graph's memory row and the
      node rows of the torsion's atoms, renumbered into the batch. */
  function InputRow(obs: seq<GraphObs>, lstmOut: seq<seq<real>>, out: seq<seq<real>>, i: nat, j: nat): seq<real>
    requires WellFormed(obs) && i < |obs| && j < |obs[i].torsions|
    requires |lstmOut| == |obs| && |out| == Sum(NodeCounts(obs))
  {
    BatchedAtoms(obs, i, j);
    lstmOut[i] + Quartet(out, ShiftRow(obs[i].torsions[j], Offset(obs, i)))
  }

  /** A torsion of graph i naming four of its nodes names, once shifted,
      four nodes of the batch. */
  lemma {:induction false} BatchedAtoms(obs: seq<GraphObs>, i: nat, j: nat)
    requires i < |obs| && j < |obs[i].torsions|
    requires FourAtoms(obs[i].torsions[j], obs[i].numNodes)
    ensures FourAtoms(ShiftRow(obs[i].torsions[j], Offset(obs, i)), Sum(NodeCounts(obs)))
  {
    ShiftIntoBlock(obs, i, obs[i].torsions[j]);
    OffsetBlocks(obs, i);
  }

  /** Torsion j of graph i sits at row Sum(sizes[..i]) + j of the batch,
      tagged with i and shifted by graph i's node offset. */
  lemma {:induction false} TorsionPosition(obs: seq<GraphObs>, i: nat, j: nat)
    requires i < |obs| && j < |obs[i].torsions|
    ensures var sizes, nrs, tags := TorsionCounts(obs), Concat(ShiftedLists(obs)), Tags(TorsionCounts(obs));
      var t := Sum(sizes[..i]) + j;
      && t < |nrs| && t < |tags|
      && tags[t] == i
      && nrs[t] == ShiftRow(obs[i].torsions[j], Offset(obs, i))
  {
    var sizes := TorsionCounts(obs);
    var t := Sum(sizes[..i]) + j;
    SumPrefixBound(sizes, i);
    TagsBlock(sizes, t, i);
    RowsFollowTags(obs, t);
  }

  /** Row t of the batched torsions belongs to a graph of the batch and
      names four batch nodes. */
  lemma {:induction false} BatchedRow(obs: seq<GraphObs>, t: nat)
    requires WellFormed(obs)
    requires t < Sum(TorsionCounts(obs))
    ensures var nrs, tags := Concat(ShiftedLists(obs)), Tags(TorsionCounts(obs));
      && t < |nrs| && t < |tags| && tags[t] < |obs|
      && FourAtoms(nrs[t], Sum(NodeCounts(obs)))
  {
    RowsFollowTags(obs, t);
    var sizes := TorsionCounts(obs);
    var i := Tags(sizes)[t];
    var j := t - Sum(sizes[..i]);
    assert FourAtoms(obs[i].torsions[j], obs[i].numNodes);
    BatchedAtoms(obs, i, j);
  }

  /** Every batched row is tagged with a graph of the batch and names four
      batch nodes. */
  lemma {:induction false} BatchedRows(obs: seq<GraphObs>)
    requires WellFormed(obs)
    ensures var nrs, tags := Concat(ShiftedLists(obs)), Tags(TorsionCounts(obs));
      && |nrs| == |tags| == Sum(TorsionCounts(obs))
      && forall t :: 0 <= t < |nrs| ==>
           |nrs[t]| == 4 && tags[t] < |obs| && FourAtoms(nrs[t], Sum(NodeCounts(obs)))
  {
    BatchLengths(obs);
    forall t | 0 <= t < Sum(TorsionCounts(obs))
      ensures var nrs, tags := Concat(ShiftedLists(obs)), Tags(TorsionCounts(obs));
        t < |nrs| && t < |tags| && |nrs[t]| == 4 && tags[t] < |obs| && FourAtoms(nrs[t], Sum(NodeCounts(obs)))
    {
      BatchedRow(obs, t);
    }
  }

  /** For well-formed observations, one memory row per graph and one node
      row of width dim per batch node, both gathers succeed and input row t
      is the memory row of graph tags[t] followed by the node rows of the
      atoms of batched torsion t. */
  lemma {:induction false} InputsExist(obs: seq<GraphObs>, lstmOut: seq<seq<real>>, out: seq<seq<real>>, dim: nat)
    requires dim > 0 && WellFormed(obs)
    requires |lstmOut| == |obs|
    requires |out| == Sum(NodeCounts(obs)) && forall v :: 0 <= v < |out| ==> |out[v]| == dim
    ensures var nrs, tags := Concat(ShiftedLists(obs)), Tags(TorsionCounts(obs));
      var r := TorsionInputs(lstmOut, out, nrs, tags, dim);
      && r.Some?
      && |r.value| == |nrs| == |tags| == Sum(TorsionCounts(obs))
      && forall t :: 0 <= t < |r.value| ==>
           tags[t] < |lstmOut| && FourAtoms(nrs[t], |out|)
           && r.value[t] == lstmOut[tags[t]] + Quartet(out, nrs[t])
  {
    var nrs := Concat(ShiftedLists(obs));
    BatchedRows(obs);
    TorsionRowsSome(out, nrs, dim);
  }

  /** One position of BatchInputs. */
  lemma {:induction false} InputAt(obs: seq<GraphObs>, lstmOut: seq<seq<real>>, out: seq<seq<real>>, dim: nat, i: nat, j: nat)
    requires dim > 0 && WellFormed(obs)
    requires |lstmOut| == |obs|
    requires |out| == Sum(NodeCounts(obs)) && forall v :: 0 <= v < |out| ==> |out[v]| == dim
    requires i < |obs| && j < |obs[i].torsions|
    ensures var r := BatchedInputs(obs, lstmOut, out, dim);
      r.Some? && Sum(TorsionCounts(obs)[..i]) + j < |r.value|
      && r.value[Sum(TorsionCounts(obs)[..i]) + j] == InputRow(obs, lstmOut, out, i, j)
  {
    InputsExist(obs, lstmOut, out, dim);
    TorsionPosition(obs, i, j);
  }

  /** The gathers succeed and give one input row per batched torsion. */
  lemma {:induction false} InputsDefined(obs: seq<GraphObs>, lstmOut: seq<seq<real>>, out: seq<seq<real>>, dim: nat)
    requires dim > 0 && WellFormed(obs)
    requires |lstmOut| == |obs|
    requires |out| == Sum(NodeCounts(obs)) && forall v :: 0 <= v < |out| ==> |out[v]| == dim
    ensures BatchedInputs(obs, lstmOut, out, dim).Some?
    ensures |BatchedInputs(obs, lstmOut, out, dim).value| == Sum(TorsionCounts(obs))
  {
    InputsExist(obs, lstmOut, out, dim);
  }

  /** The input row at position Sum(sizes[..i]) + j is that of torsion j of
      graph i: no torsion is paired with another graph's memory or nodes. */
  lemma {:induction false} BatchInputs(obs: seq<GraphObs>, lstmOut: seq<seq<real>>, out: seq<seq<real>>, dim: nat)
    requires dim > 0 && WellFormed(obs)
    requires |lstmOut| == |obs|
    requires |out| == Sum(NodeCounts(obs)) && forall v :: 0 <= v < |out| ==> |out[v]| == dim
    ensures BatchedInputs(obs, lstmOut, out, dim).Some?
    ensures |BatchedInputs(obs, lstmOut, out, dim).value| == Sum(TorsionCounts(obs))
    ensures forall i, j :: 0 <= i < |obs| && 0 <= j < |obs[i].torsions| ==>
      var r := BatchedInputs(obs, lstmOut, out, dim).value;
      Sum(TorsionCounts(obs)[..i]) + j < |r| && r[Sum(TorsionCounts(obs)[..i]) + j] == InputRow(obs, lstmOut, out, i, j)
  {
    InputsDefined(obs, lstmOut, out, dim);
    forall i, j | 0 <= i < |obs| && 0 <= j < |obs[i].torsions|
      ensures var r := BatchedInputs(obs, lstmOut, out, dim).value;
        Sum(TorsionCounts(obs)[..i]) + j < |r| && r[Sum(TorsionCounts(obs)[..i]) + j] == InputRow(obs, lstmOut, out, i, j)
    {
      InputAt(obs, lstmOut, out, dim, i, j);
    }
  }

  /** The actor's output for a batch built by BatchForward from obs. */
  function BatchedLogits(obs: seq<GraphObs>, lstmOut: seq<seq<real>>, out: seq<seq<real>>,
                         dim: nat, actionDim: nat, head: seq<real> -> seq<real>): Option<seq<seq<seq<real>>>>
    requires dim > 0
  {
    ActorLogits(lstmOut, out, Concat(ShiftedLists(obs)), Tags(TorsionCounts(obs)), TorsionCounts(obs), dim, actionDim, head)
  }

  /** The head applied to every input row of the batch. */
  function HeadRows(inputs: seq<seq<real>>, head: seq<real> -> seq<real>): (r: seq<seq<real>>)
    ensures |r| == |inputs| && forall t :: 0 <= t < |inputs| ==> r[t] == head(inputs[t])
  {
    seq(|inputs|, t requires 0 <= t < |inputs| => head(inputs[t]))
  }

  /** The actor's output is the padded split of the head rows. */
  lemma {:induction false} LogitsArePadded(obs: seq<GraphObs>, lstmOut: seq<seq<real>>, out: seq<seq<real>>,
                                           dim: nat, actionDim: nat, head: seq<real> -> seq<real>)
    requires dim > 0 && |obs| > 0 && WellFormed(obs)
    requires |lstmOut| == |obs|
    requires |out| == Sum(NodeCounts(obs)) && forall v :: 0 <= v < |out| ==> |out[v]| == dim
    ensures BatchedInputs(obs, lstmOut, out, dim).Some?
    ensures var logits := HeadRows(BatchedInputs(obs, lstmOut, out, dim).value, head);
      && Sum(TorsionCounts(obs)) == |logits|
      && Split(logits, TorsionCounts(obs)).Some?
      && Pad(Split(logits, TorsionCounts(obs)).value, Repeat(0.0, actionDim)).Some?
      && BatchedLogits(obs, lstmOut, out, dim, actionDim, head)
         == Pad(Split(logits, TorsionCounts(obs)).value, Repeat(0.0, actionDim))
  {
    InputsDefined(obs, lstmOut, out, dim);
    var logits := HeadRows(BatchedInputs(obs, lstmOut, out, dim).value, head);
    PaddedPieces(logits, TorsionCounts(obs), Repeat(0.0, actionDim));
    assert logits == seq(|logits|, t requires 0 <= t < |logits| => head(BatchedInputs(obs, lstmOut, out, dim).value[t]));
  }

  /** Entry j of graph i's padded logits, for j below its torsion count. */
  lemma {:induction false} LogitAt(obs: seq<GraphObs>, lstmOut: seq<seq<real>>, out: seq<seq<real>>,
                                   dim: nat, actionDim: nat, head: seq<real> -> seq<real>, i: nat, j: nat)
    requires dim > 0 && |obs| > 0 && WellFormed(obs)
    requires |lstmOut| == |obs|
    requires |out| == Sum(NodeCounts(obs)) && forall v :: 0 <= v < |out| ==> |out[v]| == dim
    requires i < |obs| && j < |obs[i].torsions|
    ensures var r := BatchedLogits(obs, lstmOut, out, dim, actionDim, head);
      r.Some? && i < |r.value| && j < |r.value[i]| && r.value[i][j] == head(InputRow(obs, lstmOut, out, i, j))
  {
    LogitsArePadded(obs, lstmOut, out, dim, actionDim, head);
    InputAt(obs, lstmOut, out, dim, i, j);
    var logits := HeadRows(BatchedInputs(obs, lstmOut, out, dim).value, head);
    PaddedEntry(logits, TorsionCounts(obs), Repeat(0.0, actionDim), i, j);
  }

  /** With the same inputs, the actor produces one padded row per graph;
      its first |torsions| entries are the head applied to that graph's
      torsions' input rows, in order, and the rest are zero rows. */
  lemma {:induction false} ActorLogitsPerGraph(obs: seq<GraphObs>, lstmOut: seq<seq<real>>, out: seq<seq<real>>,
                                               dim: nat, actionDim: nat, head: seq<real> -> seq<real>)
    requires dim > 0 && |obs| > 0 && WellFormed(obs)
    requires |lstmOut| == |obs|
    requires |out| == Sum(NodeCounts(obs)) && forall v :: 0 <= v < |out| ==> |out[v]| == dim
    ensures BatchedLogits(obs, lstmOut, out, dim, actionDim, head).Some?
    ensures |BatchedLogits(obs, lstmOut, out, dim, actionDim, head).value| == |obs|
    ensures forall i :: 0 <= i < |obs| ==> |obs[i].torsions| <= |BatchedLogits(obs, lstmOut, out, dim, actionDim, head).value[i]|
    ensures forall i, j :: 0 <= i < |obs| && 0 <= j < |obs[i].torsions| ==>
      BatchedLogits(obs, lstmOut, out, dim, actionDim, head).value[i][j] == head(InputRow(obs, lstmOut, out, i, j))
    ensures forall i, j :: 0 <= i < |obs| && |obs[i].torsions| <= j < |BatchedLogits(obs, lstmOut, out, dim, actionDim, head).value[i]| ==>
      BatchedLogits(obs, lstmOut, out, dim, actionDim, head).value[i][j] == Repeat(0.0, actionDim)
  {
    LogitsArePadded(obs, lstmOut, out, dim, actionDim, head);
    var logits := HeadRows(BatchedInputs(obs, lstmOut, out, dim).value, head);
    PaddedPieces(logits, TorsionCounts(obs), Repeat(0.0, actionDim));
    forall i, j | 0 <= i < |obs| && 0 <= j < |obs[i].torsions|
      ensures BatchedLogits(obs, lstmOut, out, dim, actionDim, head).value[i][j] == head(InputRow(obs, lstmOut, out, i, j))
    {
      LogitAt(obs, lstmOut, out, dim, actionDim, head, i, j);
    }
  }
}
