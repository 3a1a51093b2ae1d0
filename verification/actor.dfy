/** Tensor plumbing of `ActorBatchNet.forward` and `RTGNBatch.forward`
    (rtgn_batch_test.py) around the neural layers: the `index_select`
    gathers that turn per-graph and per-node rows into per-torsion rows, the
    `view` reshapes, the split of the flat logits into one group per graph
    and the zero padding to the longest group, and the recurrent-state
    tuples. Tensors are row sequences; the layers themselves are function
    parameters. */
module Actor {
  import opened Seqs
  import opened Outcomes
  import opened Arith

  /** torch.index_select along the first dimension: row t of the result is
      table[index[t]]; an index outside the table raises IndexError. */
  function IndexSelect<T>(table: seq<T>, index: seq<int>): (r: Option<seq<T>>)
    ensures r.Some? <==> forall t :: 0 <= t < |index| ==> 0 <= index[t] < |table|
    ensures r.Some? ==> |r.value| == |index|
    ensures r.Some? ==> forall t :: 0 <= t < |index| ==> r.value[t] == table[index[t]]
  {
    if forall t :: 0 <= t < |index| ==> 0 <= index[t] < |table| then
      Some(seq(|index|, t requires 0 <= t < |index| => table[index[t]]))
    else None
  }

  /** tensor.view(-1, w) of a flat tensor: consecutive chunks of w
      elements, taken from the front; torch refuses a length that is not a
      multiple of w. */
  function View<T>(flat: seq<T>, w: nat): (r: Option<seq<seq<T>>>)
    requires w > 0
    ensures r.Some? ==> forall t :: 0 <= t < |r.value| ==> |r.value[t]| == w
    ensures r.Some? ==> Concat(r.value) == flat
    decreases |flat|
  {
    if |flat| == 0 then Some([])
    else if |flat| < w then None
    else match View(flat[w..], w)
      case None => None
      case Some(rest) =>
        ConcatCons(flat[..w], rest);
        assert flat[..w] + flat[w..] == flat;
        Some([flat[..w]] + rest)
  }

  /** The view exists exactly when w divides the length. */
  lemma {:induction false} ViewDefined<T>(flat: seq<T>, w: nat)
    requires w > 0
    ensures View(flat, w).Some? <==> |flat| % w == 0
    decreases |flat|
  {
    if |flat| == 0 {
      ModSmall(0, w);
    } else if |flat| < w {
      ModSmall(|flat|, w);
    } else {
      ViewDefined(flat[w..], w);
      ModShift(|flat|, w);
    }
  }

  /** Viewing the concatenation of rows of width w gives those rows back:
      the view is the only way to cut the data into rows of width w. */
  lemma {:induction false} ViewOfRows<T>(rows: seq<seq<T>>, w: nat)
    requires w > 0
    requires forall t :: 0 <= t < |rows| ==> |rows[t]| == w
    ensures View(Concat(rows), w) == Some(rows)
    decreases |rows|
  {
    if |rows| > 0 {
      ConcatCons(rows[0], rows[1..]);
      assert [rows[0]] + rows[1..] == rows;
      var flat := Concat(rows);
      assert flat[..w] == rows[0];
      assert flat[w..] == Concat(rows[1..]);
      ViewOfRows(rows[1..], w);
    }
  }

  /** The memory gather of `ActorBatchNet.forward`: the memory output has
      one row per graph; selecting with torsion_batch_idx gives one row per
      torsion, the row of its graph. */
  function MemoryRows(lstmOut: seq<seq<real>>, torsionBatchIdx: seq<int>): (r: Option<seq<seq<real>>>)
    ensures r.Some? <==> forall t :: 0 <= t < |torsionBatchIdx| ==> 0 <= torsionBatchIdx[t] < |lstmOut|
    ensures r.Some? ==> |r.value| == |torsionBatchIdx|
    ensures r.Some? ==> forall t :: 0 <= t < |torsionBatchIdx| ==> r.value[t] == lstmOut[torsionBatchIdx[t]]
  {
    IndexSelect(lstmOut, torsionBatchIdx)
  }

  /** The node gather of `ActorBatchNet.forward`: the node rows of every
      atom of every torsion, selected through nonring.view(-1), then
      regrouped with view(-1, 4 * dim) into one row per torsion. */
  function TorsionRows(out: seq<seq<real>>, nonring: seq<seq<int>>, dim: nat): Option<seq<seq<real>>>
    requires dim > 0
  {
    match IndexSelect(out, Concat(nonring))
    case None => None
    case Some(selected) => View(Concat(selected), 4 * dim)
  }

  /** A torsion naming four atoms, each a row index below n. */
  predicate FourAtoms(t: seq<int>, n: nat)
  {
    |t| == 4 && forall a :: 0 <= a < 4 ==> 0 <= t[a] < n
  }

  /** The rows of a torsion's four atoms, side by side. */
  function Quartet(out: seq<seq<real>>, t: seq<int>): seq<real>
    requires FourAtoms(t, |out|)
  {
    out[t[0]] + out[t[1]] + out[t[2]] + out[t[3]]
  }

  /** Torsion t starts at entry 4t of the flattened torsions. */
  lemma {:induction false} FourWideOffsets(nonring: seq<seq<int>>, t: nat)
    requires forall s :: 0 <= s < |nonring| ==> |nonring[s]| == 4
    requires t <= |nonring|
    ensures Sum(Lengths(nonring)[..t]) == 4 * t
    decreases t
  {
    if t > 0 {
      FourWideOffsets(nonring, t - 1);
      SumPrefixStep(Lengths(nonring), t - 1);
    }
  }

  /** Entries 4t..4t+3 of the flattened torsions are the atoms of torsion t. */
  lemma FlatAtoms(nonring: seq<seq<int>>)
    requires forall t :: 0 <= t < |nonring| ==> |nonring[t]| == 4
    ensures |Concat(nonring)| == 4 * |nonring|
    ensures forall t, a :: 0 <= t < |nonring| && 0 <= a < 4 ==> Concat(nonring)[4 * t + a] == nonring[t][a]
  {
    ConcatLength(nonring);
    FourWideOffsets(nonring, |nonring|);
    assert Lengths(nonring)[..|nonring|] == Lengths(nonring);
    forall t, a | 0 <= t < |nonring| && 0 <= a < 4 ensures Concat(nonring)[4 * t + a] == nonring[t][a] {
      FlatAtom(nonring, t, a);
    }
  }

  lemma FlatAtom(nonring: seq<seq<int>>, t: nat, a: nat)
    requires forall s :: 0 <= s < |nonring| ==> |nonring[s]| == 4
    requires t < |nonring| && a < 4
    ensures 4 * t + a < |Concat(nonring)| && Concat(nonring)[4 * t + a] == nonring[t][a]
  {
    FourWideOffsets(nonring, t);
    ConcatAt(nonring, t, a);
  }

  /** Groups of four consecutive rows, each group side by side. */
  function Grouped<T>(rows: seq<seq<T>>, n: nat): (r: seq<seq<T>>)
    requires |rows| == 4 * n
    ensures |r| == n
    ensures forall t :: 0 <= t < n ==> r[t] == Concat(rows[4 * t..4 * t + 4])
  {
    seq(n, t requires 0 <= t < n => Concat(rows[4 * t..4 * t + 4]))
  }

  /** Dropping the last four rows drops the last group. */
  lemma GroupedPrefix<T>(rows: seq<seq<T>>, n: nat)
    requires n > 0 && |rows| == 4 * n
    ensures Grouped(rows, n)[..n - 1] == Grouped(rows[..4 * n - 4], n - 1)
  {
    var front := rows[..4 * n - 4];
    forall t | 0 <= t < n - 1 ensures Grouped(rows, n)[t] == Grouped(front, n - 1)[t] {
      assert front[4 * t..4 * t + 4] == rows[4 * t..4 * t + 4];
    }
  }

  lemma {:induction false} GroupedConcat<T>(rows: seq<seq<T>>, n: nat)
    requires |rows| == 4 * n
    ensures Concat(Grouped(rows, n)) == Concat(rows)
    decreases n
  {
    if n > 0 {
      var front, back := rows[..4 * n - 4], rows[4 * n - 4..];
      var g := Grouped(rows, n);
      GroupedConcat(front, n - 1);
      GroupedPrefix(rows, n);
      assert rows[4 * (n - 1)..4 * (n - 1) + 4] == back;
      assert Concat(g) == Concat(g[..n - 1]) + Concat(back);
      assert rows == front + back;
      ConcatAppend(front, back);
    }
  }

  /** The concatenation of four rows. */
  lemma ConcatFour<T>(four: seq<seq<T>>)
    requires |four| == 4
    ensures Concat(four) == four[0] + four[1] + four[2] + four[3]
  {
    assert four[..3][..2] == four[..2];
    assert four[..2][..1] == four[..1];
    assert four[..1][..0] == [];
    assert Concat(four[..1]) == four[0];
    assert Concat(four[..2]) == four[0] + four[1];
    assert Concat(four[..3]) == four[0] + four[1] + four[2];
  }

  /** Group t of the selected node rows is the Quartet of torsion t. */
  lemma GroupIsQuartet(out: seq<seq<real>>, nonring: seq<seq<int>>, rows: seq<seq<real>>, t: nat)
    requires forall s :: 0 <= s < |nonring| ==> |nonring[s]| == 4
    requires IndexSelect(out, Concat(nonring)) == Some(rows)
    requires t < |nonring|
    ensures FourAtoms(nonring[t], |out|)
    ensures 4 * t + 4 <= |rows|
    ensures Concat(rows[4 * t..4 * t + 4]) == Quartet(out, nonring[t])
  {
    FlatAtoms(nonring);
    var four := rows[4 * t..4 * t + 4];
    ConcatFour(four);
    forall a | 0 <= a < 4 ensures 0 <= nonring[t][a] < |out| && four[a] == out[nonring[t][a]] {
      assert four[a] == rows[4 * t + a];
    }
  }

  /** When every torsion names four nodes, TorsionRows gives row t as the
      rows of torsion t's atoms side by side. */
  lemma TorsionRowsSome(out: seq<seq<real>>, nonring: seq<seq<int>>, dim: nat)
    requires dim > 0
    requires forall v :: 0 <= v < |out| ==> |out[v]| == dim
    requires forall t :: 0 <= t < |nonring| ==> |nonring[t]| == 4
    requires forall t :: 0 <= t < |nonring| ==> FourAtoms(nonring[t], |out|)
    ensures TorsionRows(out, nonring, dim).Some?
    ensures |TorsionRows(out, nonring, dim).value| == |nonring|
    ensures forall t :: 0 <= t < |nonring| ==> TorsionRows(out, nonring, dim).value[t] == Quartet(out, nonring[t])
  {
    var flat := Concat(nonring);
    var n := |nonring|;
    FlatAtoms(nonring);
    forall k | 0 <= k < |flat| ensures 0 <= flat[k] < |out| {
      var t, a := k / 4, k % 4;
      assert flat[4 * t + a] == nonring[t][a];
      assert FourAtoms(nonring[t], |out|);
    }
    var rows := IndexSelect(out, flat).value;
    var g := Grouped(rows, n);
    forall t | 0 <= t < n ensures g[t] == Quartet(out, nonring[t]) && |g[t]| == 4 * dim {
      GroupIsQuartet(out, nonring, rows, t);
    }
    GroupedConcat(rows, n);
    ViewOfRows(g, 4 * dim);
  }

  /** A torsion atom that is not a node makes the gather fail. */
  lemma TorsionRowsNone(out: seq<seq<real>>, nonring: seq<seq<int>>, dim: nat, t: nat)
    requires dim > 0
    requires forall s :: 0 <= s < |nonring| ==> |nonring[s]| == 4
    requires t < |nonring| && !FourAtoms(nonring[t], |out|)
    ensures TorsionRows(out, nonring, dim).None?
  {
    var a :| 0 <= a < 4 && !(0 <= nonring[t][a] < |out|);
    FlatAtoms(nonring);
    assert Concat(nonring)[4 * t + a] == nonring[t][a];
  }

  /** When every node row has dim entries and every torsion names four
      atoms, TorsionRows fails exactly when some atom is not a node, and
      otherwise row t is the rows of torsion t's four atoms side by side. */
  lemma TorsionRowsSpec(out: seq<seq<real>>, nonring: seq<seq<int>>, dim: nat)
    requires dim > 0
    requires forall v :: 0 <= v < |out| ==> |out[v]| == dim
    requires forall t :: 0 <= t < |nonring| ==> |nonring[t]| == 4
    ensures var r := TorsionRows(out, nonring, dim);
      && (r.Some? <==> forall t :: 0 <= t < |nonring| ==> FourAtoms(nonring[t], |out|))
      && (r.Some? ==> |r.value| == |nonring|)
      && (r.Some? ==> forall t :: 0 <= t < |nonring| ==> r.value[t] == Quartet(out, nonring[t]))
  {
    if forall t :: 0 <= t < |nonring| ==> FourAtoms(nonring[t], |out|) {
      TorsionRowsSome(out, nonring, dim);
    } else {
      var t :| 0 <= t < |nonring| && !FourAtoms(nonring[t], |out|);
      TorsionRowsNone(out, nonring, dim, t);
    }
  }

  // ---------------------------------------------------------------------
  // Splitting and padding the logits

  /** tensor.split(sizes): consecutive pieces of the given sizes, taken from
      the back; torch refuses sizes that do not add up to the length. */
  function Split<T>(flat: seq<T>, sizes: seq<nat>): Option<seq<seq<T>>>
    decreases |sizes|
  {
    if |sizes| == 0 then
      if |flat| == 0 then Some([]) else None
    else
      var last := sizes[|sizes| - 1];
      if last > |flat| then None
      else match Split(flat[..|flat| - last], sizes[..|sizes| - 1])
        case None => None
        case Some(front) => Some(front + [flat[|flat| - last..]])
  }

  /** Split succeeds exactly when the sizes add up to the length; then the
      pieces have the requested sizes and concatenate back to the input. */
  lemma {:induction false} SplitSpec<T>(flat: seq<T>, sizes: seq<nat>)
    ensures Split(flat, sizes).Some? <==> Sum(sizes) == |flat|
    ensures Split(flat, sizes).Some? ==>
      && Lengths(Split(flat, sizes).value) == sizes
      && Concat(Split(flat, sizes).value) == flat
    decreases |sizes|
  {
    SplitDefined(flat, sizes);
    if |sizes| > 0 && Split(flat, sizes).Some? {
      var last, init := sizes[|sizes| - 1], sizes[..|sizes| - 1];
      var front, tail := flat[..|flat| - last], flat[|flat| - last..];
      var pieces := Split(front, init).value;
      assert Split(flat, sizes) == Some(pieces + [tail]);
      SplitSpec(front, init);
      SplitStep(front, tail, init, pieces);
      assert front + tail == flat;
      assert init + [last] == sizes;
    }
  }

  /** The sizes must add up to the length. */
  lemma {:induction false} SplitDefined<T>(flat: seq<T>, sizes: seq<nat>)
    ensures Split(flat, sizes).Some? <==> Sum(sizes) == |flat|
    ensures Split(flat, sizes).Some? && |sizes| > 0 ==>
      && sizes[|sizes| - 1] <= |flat|
      && Split(flat[..|flat| - sizes[|sizes| - 1]], sizes[..|sizes| - 1]).Some?
    decreases |sizes|
  {
    if |sizes| > 0 {
      var last, init := sizes[|sizes| - 1], sizes[..|sizes| - 1];
      assert Sum(sizes) == Sum(init) + last;
      if last <= |flat| {
        SplitDefined(flat[..|flat| - last], init);
      }
    }
  }

  /** Appending a piece to pieces that split front appends its length to
      the sizes. */
  lemma SplitStep<T>(front: seq<T>, tail: seq<T>, init: seq<nat>, pieces: seq<seq<T>>)
    requires Lengths(pieces) == init && Concat(pieces) == front
    ensures Lengths(pieces + [tail]) == init + [|tail|]
    ensures Concat(pieces + [tail]) == front + tail
  {
    ConcatSnoc(pieces, tail);
  }

  /** Entry j of piece i is entry Sum(sizes[..i]) + j of the input. */
  lemma SplitPieceAt<T>(flat: seq<T>, sizes: seq<nat>, i: nat, j: nat)
    requires Sum(sizes) == |flat|
    requires i < |sizes| && j < sizes[i]
    ensures Split(flat, sizes).Some?
    ensures Sum(sizes[..i]) + j < |flat|
    ensures |Split(flat, sizes).value| == |sizes| && |Split(flat, sizes).value[i]| == sizes[i]
    ensures Split(flat, sizes).value[i][j] == flat[Sum(sizes[..i]) + j]
  {
    SplitSpec(flat, sizes);
    var pieces := Split(flat, sizes).value;
    assert |pieces| == |Lengths(pieces)| == |sizes|;
    ConcatAt(pieces, i, j);
  }

  /** Splitting a concatenation by its members' lengths gives the members
      back. */
  lemma SplitConcat<T>(pieces: seq<seq<T>>)
    ensures Split(Concat(pieces), Lengths(pieces)) == Some(pieces)
  {
    ConcatLength(pieces);
    SplitSpec(Concat(pieces), Lengths(pieces));
    var r := Split(Concat(pieces), Lengths(pieces)).value;
    SplitUnique(r, pieces);
  }

  /** Two sequences of pieces with the same lengths and the same
      concatenation are equal. */
  lemma {:induction false} SplitUnique<T>(a: seq<seq<T>>, b: seq<seq<T>>)
    requires Lengths(a) == Lengths(b) && Concat(a) == Concat(b)
    ensures a == b
    decreases |a|
  {
    if |a| > 0 {
      var n := |a|;
      assert |b| == n;
      assert Lengths(a[..n - 1]) == Lengths(a)[..n - 1];
      assert Lengths(b[..n - 1]) == Lengths(b)[..n - 1];
      ConcatLength(a[..n - 1]);
      ConcatLength(b[..n - 1]);
      var ca, cb := Concat(a[..n - 1]), Concat(b[..n - 1]);
      assert Concat(a) == ca + a[n - 1];
      assert Concat(b) == cb + b[n - 1];
      assert |ca| == |cb|;
      assert ca == Concat(a)[..|ca|];
      assert a[n - 1] == Concat(a)[|ca|..];
      SplitUnique(a[..n - 1], b[..n - 1]);
      assert a == a[..n - 1] + [a[n - 1]];
      assert b == b[..n - 1] + [b[n - 1]];
    }
  }

  /** Piece i padded with zero to length len. */
  function PadTo<T>(piece: seq<T>, len: nat, zero: T): (r: seq<T>)
    requires |piece| <= len
    ensures |r| == len
    ensures r[..|piece|] == piece
    ensures forall j :: |piece| <= j < len ==> r[j] == zero
  {
    piece + Repeat(zero, len - |piece|)
  }

  /** pad_sequence(pieces).permute(1, 0, 2): every piece padded with zero
      rows to the longest one; an empty list of pieces is refused. */
  function Pad<T>(pieces: seq<seq<T>>, zero: T): (r: Option<seq<seq<T>>>)
    ensures r.Some? <==> |pieces| > 0
  {
    if |pieces| == 0 then None
    else
      var len := Max(Lengths(pieces));
      MaxBounds(Lengths(pieces));
      Some(seq(|pieces|, i requires 0 <= i < |pieces| => PadTo(pieces[i], len, zero)))
  }

  /** One padded row per piece, all as long as the longest piece (which gets
      no padding), each starting with its piece and continuing with zero. */
  lemma PadSpec<T>(pieces: seq<seq<T>>, zero: T)
    requires |pieces| > 0
    ensures var r, len := Pad(pieces, zero).value, Max(Lengths(pieces));
      && |r| == |pieces|
      && (forall i :: 0 <= i < |r| ==> |pieces[i]| <= len && |r[i]| == len)
      && (forall i :: 0 <= i < |r| ==> r[i][..|pieces[i]|] == pieces[i])
      && (forall i, j :: 0 <= i < |r| && |pieces[i]| <= j < len ==> r[i][j] == zero)
      && (exists i :: 0 <= i < |r| && |pieces[i]| == len)
  {
    MaxBounds(Lengths(pieces));
  }

  /** Entry j of padded row i is entry j of piece i. */
  lemma PaddedEntry<T>(flat: seq<T>, sizes: seq<nat>, zero: T, i: nat, j: nat)
    requires Sum(sizes) == |flat| && |sizes| > 0
    requires i < |sizes| && j < sizes[i]
    ensures Split(flat, sizes).Some? && Pad(Split(flat, sizes).value, zero).Some?
    ensures Sum(sizes[..i]) + j < |flat|
    ensures var r := Pad(Split(flat, sizes).value, zero).value;
      i < |r| && j < |r[i]| && r[i][j] == flat[Sum(sizes[..i]) + j]
  {
    SplitPieceAt(flat, sizes, i, j);
    var pieces := Split(flat, sizes).value;
    PadSpec(pieces, zero);
    var r := Pad(pieces, zero).value;
    assert r[i][..|pieces[i]|][j] == pieces[i][j];
  }

  /** The split of flat by sizes, padded: one row per size, row i starting
      with the sizes[i] entries from Sum(sizes[..i]) on and continuing with
      zero. */
  lemma PaddedPieces<T>(flat: seq<T>, sizes: seq<nat>, zero: T)
    requires Sum(sizes) == |flat| && |sizes| > 0
    ensures Split(flat, sizes).Some? && Pad(Split(flat, sizes).value, zero).Some?
    ensures |Pad(Split(flat, sizes).value, zero).value| == |sizes|
    ensures forall i :: 0 <= i < |sizes| ==> sizes[i] <= |Pad(Split(flat, sizes).value, zero).value[i]|
    ensures forall i, j :: 0 <= i < |sizes| && 0 <= j < sizes[i] ==>
      var r := Pad(Split(flat, sizes).value, zero).value;
      i < |r| && j < |r[i]| && Sum(sizes[..i]) + j < |flat| && r[i][j] == flat[Sum(sizes[..i]) + j]
    ensures forall i, j :: 0 <= i < |sizes| && sizes[i] <= j < |Pad(Split(flat, sizes).value, zero).value[i]| ==>
      Pad(Split(flat, sizes).value, zero).value[i][j] == zero
  {
    PaddedEntries(flat, sizes, zero);
    PaddedShape(flat, sizes, zero);
  }

  /** The shape of the padded split, and its padding. */
  lemma PaddedShape<T>(flat: seq<T>, sizes: seq<nat>, zero: T)
    requires Sum(sizes) == |flat| && |sizes| > 0
    ensures Split(flat, sizes).Some? && Pad(Split(flat, sizes).value, zero).Some?
    ensures |Pad(Split(flat, sizes).value, zero).value| == |sizes|
    ensures forall i :: 0 <= i < |sizes| ==> sizes[i] <= |Pad(Split(flat, sizes).value, zero).value[i]|
    ensures forall i, j :: 0 <= i < |sizes| && sizes[i] <= j < |Pad(Split(flat, sizes).value, zero).value[i]| ==>
      Pad(Split(flat, sizes).value, zero).value[i][j] == zero
  {
    SplitSpec(flat, sizes);
    var pieces := Split(flat, sizes).value;
    assert forall i :: 0 <= i < |sizes| ==> |pieces[i]| == Lengths(pieces)[i] == sizes[i];
    PadSpec(pieces, zero);
  }

  lemma PaddedEntries<T>(flat: seq<T>, sizes: seq<nat>, zero: T)
    requires Sum(sizes) == |flat| && |sizes| > 0
    ensures Split(flat, sizes).Some? && Pad(Split(flat, sizes).value, zero).Some?
    ensures forall i, j :: 0 <= i < |sizes| && 0 <= j < sizes[i] ==>
      var r := Pad(Split(flat, sizes).value, zero).value;
      i < |r| && j < |r[i]| && Sum(sizes[..i]) + j < |flat| && r[i][j] == flat[Sum(sizes[..i]) + j]
  {
    SplitSpec(flat, sizes);
    forall i, j | 0 <= i < |sizes| && 0 <= j < sizes[i]
      ensures var r := Pad(Split(flat, sizes).value, zero).value;
        i < |r| && j < |r[i]| && Sum(sizes[..i]) + j < |flat| && r[i][j] == flat[Sum(sizes[..i]) + j]
    {
      PaddedEntry(flat, sizes, zero, i, j);
    }
  }

  /** Cutting every padded row back to its piece's length undoes Pad. */
  function Unpad<T>(padded: seq<seq<T>>, lengths: seq<nat>): seq<seq<T>>
    requires |padded| == |lengths|
    requires forall i :: 0 <= i < |padded| ==> lengths[i] <= |padded[i]|
  {
    seq(|padded|, i requires 0 <= i < |padded| => padded[i][..lengths[i]])
  }

  lemma UnpadPad<T>(pieces: seq<seq<T>>, zero: T)
    requires |pieces| > 0
    ensures var r := Pad(pieces, zero).value;
      |r| == |Lengths(pieces)|
      && (forall i :: 0 <= i < |r| ==> Lengths(pieces)[i] <= |r[i]|)
      && Unpad(r, Lengths(pieces)) == pieces
  {
    PadSpec(pieces, zero);
  }

  // ---------------------------------------------------------------------
  // Recurrent states

  /** A hidden and cell state, one row per graph (the leading dimension of
      size 1 is dropped). */
  datatype Recurrent = Recurrent(h: seq<seq<real>>, c: seq<seq<real>>)

  /** The state tuple (hp, cp, hv, cv) of the actor and the critic. */
  datatype States = States(hp: seq<seq<real>>, cp: seq<seq<real>>, hv: seq<seq<real>>, cv: seq<seq<real>>)

  /** The start of `CriticBatchNet.forward` and `ActorBatchNet.forward`:
      the given states, or zeros of shape num_graphs by dim. */
  function InitialState(states: Option<Recurrent>, numGraphs: nat, dim: nat): (r: Recurrent)
    ensures states.Some? ==> r == states.value
    ensures states.None? ==> |r.h| == |r.c| == numGraphs
    ensures states.None? ==> forall g :: 0 <= g < numGraphs ==>
      |r.h[g]| == |r.c[g]| == dim && (forall j :: 0 <= j < dim ==> r.h[g][j] == 0.0 && r.c[g][j] == 0.0)
  {
    match states
    case Some(s) => s
    case None => Recurrent(Zeros(numGraphs, dim), Zeros(numGraphs, dim))
  }

  /** `RTGNBatch.forward` unpacking its states: (hp, cp) go to the actor
      and (hv, cv) to the critic. */
  function SplitStates(states: Option<States>): (Option<Recurrent>, Option<Recurrent>)
  {
    match states
    case None => (None, None)
    case Some(s) => (Some(Recurrent(s.hp, s.cp)), Some(Recurrent(s.hv, s.cv)))
  }

  /** `RTGNBatch.forward`'s result: the new states returned as (hp, cp, hv, cv). */
  function JoinStates(policy: Recurrent, value: Recurrent): States
  {
    States(policy.h, policy.c, value.h, value.c)
  }

  /** Splitting and joining are inverse to each other. */
  lemma StatesRoundTrip(s: States, policy: Recurrent, value: Recurrent)
    ensures var (p, v) := SplitStates(Some(s)); p.Some? && v.Some? && JoinStates(p.value, v.value) == s
    ensures SplitStates(Some(JoinStates(policy, value))) == (Some(policy), Some(value))
  {
  }

  /** The state flow of one `forward`, with the actor's and the critic's
      memory steps as parameters. */
  function ForwardStates(states: Option<States>, numGraphs: nat, dim: nat,
                         actorMemory: Recurrent -> Recurrent,
                         criticMemory: Recurrent -> Recurrent): States
  {
    var (p, v) := SplitStates(states);
    JoinStates(actorMemory(InitialState(p, numGraphs, dim)), criticMemory(InitialState(v, numGraphs, dim)))
  }

  /** The actor's new (hp, cp) come from its own previous (hp, cp) only, the
      critic's from (hv, cv) only, and both start from zeros when no states
      are given; fed back in, the states keep their order. */
  lemma ForwardStatesSpec(states: Option<States>, numGraphs: nat, dim: nat,
                          actorMemory: Recurrent -> Recurrent,
                          criticMemory: Recurrent -> Recurrent)
    ensures var r := ForwardStates(states, numGraphs, dim, actorMemory, criticMemory);
      && (states.Some? ==>
            && Recurrent(r.hp, r.cp) == actorMemory(Recurrent(states.value.hp, states.value.cp))
            && Recurrent(r.hv, r.cv) == criticMemory(Recurrent(states.value.hv, states.value.cv)))
      && (states.None? ==>
            && Recurrent(r.hp, r.cp) == actorMemory(Recurrent(Zeros(numGraphs, dim), Zeros(numGraphs, dim)))
            && Recurrent(r.hv, r.cv) == criticMemory(Recurrent(Zeros(numGraphs, dim), Zeros(numGraphs, dim))))
  {
  }
}
