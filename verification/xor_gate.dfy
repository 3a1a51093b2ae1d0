/** Index bookkeeping of the XOR-gate molecule (generate_molecule/xor_gate.py
    `XorGate`): its field values, the alternating monomer pattern, the
    rotatable torsion list computed from the atom count, and the map from a
    torsion of the whole molecule to the matching torsion of a single gate.
    Building the molecule with stk is left to the library; the atom count it
    produces is a parameter here. */
module XorGate {
  import opened Outcomes
  import opened Arith

  datatype Gate = Gate(gateComplexity: int, numGates: int, numTorsions: int)

  /** The fields `__init__` sets. */
  function NewGate(gateComplexity: int, numGates: int): (g: Gate)
    ensures g.gateComplexity == gateComplexity && g.numGates == numGates
    ensures g.numTorsions == g.numGates * g.gateComplexity
  {
    Gate(gateComplexity, numGates, numGates * gateComplexity)
  }

  /** `get_individual_gate`: the same complexity with a single gate, whose
      torsion count is therefore the complexity. */
  function IndividualGate(g: Gate): (r: Gate)
    ensures r.numGates == 1 && r.gateComplexity == g.gateComplexity
    ensures r.numTorsions == g.gateComplexity
  {
    NewGate(g.gateComplexity, 1)
  }

  // ---------------------------------------------------------------------
  // Monomer pattern

  /** islice(cycle(s), n) for n >= 0: s repeated for ever, cut after n
      characters (nothing when s is empty). Each character past the first
      copy repeats the one |s| places earlier. */
  function CycleTake(s: string, n: nat): (r: string)
    ensures |s| == 0 ==> r == []
    ensures |s| > 0 ==> |r| == n
    ensures |s| > 0 ==> forall i :: 0 <= i < n ==> r[i] == if i < |s| then s[i] else r[i - |s|]
    decreases n
  {
    if |s| == 0 || n == 0 then []
    else if n <= |s| then s[..n]
    else s + CycleTake(s, n - |s|)
  }

  /** Character i of the cycle is character i mod |s| of s. */
  lemma {:induction false} CycleTakeAt(s: string, n: nat, i: nat)
    requires |s| > 0 && i < n
    ensures CycleTake(s, n)[i] == s[i % |s|]
    decreases i
  {
    if i < |s| {
      ModSmall(i, |s|);
    } else {
      CycleTakeAt(s, n, i - |s|);
      ModShift(i, |s|);
    }
  }

  /** ''.join(islice(cycle('A' + 'B'), num_gates)); islice refuses a
      negative count. */
  function MonomerPattern(numGates: int): Option<string>
  {
    if numGates < 0 then None else Some(CycleTake("AB", numGates))
  }

  /** The pattern has one letter per gate, 'A' at even positions and 'B' at
      odd ones. */
  lemma PatternAlternates(numGates: int)
    ensures MonomerPattern(numGates).Some? <==> numGates >= 0
    ensures MonomerPattern(numGates).Some? ==>
      var p := MonomerPattern(numGates).value;
      && |p| == numGates
      && forall i :: 0 <= i < |p| ==> (p[i] == 'A' <==> i % 2 == 0) && (p[i] == 'B' <==> i % 2 == 1)
  {
    if numGates >= 0 {
      var p := MonomerPattern(numGates).value;
      forall i | 0 <= i < |p| ensures (p[i] == 'A' <==> i % 2 == 0) && (p[i] == 'B' <==> i % 2 == 1) {
        CycleTakeAt("AB", numGates, i);
      }
    }
  }

  // ---------------------------------------------------------------------
  // Torsions

  /** Python's range(start, stop, step) for a positive step; the torsion
      list steps by the seven atoms each monomer adds. */
  function Range(start: int, stop: int, step: nat): (r: seq<int>)
    requires step > 0
    ensures forall k :: 0 <= k < |r| ==> r[k] == start + step * k && r[k] < stop
    ensures start + step * |r| >= stop
    decreases stop - start
  {
    if start >= stop then [] else [start] + Range(start + step, stop, step)
  }

  /** The torsion of a top monomer whose pivot is atom i. */
  function TopTorsion(i: int): (r: seq<int>)
    ensures |r| == 4 && r[1] == i
  {
    [i + 1, i, i + 5, i + 6]
  }

  /** The torsion of a bottom monomer whose pivot is atom i. */
  function BottomTorsion(i: int): (r: seq<int>)
    ensures |r| == 4 && r[1] == i
  {
    [i - 1, i, i + 2, i + 3]
  }

  /** Atoms of the top strand: numAtoms // 2 + 1. */
  function NumTopAtoms(numAtoms: nat): nat
  {
    numAtoms / 2 + 1
  }

  /** One torsion per top monomer, pivoting on 9, 16, 23, ... below the end
      of the top strand. */
  function TopTorsions(numAtoms: nat): (r: seq<seq<int>>)
    ensures forall k :: 0 <= k < |r| ==>
      r[k] == TopTorsion(9 + 7 * k) && 9 + 7 * k < NumTopAtoms(numAtoms)
    ensures 9 + 7 * |r| >= NumTopAtoms(numAtoms)
  {
    var n := |Range(9, NumTopAtoms(numAtoms), 7)|;
    assert n > 0 ==> 9 + 7 * (n - 1) < NumTopAtoms(numAtoms) by {
      if n > 0 { assert Range(9, NumTopAtoms(numAtoms), 7)[n - 1] == 9 + 7 * (n - 1); }
    }
    seq(n, k requires 0 <= k < n => TopTorsion(9 + 7 * k))
  }

  /** One torsion per bottom monomer, pivoting on NumTopAtoms + 3 and every
      seventh atom after it below numAtoms. */
  function BottomTorsions(numAtoms: nat): (r: seq<seq<int>>)
    ensures forall k :: 0 <= k < |r| ==>
      r[k] == BottomTorsion(NumTopAtoms(numAtoms) + 3 + 7 * k)
      && NumTopAtoms(numAtoms) + 3 + 7 * k < numAtoms
    ensures NumTopAtoms(numAtoms) + 3 + 7 * |r| >= numAtoms
  {
    var start := NumTopAtoms(numAtoms) + 3;
    var n := |Range(start, numAtoms, 7)|;
    assert n > 0 ==> start + 7 * (n - 1) < numAtoms by {
      if n > 0 { assert Range(start, numAtoms, 7)[n - 1] == start + 7 * (n - 1); }
    }
    seq(n, k requires 0 <= k < n => BottomTorsion(start + 7 * k))
  }

  /** `get_torsions` for a polymer of numAtoms atoms: the first torsion
      [1, 0, 7, 8], then the top torsions, then the bottom ones. */
  function GetTorsions(numAtoms: nat): seq<seq<int>>
  {
    [[1, 0, 7, 8]] + TopTorsions(numAtoms) + BottomTorsions(numAtoms)
  }

  /** Positions in [x] + a + b. */
  lemma ThreeParts<T>(x: T, a: seq<T>, b: seq<T>)
    ensures var r := [x] + a + b;
      && |r| == 1 + |a| + |b|
      && r[0] == x
      && (forall k :: 1 <= k <= |a| ==> r[k] == a[k - 1])
      && (forall k :: 1 + |a| <= k < |r| ==> r[k] == b[k - 1 - |a|])
  {
    var head := [x] + a;
    var r := [x] + a + b;
    forall k | 1 <= k <= |a| ensures r[k] == a[k - 1] {
      assert r[k] == head[k];
    }
  }

  /** The list holds [1, 0, 7, 8], one torsion per top monomer and one per
      bottom monomer. */
  lemma {:induction false} TorsionCount(numAtoms: nat)
    ensures var r := GetTorsions(numAtoms);
      && |r| == 1 + |TopTorsions(numAtoms)| + |BottomTorsions(numAtoms)|
      && r[0] == [1, 0, 7, 8]
  {
  }

  /** Torsion k, for 1 <= k <= t (t the number of top monomers), is the top
      torsion pivoting on 9 + 7(k - 1), inside the top strand. */
  lemma {:induction false} TopTorsionAt(numAtoms: nat, k: nat)
    requires 1 <= k <= |TopTorsions(numAtoms)|
    ensures var r := GetTorsions(numAtoms);
      && k < |r|
      && r[k] == TopTorsion(9 + 7 * (k - 1))
      && r[k][1] < NumTopAtoms(numAtoms)
  {
    var top, bottom := TopTorsions(numAtoms), BottomTorsions(numAtoms);
    ThreeParts([1, 0, 7, 8], top, bottom);
    assert GetTorsions(numAtoms)[k] == top[k - 1];
  }

  /** The torsions after the top ones are the bottom torsions, pivoting on
      NumTopAtoms + 3 + 7j for the j-th of them, between the end of the top
      strand and numAtoms. */
  lemma {:induction false} BottomTorsionAt(numAtoms: nat, k: nat)
    requires |TopTorsions(numAtoms)| < k < |GetTorsions(numAtoms)|
    ensures var r, t := GetTorsions(numAtoms), |TopTorsions(numAtoms)|;
      && r[k] == BottomTorsion(NumTopAtoms(numAtoms) + 3 + 7 * (k - 1 - t))
      && NumTopAtoms(numAtoms) < r[k][1] < numAtoms
  {
    var top, bottom := TopTorsions(numAtoms), BottomTorsions(numAtoms);
    ThreeParts([1, 0, 7, 8], top, bottom);
    assert GetTorsions(numAtoms)[k] == bottom[k - 1 - |top|];
  }

  /** The pivot atoms strictly increase along the list, so no atom pivots
      two torsions. */
  lemma {:induction false} PivotsIncrease(numAtoms: nat)
    ensures var r := GetTorsions(numAtoms);
      forall j, k :: 0 <= j < k < |r| ==> |r[j]| == |r[k]| == 4 && r[j][1] < r[k][1]
  {
    var r := GetTorsions(numAtoms);
    forall j, k | 0 <= j < k < |r| ensures |r[j]| == |r[k]| == 4 && r[j][1] < r[k][1] {
      PivotPair(numAtoms, j, k);
    }
  }

  lemma {:induction false} PivotPair(numAtoms: nat, j: nat, k: nat)
    requires j < k < |GetTorsions(numAtoms)|
    ensures var r := GetTorsions(numAtoms);
      |r[j]| == |r[k]| == 4 && r[j][1] < r[k][1]
  {
    var t := |TopTorsions(numAtoms)|;
    TorsionCount(numAtoms);
    if j == 0 {
    } else if j <= t {
      TopTorsionAt(numAtoms, j);
    } else {
      BottomTorsionAt(numAtoms, j);
    }
    if k <= t {
      TopTorsionAt(numAtoms, k);
    } else {
      BottomTorsionAt(numAtoms, k);
    }
  }

  /** The documented example: the two-complexity, three-gate polymer has 44
      atoms and these six torsions, one per gate and complexity. */
  lemma TorsionsOf44()
    ensures GetTorsions(44) == [[1, 0, 7, 8], [10, 9, 14, 15], [17, 16, 21, 22],
                                [25, 26, 28, 29], [32, 33, 35, 36], [39, 40, 42, 43]]
    ensures |GetTorsions(44)| == NewGate(2, 3).numTorsions
  {
    TopOf44();
    BottomOf44();
  }

  lemma TopOf44()
    ensures TopTorsions(44) == [[10, 9, 14, 15], [17, 16, 21, 22]]
  {
    assert NumTopAtoms(44) == 23;
    var top := TopTorsions(44);
    assert |top| == 2;
    assert top[0] == TopTorsion(9) && top[1] == TopTorsion(16);
  }

  lemma BottomOf44()
    ensures BottomTorsions(44) == [[25, 26, 28, 29], [32, 33, 35, 36], [39, 40, 42, 43]]
  {
    assert NumTopAtoms(44) == 23;
    var bottom := BottomTorsions(44);
    assert |bottom| == 3;
    assert bottom[0] == BottomTorsion(26) && bottom[1] == BottomTorsion(33) && bottom[2] == BottomTorsion(40);
  }

  // ---------------------------------------------------------------------
  // Torsion index in a single gate

  datatype ArithError = ZeroDivision

  /** Python's a // b: the quotient rounded towards minus infinity. */
  function PyDiv(a: int, b: int): int
    requires b != 0
  {
    if b > 0 then a / b else (-a) / (-b)
  }

  /** Python's a % b: the remainder takes the sign of the divisor and
      completes the floor division, a == (a // b) * b + a % b. */
  function PyMod(a: int, b: int): (r: int)
    requires b != 0
    ensures b > 0 ==> 0 <= r < b
    ensures b < 0 ==> b < r <= 0
    ensures a == PyDiv(a, b) * b + r
  {
    if b > 0 then a % b else -((-a) % (-b))
  }

  /** `individual_gate_torsion_idx`: torsion_idx % gate_complexity, which
      raises ZeroDivisionError for a zero complexity. */
  function IndividualGateTorsionIdx(g: Gate, torsionIdx: int): (r: Result<int, ArithError>)
    ensures r.Err? <==> g.gateComplexity == 0
    ensures r.Ok? && g.gateComplexity > 0 ==> 0 <= r.value < g.gateComplexity
    ensures r.Ok? && g.gateComplexity < 0 ==> g.gateComplexity < r.value <= 0
    ensures r.Ok? ==> torsionIdx == PyDiv(torsionIdx, g.gateComplexity) * g.gateComplexity + r.value
  {
    if g.gateComplexity == 0 then Err(ZeroDivision)
    else Ok(PyMod(torsionIdx, g.gateComplexity))
  }

  /** With a positive complexity, torsion t of the polymer is torsion
      t % complexity of the single gate, so torsion q * complexity + j of
      gate q maps to j, for every gate q. */
  lemma {:induction false} IndividualIndexInGate(gateComplexity: int, numGates: int, q: int, j: int)
    requires gateComplexity > 0 && 0 <= j < gateComplexity
    ensures var g := NewGate(gateComplexity, numGates);
      && IndividualGateTorsionIdx(g, q * gateComplexity + j) == Ok(j)
      && j < IndividualGate(g).numTorsions
  {
    DivModUnique(q * gateComplexity + j, gateComplexity, q, j);
  }
}
