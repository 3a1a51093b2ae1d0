/** The observation of the conformer environment and its conversion to a
    graph (gymspace.py `_get_obs` and `obsToGraph`).

    `_get_obs` writes the atom positions, one feature row per bond, angle and
    rotatable torsion into fixed-size zero tables (250x3, 300x8, 200x3,
    100x3) and records the four row counts. `obsToGraph` slices the tables
    back by those counts, builds a symmetric edge list (every bond, angle and
    torsion contributes an edge between its end atoms, in both directions)
    and an 8-column edge-attribute table that is duplicated for the reverse
    edges. Angle and dihedral measurements are geometry calls on the 3D
    conformer; they enter as parameters. */
module Observation {
  import opened Seqs
  import opened Outcomes
  import opened Molecule
  import opened Angles

  const NodeRows: nat := 250
  const NodeCols: nat := 3
  const BondRows: nat := 300
  const BondCols: nat := 8
  const AngleRows: nat := 200
  const AngleCols: nat := 3
  const DihedralRows: nat := 100
  const DihedralCols: nat := 3
  const EdgeAttrCols: nat := 8

  type Table = seq<seq<real>>

  datatype Point = Point(x: real, y: real, z: real)

  /** The `count` vector: atoms, bonds, angles, rotatable torsions. */
  datatype Counts = Counts(atoms: nat, bonds: nat, angles: nat, dihedrals: nat)

  datatype Obs = Obs(nodes: Table, bonds: Table, angles: Table, dihedrals: Table, count: Counts)

  /** A numpy write past the end of a table (the first one raised wins). */
  datatype PackError = TooManyAtoms | TooManyBonds | TooManyAngles | TooManyDihedrals

  /** A slice of a table shorter than the count the attribute table expects. */
  datatype UnpackError = ShapeMismatch

  /** The torch_geometric Data fields this model keeps. */
  datatype Graph = Graph(x: Table, edgeIndex: seq<seq<int>>, edgeAttr: Table, pos: Table)

  predicate Rect(t: Table, rows: nat, cols: nat)
  {
    |t| == rows && forall i :: 0 <= i < |t| ==> |t[i]| == cols
  }

  /** The shapes the observation space declares. */
  predicate Shaped(obs: Obs)
  {
    && Rect(obs.nodes, NodeRows, NodeCols)
    && Rect(obs.bonds, BondRows, BondCols)
    && Rect(obs.angles, AngleRows, AngleCols)
    && Rect(obs.dihedrals, DihedralRows, DihedralCols)
  }

  function Flag(b: bool): real
  {
    if b then 1.0 else 0.0
  }

  function PointRow(p: Point): seq<real>
  {
    [p.x, p.y, p.z]
  }

  /** Single, double, triple, aromatic, conjugated, in ring. */
  function BondFlags(b: Bond): seq<real>
  {
    [Flag(b.kind == Single), Flag(b.kind == Double), Flag(b.kind == TripleBond),
     Flag(b.kind == Aromatic), Flag(b.conjugated), Flag(b.inRing)]
  }

  function BondRow(b: Bond): seq<real>
  {
    [b.begin as real, b.end as real] + BondFlags(b)
  }

  /** An angle row keeps the outer atoms and the angle in units of 180 degrees. */
  function AngleRow(t: Angle, degrees: real): seq<real>
  {
    [t.first as real, t.last as real, degrees / 180.0]
  }

  /** A dihedral row keeps the two end atoms and the dihedral in units of 180 degrees. */
  function DihedralRow(d: Torsion, degrees: real): seq<real>
  {
    [d.a as real, d.d as real, degrees / 180.0]
  }

  function NodeTable(positions: seq<Point>): (t: Table)
    ensures |t| == |positions|
    ensures forall i :: 0 <= i < |positions| ==> t[i] == PointRow(positions[i])
  {
    seq(|positions|, i requires 0 <= i < |positions| => PointRow(positions[i]))
  }

  function BondTable(bonds: seq<Bond>): (t: Table)
    ensures |t| == |bonds|
    ensures forall i :: 0 <= i < |bonds| ==> t[i] == BondRow(bonds[i])
  {
    seq(|bonds|, i requires 0 <= i < |bonds| => BondRow(bonds[i]))
  }

  function AngleTable(angles: seq<Angle>, angleDegrees: Angle -> real): (t: Table)
    ensures |t| == |angles|
    ensures forall i :: 0 <= i < |angles| ==> t[i] == AngleRow(angles[i], angleDegrees(angles[i]))
  {
    seq(|angles|, i requires 0 <= i < |angles| => AngleRow(angles[i], angleDegrees(angles[i])))
  }

  function DihedralTable(torsions: seq<Torsion>, dihedralDegrees: Torsion -> real): (t: Table)
    ensures |t| == |torsions|
    ensures forall i :: 0 <= i < |torsions| ==> t[i] == DihedralRow(torsions[i], dihedralDegrees(torsions[i]))
  {
    seq(|torsions|, i requires 0 <= i < |torsions| => DihedralRow(torsions[i], dihedralDegrees(torsions[i])))
  }

  /** table[0:len(rows)] = rows. */
  function Fill(table: Table, rows: Table): (r: Table)
    requires |rows| <= |table|
    ensures |r| == |table|
    ensures forall i :: 0 <= i < |rows| ==> r[i] == rows[i]
    ensures forall i :: |rows| <= i < |table| ==> r[i] == table[i]
  {
    rows + table[|rows|..]
  }

  /** `_get_obs`: zero tables with the first rows filled, and the counts. */
  function GetObs(positions: seq<Point>, bonds: seq<Bond>, angles: seq<Angle>, torsions: seq<Torsion>,
                  angleDegrees: Angle -> real, dihedralDegrees: Torsion -> real): (r: Result<Obs, PackError>)
    ensures r.Err? <==>
      |positions| > NodeRows || |bonds| > BondRows || |angles| > AngleRows || |torsions| > DihedralRows
    ensures r.Err? ==> r.error == (if |positions| > NodeRows then TooManyAtoms
                                   else if |bonds| > BondRows then TooManyBonds
                                   else if |angles| > AngleRows then TooManyAngles
                                   else TooManyDihedrals)
    ensures r.Ok? ==> Shaped(r.value)
    ensures r.Ok? ==> r.value.count == Counts(|positions|, |bonds|, |angles|, |torsions|)
    ensures r.Ok? ==> forall i :: 0 <= i < |positions| ==> r.value.nodes[i] == PointRow(positions[i])
    ensures r.Ok? ==> forall i :: 0 <= i < |bonds| ==> r.value.bonds[i] == BondRow(bonds[i])
    ensures r.Ok? ==> forall i :: 0 <= i < |angles| ==>
      r.value.angles[i] == AngleRow(angles[i], angleDegrees(angles[i]))
    ensures r.Ok? ==> forall i :: 0 <= i < |torsions| ==>
      r.value.dihedrals[i] == DihedralRow(torsions[i], dihedralDegrees(torsions[i]))
    ensures r.Ok? ==> forall i :: |positions| <= i < NodeRows ==> r.value.nodes[i] == Repeat(0.0, NodeCols)
    ensures r.Ok? ==> forall i :: |bonds| <= i < BondRows ==> r.value.bonds[i] == Repeat(0.0, BondCols)
    ensures r.Ok? ==> forall i :: |angles| <= i < AngleRows ==> r.value.angles[i] == Repeat(0.0, AngleCols)
    ensures r.Ok? ==> forall i :: |torsions| <= i < DihedralRows ==>
      r.value.dihedrals[i] == Repeat(0.0, DihedralCols)
  {
    if |positions| > NodeRows then Err(TooManyAtoms)
    else if |bonds| > BondRows then Err(TooManyBonds)
    else if |angles| > AngleRows then Err(TooManyAngles)
    else if |torsions| > DihedralRows then Err(TooManyDihedrals)
    else
      var nodes := Fill(Zeros(NodeRows, NodeCols), NodeTable(positions));
      var bondTable := Fill(Zeros(BondRows, BondCols), BondTable(bonds));
      var angleTable := Fill(Zeros(AngleRows, AngleCols), AngleTable(angles, angleDegrees));
      var dihedralTable := Fill(Zeros(DihedralRows, DihedralCols), DihedralTable(torsions, dihedralDegrees));
      Ok(Obs(nodes, bondTable, angleTable, dihedralTable,
             Counts(|positions|, |bonds|, |angles|, |torsions|)))
  }

  /** torch.tensor(..., dtype=torch.long) on a float: truncation toward zero. */
  function Trunc(r: real): int
  {
    if r >= 0.0 then r.Floor else -((-r).Floor)
  }

  lemma TruncOfInt(n: int)
    ensures Trunc(n as real) == n
  {
  }

  function Longs(xs: seq<real>): (r: seq<int>)
    ensures |r| == |xs|
    ensures forall k :: 0 <= k < |xs| ==> r[k] == Trunc(xs[k])
  {
    seq(|xs|, k requires 0 <= k < |xs| => Trunc(xs[k]))
  }

  function Column(t: Table, j: nat): (r: seq<real>)
    requires forall i :: 0 <= i < |t| ==> j < |t[i]|
    ensures |r| == |t|
    ensures forall i :: 0 <= i < |t| ==> r[i] == t[i][j]
  {
    seq(|t|, i requires 0 <= i < |t| => t[i][j])
  }

  /** Attribute rows: bond flags in columns 0-5, the angle in column 6, the
      dihedral in column 7, every other column zero. */
  function BondAttr(row: seq<real>): (r: seq<real>)
    requires |row| == BondCols
    ensures |r| == EdgeAttrCols && r[..6] == row[2..] && r[6] == 0.0 && r[7] == 0.0
  {
    row[2..] + [0.0, 0.0]
  }

  function AngleAttr(row: seq<real>): (r: seq<real>)
    requires |row| == AngleCols
    ensures |r| == EdgeAttrCols && r[6] == row[2]
    ensures forall j :: 0 <= j < EdgeAttrCols && j != 6 ==> r[j] == 0.0
  {
    Repeat(0.0, 6) + [row[2], 0.0]
  }

  function DihedralAttr(row: seq<real>): (r: seq<real>)
    requires |row| == DihedralCols
    ensures |r| == EdgeAttrCols && r[7] == row[2]
    ensures forall j :: 0 <= j < EdgeAttrCols && j != 7 ==> r[j] == 0.0
  {
    Repeat(0.0, 7) + [row[2]]
  }

  /** Column col of the bond, angle and dihedral rows, one after the other. */
  function EdgeEnds(b: Table, a: Table, d: Table, col: nat): (r: seq<real>)
    requires col < 2
    requires forall i :: 0 <= i < |b| ==> |b[i]| == BondCols
    requires forall i :: 0 <= i < |a| ==> |a[i]| == AngleCols
    requires forall i :: 0 <= i < |d| ==> |d[i]| == DihedralCols
    ensures |r| == |b| + |a| + |d|
    ensures forall k :: 0 <= k < |b| ==> r[k] == b[k][col]
    ensures forall k :: 0 <= k < |a| ==> r[|b| + k] == a[k][col]
    ensures forall k :: 0 <= k < |d| ==> r[|b| + |a| + k] == d[k][col]
  {
    Column(b, col) + Column(a, col) + Column(d, col)
  }

  /** The attribute rows of the bond, angle and dihedral edges, in that order. */
  function EdgeAttrs(b: Table, a: Table, d: Table): (r: Table)
    requires forall i :: 0 <= i < |b| ==> |b[i]| == BondCols
    requires forall i :: 0 <= i < |a| ==> |a[i]| == AngleCols
    requires forall i :: 0 <= i < |d| ==> |d[i]| == DihedralCols
    ensures |r| == |b| + |a| + |d|
    ensures forall k :: 0 <= k < |r| ==> |r[k]| == EdgeAttrCols
    ensures forall k :: 0 <= k < |b| ==> r[k] == BondAttr(b[k])
    ensures forall k :: 0 <= k < |a| ==> r[|b| + k] == AngleAttr(a[k])
    ensures forall k :: 0 <= k < |d| ==> r[|b| + |a| + k] == DihedralAttr(d[k])
  {
    seq(|b|, k requires 0 <= k < |b| => BondAttr(b[k]))
    + seq(|a|, k requires 0 <= k < |a| => AngleAttr(a[k]))
    + seq(|d|, k requires 0 <= k < |d| => DihedralAttr(d[k]))
  }

  /** Tables whose rows have the bond, angle and dihedral widths. */
  predicate RowWidths(b: Table, a: Table, d: Table)
  {
    && (forall i :: 0 <= i < |b| ==> |b[i]| == BondCols)
    && (forall i :: 0 <= i < |a| ==> |a[i]| == AngleCols)
    && (forall i :: 0 <= i < |d| ==> |d[i]| == DihedralCols)
  }

  /** The graph built from the sliced tables. */
  function Assemble(positions: Table, b: Table, a: Table, d: Table): (g: Graph)
    requires RowWidths(b, a, d)
    ensures |g.edgeIndex| == 2
    ensures |g.edgeIndex[0]| == |g.edgeIndex[1]| == |g.edgeAttr| == 2 * (|b| + |a| + |d|)
  {
    var src := EdgeEnds(b, a, d, 0);
    var dst := EdgeEnds(b, a, d, 1);
    var attr := EdgeAttrs(b, a, d);
    Graph(positions, [Longs(src + dst), Longs(dst + src)], attr + attr, positions)
  }

  /** `obsToGraph`, without the distance attribute torch_geometric appends.
      A count larger than its table makes the attribute assignment fail. */
  function ObsToGraph(obs: Obs): (r: Result<Graph, UnpackError>)
    requires Shaped(obs)
    ensures r.Err? <==> obs.count.bonds > BondRows || obs.count.angles > AngleRows
                        || obs.count.dihedrals > DihedralRows
    ensures r.Ok? ==> r.value == Assemble(Take(obs.nodes, obs.count.atoms), obs.bonds[..obs.count.bonds],
                                          obs.angles[..obs.count.angles], obs.dihedrals[..obs.count.dihedrals])
  {
    var c := obs.count;
    if c.bonds > |obs.bonds| || c.angles > |obs.angles| || c.dihedrals > |obs.dihedrals| then
      Err(ShapeMismatch)
    else
      Ok(Assemble(Take(obs.nodes, c.atoms), obs.bonds[..c.bonds], obs.angles[..c.angles],
                  obs.dihedrals[..c.dihedrals]))
  }

  function EdgeCount(c: Counts): nat
  {
    c.bonds + c.angles + c.dihedrals
  }

  /** row carries v in column j and zero everywhere else. */
  predicate OnlyColumn(row: seq<real>, j: nat, v: real)
  {
    j < |row| && row[j] == v && forall i :: 0 <= i < |row| && i != j ==> row[i] == 0.0
  }

  /** With E bond, angle and dihedral rows, both index rows have 2E entries:
      row 0 holds the first end of every row followed by their second ends,
      and row 1 is row 0 with its halves swapped, so every edge appears in
      both directions. */
  lemma AssembleEdgeIndex(positions: Table, b: Table, a: Table, d: Table)
    requires RowWidths(b, a, d)
    ensures |Assemble(positions, b, a, d).edgeIndex| == 2
    ensures Assemble(positions, b, a, d).edgeIndex[0] == Longs(EdgeEnds(b, a, d, 0)) + Longs(EdgeEnds(b, a, d, 1))
    ensures Assemble(positions, b, a, d).edgeIndex[1] == Longs(EdgeEnds(b, a, d, 1)) + Longs(EdgeEnds(b, a, d, 0))
    ensures var row0, e := Assemble(positions, b, a, d).edgeIndex[0], |b| + |a| + |d|;
      |row0| == 2 * e && Assemble(positions, b, a, d).edgeIndex[1] == row0[e..] + row0[..e]
  {
    var src, dst := EdgeEnds(b, a, d, 0), EdgeEnds(b, a, d, 1);
    LongsAppend(src, dst);
    LongsAppend(dst, src);
    SwapHalves(Longs(src), Longs(dst));
  }

  lemma LongsAppend(xs: seq<real>, ys: seq<real>)
    ensures Longs(xs + ys) == Longs(xs) + Longs(ys)
  {
  }

  lemma SwapHalves<T>(xs: seq<T>, ys: seq<T>)
    ensures (xs + ys)[|xs|..] + (xs + ys)[..|xs|] == ys + xs
  {
    assert (xs + ys)[|xs|..] == ys;
    assert (xs + ys)[..|xs|] == xs;
  }

  /** The attribute table has 2E rows of 8 columns and row k + E repeats row
      k. Bond rows carry the six flags in columns 0-5; angle rows carry only
      column 6; dihedral rows carry only column 7. */
  lemma AssembleEdgeAttr(positions: Table, b: Table, a: Table, d: Table)
    requires RowWidths(b, a, d)
    ensures
      var attr := Assemble(positions, b, a, d).edgeAttr;
      var e := |b| + |a| + |d|;
      && Rect(attr, 2 * e, EdgeAttrCols)
      && (forall k :: 0 <= k < e ==> attr[e + k] == attr[k])
      && (forall k :: 0 <= k < |b| ==> attr[k][..6] == b[k][2..] && attr[k][6] == 0.0 && attr[k][7] == 0.0)
      && (forall k :: 0 <= k < |a| ==> OnlyColumn(attr[|b| + k], 6, a[k][2]))
      && (forall k :: 0 <= k < |d| ==> OnlyColumn(attr[|b| + |a| + k], 7, d[k][2]))
  {
  }

  /** The slices obsToGraph takes on a successful call have the row widths
      Assemble needs. */
  lemma Slices(obs: Obs)
    requires Shaped(obs) && ObsToGraph(obs).Ok?
    ensures obs.count.bonds <= |obs.bonds| && obs.count.angles <= |obs.angles|
    ensures obs.count.dihedrals <= |obs.dihedrals|
    ensures RowWidths(obs.bonds[..obs.count.bonds], obs.angles[..obs.count.angles],
                      obs.dihedrals[..obs.count.dihedrals])
    ensures ObsToGraph(obs).value == Assemble(Take(obs.nodes, obs.count.atoms), obs.bonds[..obs.count.bonds],
                                              obs.angles[..obs.count.angles], obs.dihedrals[..obs.count.dihedrals])
  {
  }

  /** The graph's nodes, and its positions, are the first count[0] rows of
      the node table (all of it when the count is larger). */
  lemma ObsToGraphNodes(obs: Obs)
    requires Shaped(obs) && ObsToGraph(obs).Ok?
    ensures ObsToGraph(obs).value.x == ObsToGraph(obs).value.pos
    ensures |ObsToGraph(obs).value.x| == (if obs.count.atoms <= NodeRows then obs.count.atoms else NodeRows)
    ensures forall i :: 0 <= i < |ObsToGraph(obs).value.x| ==> ObsToGraph(obs).value.x[i] == obs.nodes[i]
  {
  }

  /** On an observation with E = count[1] + count[2] + count[3]: 2E edges,
      listed forwards in row 0 and with the halves swapped in row 1. */
  lemma ObsToGraphEdges(obs: Obs) returns (row0: seq<int>, row1: seq<int>)
    requires Shaped(obs) && ObsToGraph(obs).Ok?
    ensures ObsToGraph(obs).value.edgeIndex == [row0, row1]
    ensures |row0| == 2 * EdgeCount(obs.count)
    ensures row1 == row0[EdgeCount(obs.count)..] + row0[..EdgeCount(obs.count)]
  {
    var c := obs.count;
    var p := Take(obs.nodes, c.atoms);
    Slices(obs);
    var b, a, d := obs.bonds[..c.bonds], obs.angles[..c.angles], obs.dihedrals[..c.dihedrals];
    AssembleEdgeIndex(p, b, a, d);
    row0, row1 := Assemble(p, b, a, d).edgeIndex[0], Assemble(p, b, a, d).edgeIndex[1];
  }

  /** On an observation with E = count[1] + count[2] + count[3]: 2E
      attribute rows of 8 columns, the second half repeating the first. */
  lemma ObsToGraphAttrs(obs: Obs) returns (attr: Table)
    requires Shaped(obs) && ObsToGraph(obs).Ok?
    ensures ObsToGraph(obs).value.edgeAttr == attr
    ensures Rect(attr, 2 * EdgeCount(obs.count), EdgeAttrCols)
    ensures forall k :: 0 <= k < EdgeCount(obs.count) ==> attr[EdgeCount(obs.count) + k] == attr[k]
  {
    var c := obs.count;
    var p := Take(obs.nodes, c.atoms);
    Slices(obs);
    var b, a, d := obs.bonds[..c.bonds], obs.angles[..c.angles], obs.dihedrals[..c.dihedrals];
    AssembleEdgeAttr(p, b, a, d);
    attr := Assemble(p, b, a, d).edgeAttr;
  }

  /** Bond k becomes edge k, from its begin to its end atom, with its six
      flags as attributes. */
  lemma BondEdgesRoundTrip(positions: seq<Point>, bonds: seq<Bond>, angles: seq<Angle>, torsions: seq<Torsion>,
                            angleDegrees: Angle -> real, dihedralDegrees: Torsion -> real, g: Graph)
    requires RowWidths(BondTable(bonds), AngleTable(angles, angleDegrees), DihedralTable(torsions, dihedralDegrees))
    requires g == Assemble(NodeTable(positions), BondTable(bonds), AngleTable(angles, angleDegrees),
                           DihedralTable(torsions, dihedralDegrees))
    ensures forall k :: 0 <= k < |bonds| ==>
      && g.edgeIndex[0][k] == bonds[k].begin
      && g.edgeIndex[0][|bonds| + |angles| + |torsions| + k] == bonds[k].end
      && g.edgeAttr[k] == BondFlags(bonds[k]) + [0.0, 0.0]
  {
    var b, a, d := BondTable(bonds), AngleTable(angles, angleDegrees), DihedralTable(torsions, dihedralDegrees);
    var src, dst := EdgeEnds(b, a, d, 0), EdgeEnds(b, a, d, 1);
    var attr := EdgeAttrs(b, a, d);
    var e := |bonds| + |angles| + |torsions|;
    assert g.edgeIndex[0] == Longs(src + dst);
    assert g.edgeAttr == attr + attr;
    forall k | 0 <= k < |bonds|
      ensures g.edgeIndex[0][k] == bonds[k].begin
      ensures g.edgeIndex[0][e + k] == bonds[k].end
      ensures g.edgeAttr[k] == BondFlags(bonds[k]) + [0.0, 0.0]
    {
      var row := BondRow(bonds[k]);
      assert b[k] == row;
      assert (src + dst)[k] == src[k] == row[0];
      assert (src + dst)[e + k] == dst[k] == row[1];
      TruncOfInt(bonds[k].begin);
      TruncOfInt(bonds[k].end);
      assert attr[k] == BondAttr(row);
    }
  }

  /** Angle k becomes edge |bonds| + k, between its first and last atom,
      with the angle in units of 180 degrees in attribute column 6. */
  lemma AngleEdgesRoundTrip(positions: seq<Point>, bonds: seq<Bond>, angles: seq<Angle>, torsions: seq<Torsion>,
                            angleDegrees: Angle -> real, dihedralDegrees: Torsion -> real, g: Graph)
    requires RowWidths(BondTable(bonds), AngleTable(angles, angleDegrees), DihedralTable(torsions, dihedralDegrees))
    requires g == Assemble(NodeTable(positions), BondTable(bonds), AngleTable(angles, angleDegrees),
                           DihedralTable(torsions, dihedralDegrees))
    ensures forall k :: 0 <= k < |angles| ==>
      && g.edgeIndex[0][|bonds| + k] == angles[k].first
      && g.edgeIndex[0][|bonds| + |angles| + |torsions| + |bonds| + k] == angles[k].last
      && g.edgeAttr[|bonds| + k] == Repeat(0.0, 6) + [angleDegrees(angles[k]) / 180.0, 0.0]
  {
    var b, a, d := BondTable(bonds), AngleTable(angles, angleDegrees), DihedralTable(torsions, dihedralDegrees);
    var src, dst := EdgeEnds(b, a, d, 0), EdgeEnds(b, a, d, 1);
    var attr := EdgeAttrs(b, a, d);
    var e := |bonds| + |angles| + |torsions|;
    assert g.edgeIndex[0] == Longs(src + dst);
    assert g.edgeAttr == attr + attr;
    forall k | 0 <= k < |angles|
      ensures g.edgeIndex[0][|bonds| + k] == angles[k].first
      ensures g.edgeIndex[0][e + |bonds| + k] == angles[k].last
      ensures g.edgeAttr[|bonds| + k] == Repeat(0.0, 6) + [angleDegrees(angles[k]) / 180.0, 0.0]
    {
      var row := AngleRow(angles[k], angleDegrees(angles[k]));
      assert a[k] == row;
      assert (src + dst)[|bonds| + k] == src[|bonds| + k] == row[0];
      assert (src + dst)[e + |bonds| + k] == dst[|bonds| + k] == row[1];
      TruncOfInt(angles[k].first);
      TruncOfInt(angles[k].last);
      assert attr[|bonds| + k] == AngleAttr(row);
    }
  }

  /** Torsion k becomes edge |bonds| + |angles| + k, between its end atoms
      a and d, with the dihedral in units of 180 degrees in attribute
      column 7. */
  lemma DihedralEdgesRoundTrip(positions: seq<Point>, bonds: seq<Bond>, angles: seq<Angle>, torsions: seq<Torsion>,
                            angleDegrees: Angle -> real, dihedralDegrees: Torsion -> real, g: Graph)
    requires RowWidths(BondTable(bonds), AngleTable(angles, angleDegrees), DihedralTable(torsions, dihedralDegrees))
    requires g == Assemble(NodeTable(positions), BondTable(bonds), AngleTable(angles, angleDegrees),
                           DihedralTable(torsions, dihedralDegrees))
    ensures forall k :: 0 <= k < |torsions| ==>
      && g.edgeIndex[0][|bonds| + |angles| + k] == torsions[k].a
      && g.edgeIndex[0][|bonds| + |angles| + |torsions| + |bonds| + |angles| + k] == torsions[k].d
      && g.edgeAttr[|bonds| + |angles| + k] == Repeat(0.0, 7) + [dihedralDegrees(torsions[k]) / 180.0]
  {
    var b, a, d := BondTable(bonds), AngleTable(angles, angleDegrees), DihedralTable(torsions, dihedralDegrees);
    var src, dst := EdgeEnds(b, a, d, 0), EdgeEnds(b, a, d, 1);
    var attr := EdgeAttrs(b, a, d);
    var e := |bonds| + |angles| + |torsions|;
    assert g.edgeIndex[0] == Longs(src + dst);
    assert g.edgeAttr == attr + attr;
    forall k | 0 <= k < |torsions|
      ensures g.edgeIndex[0][|bonds| + |angles| + k] == torsions[k].a
      ensures g.edgeIndex[0][e + |bonds| + |angles| + k] == torsions[k].d
      ensures g.edgeAttr[|bonds| + |angles| + k] == Repeat(0.0, 7) + [dihedralDegrees(torsions[k]) / 180.0]
    {
      var row := DihedralRow(torsions[k], dihedralDegrees(torsions[k]));
      assert d[k] == row;
      assert (src + dst)[|bonds| + |angles| + k] == src[|bonds| + |angles| + k] == row[0];
      assert (src + dst)[e + |bonds| + |angles| + k] == dst[|bonds| + |angles| + k] == row[1];
      TruncOfInt(torsions[k].a);
      TruncOfInt(torsions[k].d);
      assert attr[|bonds| + |angles| + k] == DihedralAttr(row);
    }
  }

  /** The slices obsToGraph takes from a packed observation are the tables
      that were packed. */
  lemma PackedSlices(positions: seq<Point>, bonds: seq<Bond>, angles: seq<Angle>, torsions: seq<Torsion>,
                     angleDegrees: Angle -> real, dihedralDegrees: Torsion -> real)
    requires |positions| <= NodeRows && |bonds| <= BondRows
    requires |angles| <= AngleRows && |torsions| <= DihedralRows
    ensures GetObs(positions, bonds, angles, torsions, angleDegrees, dihedralDegrees).Ok?
    ensures RowWidths(BondTable(bonds), AngleTable(angles, angleDegrees), DihedralTable(torsions, dihedralDegrees))
    ensures ObsToGraph(GetObs(positions, bonds, angles, torsions, angleDegrees, dihedralDegrees).value)
      == Ok(Assemble(NodeTable(positions), BondTable(bonds), AngleTable(angles, angleDegrees),
                     DihedralTable(torsions, dihedralDegrees)))
  {
    var obs := GetObs(positions, bonds, angles, torsions, angleDegrees, dihedralDegrees).value;
    assert Take(obs.nodes, |positions|) == NodeTable(positions);
    assert obs.bonds[..|bonds|] == BondTable(bonds);
    assert obs.angles[..|angles|] == AngleTable(angles, angleDegrees);
    assert obs.dihedrals[..|torsions|] == DihedralTable(torsions, dihedralDegrees);
  }

  /** Packing then unpacking: the nodes come back as the atom positions, the
      edges as (begin, end) of every bond, (first, last) of every angle and
      (a, d) of every torsion, then the same edges reversed, and each edge's
      attributes as its bond flags, its angle or its dihedral. */
  lemma PackThenUnpack(positions: seq<Point>, bonds: seq<Bond>, angles: seq<Angle>, torsions: seq<Torsion>,
                       angleDegrees: Angle -> real, dihedralDegrees: Torsion -> real) returns (g: Graph)
    requires |positions| <= NodeRows && |bonds| <= BondRows
    requires |angles| <= AngleRows && |torsions| <= DihedralRows
    ensures GetObs(positions, bonds, angles, torsions, angleDegrees, dihedralDegrees).Ok?
    ensures ObsToGraph(GetObs(positions, bonds, angles, torsions, angleDegrees, dihedralDegrees).value) == Ok(g)
    ensures g.x == NodeTable(positions)
    ensures forall k :: 0 <= k < |bonds| ==>
      && g.edgeIndex[0][k] == bonds[k].begin
      && g.edgeIndex[0][|bonds| + |angles| + |torsions| + k] == bonds[k].end
      && g.edgeAttr[k] == BondFlags(bonds[k]) + [0.0, 0.0]
    ensures forall k :: 0 <= k < |angles| ==>
      && g.edgeIndex[0][|bonds| + k] == angles[k].first
      && g.edgeIndex[0][|bonds| + |angles| + |torsions| + |bonds| + k] == angles[k].last
      && g.edgeAttr[|bonds| + k] == Repeat(0.0, 6) + [angleDegrees(angles[k]) / 180.0, 0.0]
    ensures forall k :: 0 <= k < |torsions| ==>
      && g.edgeIndex[0][|bonds| + |angles| + k] == torsions[k].a
      && g.edgeIndex[0][|bonds| + |angles| + |torsions| + |bonds| + |angles| + k] == torsions[k].d
      && g.edgeAttr[|bonds| + |angles| + k] == Repeat(0.0, 7) + [dihedralDegrees(torsions[k]) / 180.0]
  {
    PackedSlices(positions, bonds, angles, torsions, angleDegrees, dihedralDegrees);
    g := Assemble(NodeTable(positions), BondTable(bonds), AngleTable(angles, angleDegrees),
                  DihedralTable(torsions, dihedralDegrees));
    BondEdgesRoundTrip(positions, bonds, angles, torsions, angleDegrees, dihedralDegrees, g);
    AngleEdgesRoundTrip(positions, bonds, angles, torsions, angleDegrees, dihedralDegrees, g);
    DihedralEdgesRoundTrip(positions, bonds, angles, torsions, angleDegrees, dihedralDegrees, g);
  }
}
