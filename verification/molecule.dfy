/** The parts of an RDKit molecule that the environment reads: its bond list
    (atom indices, bond order, conjugation and ring membership) and the
    rotatable torsions, each given by four atom indices. */
module Molecule {

  /** RDKit bond orders the observation distinguishes; every other order
      (dative, zero, ...) sets none of the four type flags. */
  datatype BondKind = Single | Double | TripleBond | Aromatic | OtherKind

  datatype Bond = Bond(begin: nat, end: nat, kind: BondKind, conjugated: bool, inRing: bool)

  /** A torsion (dihedral) a-b-c-d, rotated about the bond b-c. */
  datatype Torsion = Torsion(a: nat, b: nat, c: nat, d: nat)

  /** No non-ring bond joins an atom to itself (RDKit never builds such a bond). */
  ghost predicate NoSelfLoops(bonds: seq<Bond>)
  {
    forall j :: 0 <= j < |bonds| && !bonds[j].inRing ==> bonds[j].begin != bonds[j].end
  }

  /** Bond b joins atoms x and y, in either direction. */
  predicate Joins(b: Bond, x: nat, y: nat)
  {
    (b.begin == x && b.end == y) || (b.begin == y && b.end == x)
  }

  /** Atoms x and c are joined by some non-ring bond of the list. */
  ghost predicate Adjacent(bonds: seq<Bond>, x: nat, c: nat)
  {
    exists j :: 0 <= j < |bonds| && !bonds[j].inRing && Joins(bonds[j], x, c)
  }

  lemma AdjacentSnoc(bonds: seq<Bond>, b: Bond, x: nat, c: nat)
    ensures Adjacent(bonds + [b], x, c) <==> Adjacent(bonds, x, c) || (!b.inRing && Joins(b, x, c))
  {
    var all := bonds + [b];
    if Adjacent(all, x, c) {
      var j :| 0 <= j < |all| && !all[j].inRing && Joins(all[j], x, c);
      if j < |bonds| {
        assert bonds[j] == all[j];
      }
    }
    if Adjacent(bonds, x, c) {
      var j :| 0 <= j < |bonds| && !bonds[j].inRing && Joins(bonds[j], x, c);
      assert all[j] == bonds[j];
    }
    if !b.inRing && Joins(b, x, c) {
      assert all[|bonds|] == b;
    }
  }
}
