/** getAngles (gymspace.py): enumerate the bond angles a-centre-b of a
    molecule from its bond list, skipping ring bonds. The scan keeps a map
    from each atom to the neighbours it has been linked to so far (bondDict)
    and a set of angles, each stored with its smaller outer atom first.

    As written, the end atom of a bond is only linked to the begin atom when
    it already has a neighbour list (there is no `else` after the second
    membership test), so the scan is sound but misses angles. The corrected
    scan links both ends and finds exactly the angles of the molecule. */
module Angles {
  import opened Molecule

  /** Atoms first-centre-last, with first < last in every angle the scan stores. */
  datatype Angle = Angle(first: nat, centre: nat, last: nat)

  /** The loop state of getAngles: bondDict and the angle set. */
  datatype Scan = Scan(adj: map<nat, seq<nat>>, found: set<Angle>)

  const EmptyScan := Scan(map[], {})

  /** The angle x-centre-y with the smaller outer atom first. */
  function Oriented(x: nat, centre: nat, y: nat): Angle
  {
    if x < y then Angle(x, centre, y) else Angle(y, centre, x)
  }

  /** The angles that the earlier neighbours nbrs of centre make with a new
      neighbour other; a neighbour equal to centre or to other is skipped. */
  function Around(nbrs: seq<nat>, centre: nat, other: nat): set<Angle>
  {
    set atom | atom in nbrs && atom != centre && atom != other :: Oriented(atom, centre, other)
  }

  function Neighbours(adj: map<nat, seq<nat>>, c: nat): seq<nat>
  {
    if c in adj then adj[c] else []
  }

  /** centre already has a list: add the angles it closes, then append other. */
  function Attach(s: Scan, centre: nat, other: nat): Scan
    requires centre in s.adj
  {
    Scan(s.adj[centre := s.adj[centre] + [other]], s.found + Around(s.adj[centre], centre, other))
  }

  /** centre has no list yet: start one holding other. */
  function Start(s: Scan, centre: nat, other: nat): Scan
  {
    Scan(s.adj[centre := [other]], s.found)
  }

  function Link(s: Scan, centre: nat, other: nat): Scan
  {
    if centre in s.adj then Attach(s, centre, other) else Start(s, centre, other)
  }

  /** One iteration of the bond loop as written: the begin atom is linked
      either way, the end atom only when it already has a list. */
  function Visit(s: Scan, b: Bond): Scan
  {
    if b.inRing then s
    else
      var s1 := Link(s, b.begin, b.end);
      if b.end in s1.adj then Attach(s1, b.end, b.begin) else s1
  }

  function ScanBonds(bonds: seq<Bond>): Scan
  {
    if |bonds| == 0 then EmptyScan
    else Visit(ScanBonds(bonds[..|bonds| - 1]), bonds[|bonds| - 1])
  }

  /** The set getAngles converts to a list. */
  function AngleSet(bonds: seq<Bond>): set<Angle>
  {
    ScanBonds(bonds).found
  }

  /** t is a bond angle of the molecule: two distinct outer atoms, each
      joined to the centre by a non-ring bond, smaller one first. */
  ghost predicate IsAngle(bonds: seq<Bond>, t: Angle)
  {
    && t.first < t.last
    && t.first != t.centre && t.last != t.centre
    && Adjacent(bonds, t.first, t.centre)
    && Adjacent(bonds, t.last, t.centre)
  }

  predicate Linked(adj: map<nat, seq<nat>>, x: nat, c: nat)
  {
    c in adj && x in adj[c]
  }

  lemma LinkFacts(s: Scan, centre: nat, other: nat)
    ensures forall x, c :: Linked(Link(s, centre, other).adj, x, c) <==>
                           Linked(s.adj, x, c) || (c == centre && x == other)
    ensures Link(s, centre, other).found == s.found + Around(Neighbours(s.adj, centre), centre, other)
  {
    assert Around([], centre, other) == {};
  }

  lemma AroundMembers(nbrs: seq<nat>, centre: nat, other: nat)
    ensures forall t :: t in Around(nbrs, centre, other) ==>
      && t.centre == centre && t.first < t.last
      && (t.first == other || t.first in nbrs)
      && (t.last == other || t.last in nbrs)
      && (other != centre ==> t.first != centre && t.last != centre)
  {
    forall t | t in Around(nbrs, centre, other)
      ensures t.centre == centre && t.first < t.last
      ensures t.first == other || t.first in nbrs
      ensures t.last == other || t.last in nbrs
      ensures other != centre ==> t.first != centre && t.last != centre
    {
      var atom :| atom in nbrs && atom != centre && atom != other && t == Oriented(atom, centre, other);
    }
  }

  // ---------------------------------------------------------------------
  // Soundness of the scan as written

  /** Every link and every stored angle is backed by the processed bonds. */
  ghost predicate Sound(bonds: seq<Bond>, s: Scan)
  {
    && (forall x, c :: Linked(s.adj, x, c) ==> Adjacent(bonds, x, c))
    && (forall t :: t in s.found ==>
          t.first < t.last && Adjacent(bonds, t.first, t.centre) && Adjacent(bonds, t.last, t.centre))
    && (NoSelfLoops(bonds) ==> forall t :: t in s.found ==> t.first != t.centre && t.last != t.centre)
  }

  lemma LinkSound(bonds: seq<Bond>, s: Scan, centre: nat, other: nat)
    requires Sound(bonds, s)
    requires Adjacent(bonds, other, centre) && Adjacent(bonds, centre, other)
    requires NoSelfLoops(bonds) ==> centre != other
    ensures Sound(bonds, Link(s, centre, other))
  {
    LinkFacts(s, centre, other);
    AroundMembers(Neighbours(s.adj, centre), centre, other);
  }

  lemma {:induction false} VisitSound(bonds: seq<Bond>, s: Scan, b: Bond)
    requires Sound(bonds, s)
    ensures Sound(bonds + [b], Visit(s, b))
  {
    var all := bonds + [b];
    forall x, c ensures Adjacent(all, x, c) <==> Adjacent(bonds, x, c) || (!b.inRing && Joins(b, x, c)) {
      AdjacentSnoc(bonds, b, x, c);
    }
    assert NoSelfLoops(all) ==> NoSelfLoops(bonds) by {
      if NoSelfLoops(all) {
        forall j | 0 <= j < |bonds| && !bonds[j].inRing ensures bonds[j].begin != bonds[j].end {
          assert all[j] == bonds[j];
        }
      }
    }
    assert NoSelfLoops(all) && !b.inRing ==> b.begin != b.end by {
      if NoSelfLoops(all) && !b.inRing {
        assert all[|bonds|] == b;
      }
    }
    assert Sound(all, s);
    if !b.inRing {
      LinkSound(all, s, b.begin, b.end);
      var s1 := Link(s, b.begin, b.end);
      if b.end in s1.adj {
        assert Link(s1, b.end, b.begin) == Attach(s1, b.end, b.begin);
        LinkSound(all, s1, b.end, b.begin);
      }
    }
  }

  lemma {:induction false} ScanSound(bonds: seq<Bond>)
    ensures Sound(bonds, ScanBonds(bonds))
    decreases |bonds|
  {
    if |bonds| > 0 {
      var init := bonds[..|bonds| - 1];
      ScanSound(init);
      VisitSound(init, ScanBonds(init), bonds[|bonds| - 1]);
      assert init + [bonds[|bonds| - 1]] == bonds;
    }
  }

  /** Every angle the scan stores is a real bond angle: its outer atoms are
      ordered, differ from the centre, and are bonded to it by non-ring
      bonds already processed (so the centre is an endpoint of one). */
  lemma AngleSetSound(bonds: seq<Bond>)
    requires NoSelfLoops(bonds)
    ensures forall t :: t in AngleSet(bonds) ==> IsAngle(bonds, t)
  {
    ScanSound(bonds);
  }

  /** Without the guarantee that no bond joins an atom to itself the centre
      can repeat an outer atom: the self-bond 0-0 after 0-1 stores 0-0-1. */
  lemma SelfLoopRepeatsCentre()
    ensures Angle(0, 0, 1) in AngleSet([Bond(0, 1, Single, false, false), Bond(0, 0, Single, false, false)])
  {
    var b0 := Bond(0, 1, Single, false, false);
    var b1 := Bond(0, 0, Single, false, false);
    var bonds := [b0, b1];
    assert bonds[..1] == [b0];
    assert [b0][..0] == [];
    assert ScanBonds([b0]) == Scan(map[0 := [1]], {});
    assert Oriented(1, 0, 0) == Angle(0, 0, 1);
  }

  // ---------------------------------------------------------------------
  // Ring bonds

  /** The non-ring bonds, in order: every non-ring bond is kept as often as
      it occurs, and no ring bond is (NonRingPrefix gives the order). */
  function NonRing(bonds: seq<Bond>): (r: seq<Bond>)
    ensures forall j :: 0 <= j < |r| ==> !r[j].inRing
    ensures forall b :: multiset(r)[b] == if b.inRing then 0 else multiset(bonds)[b]
    ensures |r| <= |bonds|
  {
    if |bonds| == 0 then []
    else
      var init, b := bonds[..|bonds| - 1], bonds[|bonds| - 1];
      assert bonds == init + [b];
      if b.inRing then NonRing(init) else NonRing(init) + [b]
  }

  /** The non-ring bonds of a prefix of the list come first, in the same
      order, among the non-ring bonds of the whole list. */
  lemma {:induction false} NonRingPrefix(bonds: seq<Bond>, k: nat)
    requires k <= |bonds|
    ensures NonRing(bonds[..k]) <= NonRing(bonds)
    decreases |bonds|
  {
    if k < |bonds| {
      var init := bonds[..|bonds| - 1];
      assert init[..k] == bonds[..k];
      NonRingPrefix(init, k);
    } else {
      assert bonds[..k] == bonds;
    }
  }

  /** Ring bonds neither add angles nor change the neighbour lists: the scan
      of a bond list equals the scan of its non-ring bonds alone. */
  lemma {:induction false} RingBondsIgnored(bonds: seq<Bond>)
    ensures ScanBonds(bonds) == ScanBonds(NonRing(bonds))
    decreases |bonds|
  {
    if |bonds| > 0 {
      var init := bonds[..|bonds| - 1];
      var b := bonds[|bonds| - 1];
      RingBondsIgnored(init);
      if !b.inRing {
        var nr := NonRing(init) + [b];
        assert nr[..|nr| - 1] == NonRing(init);
      }
    }
  }

  // ---------------------------------------------------------------------
  // What the scan as written misses

  /** For the chain 0-1-2 listed as bonds 0-1 then 1-2, atom 1 is only ever
      linked to 2, so the angle 0-1-2 is never stored. */
  lemma MissedChainAngle()
    ensures var bonds := [Bond(0, 1, Single, false, false), Bond(1, 2, Single, false, false)];
      IsAngle(bonds, Angle(0, 1, 2)) && AngleSet(bonds) == {}
  {
    var b0 := Bond(0, 1, Single, false, false);
    var b1 := Bond(1, 2, Single, false, false);
    var bonds := [b0, b1];
    assert bonds[..1] == [b0];
    assert [b0][..0] == [];
    assert ScanBonds([b0]) == Scan(map[0 := [1]], {});
    assert Adjacent(bonds, 0, 1) by { assert Joins(bonds[0], 0, 1); }
    assert Adjacent(bonds, 2, 1) by { assert Joins(bonds[1], 2, 1); }
  }

  // ---------------------------------------------------------------------
  // The corrected scan: both ends of every non-ring bond are linked

  function VisitFixed(s: Scan, b: Bond): Scan
  {
    if b.inRing then s else Link(Link(s, b.begin, b.end), b.end, b.begin)
  }

  function ScanBondsFixed(bonds: seq<Bond>): Scan
  {
    if |bonds| == 0 then EmptyScan
    else VisitFixed(ScanBondsFixed(bonds[..|bonds| - 1]), bonds[|bonds| - 1])
  }

  function AngleSetFixed(bonds: seq<Bond>): set<Angle>
  {
    ScanBondsFixed(bonds).found
  }

  /** The links are exactly the bonds seen and the angles exactly the bond
      angles they form. */
  ghost predicate Exact(bonds: seq<Bond>, s: Scan)
  {
    && (forall x, c :: Linked(s.adj, x, c) <==> Adjacent(bonds, x, c))
    && (forall t :: t in s.found <==> IsAngle(bonds, t))
  }

  /** The angles a new bond b = u-v adds are those whose one arm is b and
      whose other arm is an earlier neighbour of u (centre u) or of v. */
  lemma NewAngles(bonds: seq<Bond>, b: Bond, t: Angle)
    requires !b.inRing && b.begin != b.end
    ensures IsAngle(bonds + [b], t) <==>
      || IsAngle(bonds, t)
      || (t.centre == b.begin && exists x :: Adjacent(bonds, x, b.begin) && x != b.begin && x != b.end
                                           && t == Oriented(x, b.begin, b.end))
      || (t.centre == b.end && exists x :: Adjacent(bonds, x, b.end) && x != b.end && x != b.begin
                                         && t == Oriented(x, b.end, b.begin))
  {
    var all := bonds + [b];
    var u, v := b.begin, b.end;
    forall x, c ensures Adjacent(all, x, c) <==> Adjacent(bonds, x, c) || Joins(b, x, c) {
      AdjacentSnoc(bonds, b, x, c);
    }
    if IsAngle(all, t) && !IsAngle(bonds, t) {
      if !Adjacent(bonds, t.first, t.centre) {
        assert Joins(b, t.first, t.centre);
        if t.centre == u {
          assert t.first == v;
          assert Adjacent(bonds, t.last, u);
          assert t == Oriented(t.last, u, v);
        } else {
          assert t.centre == v && t.first == u;
          assert Adjacent(bonds, t.last, v);
          assert t == Oriented(t.last, v, u);
        }
      } else {
        assert Joins(b, t.last, t.centre);
        if t.centre == u {
          assert t == Oriented(t.first, u, v);
        } else {
          assert t == Oriented(t.first, v, u);
        }
      }
    }
  }

  lemma {:induction false} VisitFixedExact(bonds: seq<Bond>, s: Scan, b: Bond)
    requires Exact(bonds, s)
    requires !b.inRing ==> b.begin != b.end
    ensures Exact(bonds + [b], VisitFixed(s, b))
  {
    var all := bonds + [b];
    forall x, c ensures Adjacent(all, x, c) <==> Adjacent(bonds, x, c) || (!b.inRing && Joins(b, x, c)) {
      AdjacentSnoc(bonds, b, x, c);
    }
    if b.inRing {
      forall t ensures IsAngle(all, t) <==> IsAngle(bonds, t) { }
    } else {
      var u, v := b.begin, b.end;
      var s1 := Link(s, u, v);
      var s2 := Link(s1, v, u);
      LinkFacts(s, u, v);
      LinkFacts(s1, v, u);
      assert Neighbours(s1.adj, v) == Neighbours(s.adj, v);
      forall t ensures t in s2.found <==> IsAngle(all, t) {
        NewAngles(bonds, b, t);
        var nu, nv := Neighbours(s.adj, u), Neighbours(s.adj, v);
        if t in Around(nu, u, v) {
          var x :| x in nu && x != u && x != v && t == Oriented(x, u, v);
          assert Linked(s.adj, x, u);
        }
        if t in Around(nv, v, u) {
          var x :| x in nv && x != v && x != u && t == Oriented(x, v, u);
          assert Linked(s.adj, x, v);
        }
        if t.centre == u && exists x :: Adjacent(bonds, x, u) && x != u && x != v && t == Oriented(x, u, v) {
          var x :| Adjacent(bonds, x, u) && x != u && x != v && t == Oriented(x, u, v);
          assert Linked(s.adj, x, u);
          assert t in Around(nu, u, v);
        }
        if t.centre == v && exists x :: Adjacent(bonds, x, v) && x != v && x != u && t == Oriented(x, v, u) {
          var x :| Adjacent(bonds, x, v) && x != v && x != u && t == Oriented(x, v, u);
          assert Linked(s.adj, x, v);
          assert t in Around(nv, v, u);
        }
      }
    }
  }

  lemma {:induction false} ScanFixedExact(bonds: seq<Bond>)
    requires NoSelfLoops(bonds)
    ensures Exact(bonds, ScanBondsFixed(bonds))
    decreases |bonds|
  {
    if |bonds| == 0 {
      forall t ensures !IsAngle(bonds, t) { }
    } else {
      var init := bonds[..|bonds| - 1];
      var b := bonds[|bonds| - 1];
      assert init + [b] == bonds;
      assert NoSelfLoops(init) by {
        forall j | 0 <= j < |init| && !init[j].inRing ensures init[j].begin != init[j].end {
          assert init[j] == bonds[j];
        }
      }
      ScanFixedExact(init);
      VisitFixedExact(init, ScanBondsFixed(init), b);
    }
  }

  /** The corrected scan stores a triple iff it is a bond angle of the
      molecule: the promise of getAngles' own comment. */
  lemma FixedScanComplete(bonds: seq<Bond>)
    requires NoSelfLoops(bonds)
    ensures forall t :: t in AngleSetFixed(bonds) <==> IsAngle(bonds, t)
  {
    ScanFixedExact(bonds);
  }

  /** The scan as written finds a subset of what the corrected scan finds. */
  lemma AsWrittenWithinFixed(bonds: seq<Bond>)
    requires NoSelfLoops(bonds)
    ensures AngleSet(bonds) <= AngleSetFixed(bonds)
  {
    AngleSetSound(bonds);
    FixedScanComplete(bonds);
  }

  // ---------------------------------------------------------------------
  // list(angles)

  /** getAngles: the angle set as a list, each angle once, in no particular
      order. */
  method GetAngles(bonds: seq<Bond>) returns (angles: seq<Angle>)
    ensures forall t :: t in angles <==> t in AngleSet(bonds)
    ensures forall i, j :: 0 <= i < j < |angles| ==> angles[i] != angles[j]
    ensures forall k :: 0 <= k < |angles| ==> angles[k].first < angles[k].last
    ensures NoSelfLoops(bonds) ==>
      forall k :: 0 <= k < |angles| ==> IsAngle(bonds, angles[k])
  {
    ScanSound(bonds);
    var rest := AngleSet(bonds);
    angles := [];
    while rest != {}
      invariant forall t :: t in AngleSet(bonds) <==> t in angles || t in rest
      invariant forall t :: t in angles ==> t !in rest
      invariant forall i, j :: 0 <= i < j < |angles| ==> angles[i] != angles[j]
      decreases rest
    {
      var t :| t in rest;
      angles := angles + [t];
      rest := rest - {t};
    }
  }
}
