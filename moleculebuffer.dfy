/** The `MoleculeGeometry` record of the source with its fixed-size buffers,
    and the builders that fill it in place.  Every method is proved to leave
    the buffers holding exactly the value the matching function of `Molecule`
    computes from the old contents, so the properties proved there hold of
    the buffers too. */
module MoleculeBuffer {
  import M = Molecule

  class MoleculeGeometry {
    const atomPos: array<M.Vec3>
    const atomLabel: array<M.Label>
    const bonds: array<M.Bond>
    var atomCount: int
    var bondCount: int

    /** The buffers have the source's capacities and the counts lie within them. */
    ghost predicate Valid()
      reads this
    {
      atomPos.Length == M.MaxAtoms && atomLabel.Length == M.MaxAtoms && bonds.Length == M.MaxBonds
      && 0 <= atomCount <= M.MaxAtoms && 0 <= bondCount <= M.MaxBonds
    }

    /** The used prefixes of the three buffers. */
    ghost function Contents(): (g: M.Geometry)
      requires Valid()
      reads this, atomPos, atomLabel, bonds
      ensures M.Consistent(g) && M.Bounded(g)
    {
      M.Geometry(atomPos[..atomCount], atomLabel[..atomCount], bonds[..bondCount])
    }

    /** A zero-initialised record: both counts 0. */
    constructor ()
      ensures Valid() && Contents() == M.Empty
      ensures fresh(atomPos) && fresh(atomLabel) && fresh(bonds)
    {
      atomPos := new M.Vec3[M.MaxAtoms](_ => M.Vec3(0.0, 0.0, 0.0));
      atomLabel := new M.Label[M.MaxAtoms](_ => M.Carbon);
      bonds := new M.Bond[M.MaxBonds](_ => M.Bond(0, 0, 0));
      atomCount := 0;
      bondCount := 0;
    }

    /** `add_atom`. */
    method AddAtom(p: M.Vec3, l: M.Label)
      requires Valid()
      modifies this, atomPos, atomLabel
      ensures Valid() && Contents() == M.AddAtom(old(Contents()), p, l)
    {
      if atomCount >= M.MaxAtoms {
        return;
      }
      atomPos[atomCount] := p;
      atomLabel[atomCount] := l;
      atomCount := atomCount + 1;
    }

    /** `add_bond`. */
    method AddBond(a: int, b: int, order: int)
      requires Valid()
      modifies this, bonds
      ensures Valid() && Contents() == M.AddBond(old(Contents()), a, b, order)
    {
      if bondCount >= M.MaxBonds {
        return;
      }
      bonds[bondCount] := M.Bond(a, b, order);
      bondCount := bondCount + 1;
    }

    /** One ring of `build_steroid_core`: its atom loop, then its bond loop. */
    method AddRing(ring: M.Ring, circle: M.Circle)
      requires Valid() && ring.n > 0
      modifies this, atomPos, atomLabel, bonds
      ensures Valid() && Contents() == M.AddRing(old(Contents()), ring, circle)
    {
      var base := atomCount;
      AddRingAtoms(ring, circle);
      AddRingBonds(base, ring.n);
    }

    /** The atom loop of a ring: one carbon per vertex. */
    method AddRingAtoms(ring: M.Ring, circle: M.Circle)
      requires Valid()
      modifies this, atomPos, atomLabel
      ensures Valid() && Contents() == M.RingAtoms(old(Contents()), ring, circle, ring.n)
    {
      ghost var g0 := Contents();
      var i := 0;
      while i < ring.n
        invariant 0 <= i <= ring.n
        invariant Valid() && Contents() == M.RingAtoms(g0, ring, circle, i)
      {
        AddAtom(M.RingPoint(ring, i, circle), M.Carbon);
        i := i + 1;
      }
    }

    /** The bond loop of a ring whose atoms start at `base`: vertex `i` to
        vertex `(i + 1) % n`. */
    method AddRingBonds(base: int, n: nat)
      requires Valid() && n > 0
      modifies this, bonds
      ensures Valid() && Contents() == M.RingBonds(old(Contents()), base, n, n)
    {
      ghost var g0 := Contents();
      var i := 0;
      while i < n
        invariant 0 <= i <= n
        invariant Valid() && Contents() == M.RingBonds(g0, base, n, i)
      {
        ghost var b := M.RingBondAt(base, n, i);
        AddBond(base + i, base + (i + 1) % n, 1);
        assert Contents() == M.AddBond(M.RingBonds(g0, base, n, i), b.from, b.to, 1);
        i := i + 1;
      }
    }

    /** A ring after the first: its atom and bond loops, then its two fusion
        bonds to the ring whose atoms start at `prevBase`. */
    method AddFusedRing(ring: M.Ring, circle: M.Circle, prevBase: int, k1: int, k2: int)
      requires Valid() && ring.n > 0
      modifies this, atomPos, atomLabel, bonds
      ensures Valid() && Contents() == M.FusedRing(old(Contents()), ring, circle, prevBase, k1, k2)
    {
      var base := atomCount;
      AddRing(ring, circle);
      AddBond(prevBase + 1, base + k1, 1);
      AddBond(prevBase + 2, base + k2, 1);
    }

    /** The four rings of `build_steroid_core` into emptied buffers, each
        ring after the first fused to the one before. */
    method AddRings(ra: M.Ring, rb: M.Ring, rc: M.Ring, rd: M.Ring, circle: M.Circle)
      requires Valid() && Contents() == M.Empty
      requires ra.n > 0 && rb.n > 0 && rc.n > 0 && rd.n > 0
      modifies this, atomPos, atomLabel, bonds
      ensures Valid() && Contents() == M.Nucleus(ra, rb, rc, rd, circle)
    {
      var baseA := atomCount;
      AddRing(ra, circle);
      var baseB := atomCount;
      AddFusedRing(rb, circle, baseA, 4, 5);
      var baseC := atomCount;
      AddFusedRing(rc, circle, baseB, 3, 4);
      AddFusedRing(rd, circle, baseC, 3, 4);
    }

    /** `build_steroid_core`: both counts reset, then rings A to D.  The
        result does not depend on the prior contents. */
    method BuildSteroidCore(circle: M.Circle)
      requires Valid()
      modifies this, atomPos, atomLabel, bonds
      ensures Valid() && Contents() == M.SteroidCore(circle)
    {
      atomCount := 0;
      bondCount := 0;
      AddRings(M.RingA, M.RingB, M.RingC, M.RingD, circle);
      M.NucleusIsCore(circle);
    }

    /** `add_ester_tail`: each iteration adds one carbon offset from the
        attach atom and bonds it to the previous chain atom. */
    method AddEsterTail(attach: int, segmentCount: nat, wiggle: real)
      requires Valid() && 0 <= attach < atomCount
      modifies this, atomPos, atomLabel, bonds
      ensures Valid() && Contents() == M.EsterTail(old(Contents()), attach, segmentCount, wiggle)
    {
      ghost var g0 := Contents();
      var previous := attach;
      var i := 0;
      while i < segmentCount
        invariant 0 <= i <= segmentCount
        invariant Valid() && 0 <= attach < atomCount
        invariant Contents() == M.EsterTail(g0, attach, i, wiggle)
        invariant previous == if i == 0 then attach else atomCount - 1
      {
        previous := TailSegment(attach, i, previous, wiggle);
        i := i + 1;
      }
    }

    /** Iteration `i` of the tail loop; returns the new `previous`. */
    method TailSegment(attach: int, i: int, previous: int, wiggle: real) returns (current: int)
      requires Valid() && 0 <= attach < atomCount
      requires previous == if i == 0 then attach else atomCount - 1
      modifies this, atomPos, atomLabel, bonds
      ensures Valid() && Contents() == M.TailSegment(old(Contents()), attach, i, wiggle)
      ensures current == atomCount - 1
    {
      ghost var g := Contents();
      var base := atomPos[attach];
      assert base == g.pos[attach];
      var next := M.Vec3(base.x + (i + 1) as real * 1.1, base.y - 0.4 * i as real, base.z + wiggle * i as real);
      assert next == M.TailPoint(g.pos[attach], i, wiggle);
      AddAtom(next, M.Carbon);
      ghost var g1 := Contents();
      assert g1 == M.AddAtom(g, M.TailPoint(g.pos[attach], i, wiggle), M.Carbon);
      current := atomCount - 1;
      assert previous == (if i == 0 then attach else |g.pos| - 1);
      AddBond(previous, current, 1);
    }

    /** The `add_atom` + `add_bond(at, atomCount - 1, order)` pair each
        substituent clause of `apply_preset` performs. */
    method AddSubstituent(at: int, offset: M.Vec3, l: M.Label, order: int)
      requires Valid() && 0 <= at < atomCount
      modifies this, atomPos, atomLabel, bonds
      ensures Valid() && Contents() == M.Substituent(old(Contents()), at, offset, l, order)
      ensures old(atomCount) <= atomCount
    {
      AddAtom(M.Plus(atomPos[at], offset), l);
      AddBond(at, atomCount - 1, order);
    }

    /** The bond-order promotion of presets 3 and 5, in place. */
    method PromoteBonds(presetType: int)
      requires Valid()
      modifies bonds
      ensures Valid() && Contents() == M.Promote(presetType, old(Contents()))
      ensures atomCount == old(atomCount)
    {
      if presetType == 3 || presetType == 5 {
        if bondCount > 10 {
          bonds[3] := bonds[3].(order := 2);
          bonds[8] := bonds[8].(order := 2);
        }
        if presetType == 3 && bondCount > 15 {
          bonds[12] := bonds[12].(order := 2);
        }
      }
    }

    /** `apply_preset`: the nucleus, the two common oxygens, and the clauses
        of the recipe in the source's order.  The prior contents do not
        matter. */
    method ApplyPreset(presetType: int, circle: M.Circle)
      requires Valid()
      modifies this, atomPos, atomLabel, bonds
      ensures Valid() && Contents() == M.ApplyPreset(presetType, circle)
    {
      BuildBase(circle);
      AddTails(presetType);
      if presetType == 6 || presetType == 16 || presetType == 17 {
        AddSubstituent(5, M.Vec3(-1.2, 0.6, 0.2), M.Carbon, 1);
      }
      PromoteBonds(presetType);
      AddHeteroSubstituents(presetType);
      AddRingBSubstituents(presetType);
    }

    /** The nucleus and the two oxygens every preset starts with. */
    method BuildBase(circle: M.Circle)
      requires Valid()
      modifies this, atomPos, atomLabel, bonds
      ensures Valid() && Contents() == M.Base(circle) && atomCount == 24
    {
      BuildSteroidCore(circle);
      M.SteroidCoreCounts(circle);
      AddCommonSubstituents();
      M.BaseStage(circle);
    }

    /** The hydroxyl and carbonyl oxygens every preset receives. */
    method AddCommonSubstituents()
      requires Valid() && M.AttachCarbonyl < atomCount
      modifies this, atomPos, atomLabel, bonds
      ensures Valid() && Contents() == M.CommonSubstituents(old(Contents()))
      ensures old(atomCount) <= atomCount
    {
      AddSubstituent(M.AttachHydroxyl, M.Vec3(-0.2, 1.4, 0.8), M.Oxygen, 1);
      AddSubstituent(M.AttachCarbonyl, M.Vec3(0.3, -1.2, -0.6), M.Oxygen, 2);
    }

    /** One ester-tail clause: the tail is added when `cond` holds. */
    method TailClause(cond: bool, segmentCount: nat, wiggle: real)
      requires Valid() && M.AttachEster < atomCount
      modifies this, atomPos, atomLabel, bonds
      ensures Valid() && Contents() == M.TailIf(cond, old(Contents()), segmentCount, wiggle)
      ensures old(atomCount) <= atomCount
    {
      if cond { AddEsterTail(M.AttachEster, segmentCount, wiggle); }
    }

    /** The four ester-tail clauses. */
    method AddTails(presetType: int)
      requires Valid() && M.AttachEster < atomCount
      modifies this, atomPos, atomLabel, bonds
      ensures Valid() && Contents() == M.Tails(presetType, old(Contents()))
      ensures old(atomCount) <= atomCount
    {
      TailClause(presetType == 1, 6, 0.10);
      TailClause(presetType == 2, 7, -0.05);
      TailClause(presetType == 18, 3, 0.05);
      TailClause(presetType == 19, 3, -0.06);
    }

    /** The nitrogen, chlorine and fluorine clauses. */
    method AddHeteroSubstituents(presetType: int)
      requires Valid() && 9 < atomCount
      modifies this, atomPos, atomLabel, bonds
      ensures Valid() && Contents() == M.HeteroSubstituents(presetType, old(Contents()))
      ensures old(atomCount) <= atomCount
    {
      if presetType == 8 { AddSubstituent(0, M.Vec3(-1.6, 0.2, 0.0), M.Nitrogen, 1); }
      if presetType == 12 || presetType == 17 { AddSubstituent(1, M.Vec3(-1.2, 1.0, 0.1), M.Chlorine, 1); }
      if presetType == 13 { AddSubstituent(9, M.Vec3(1.1, 0.8, -0.2), M.Fluorine, 1); }
    }

    /** The three clauses on atoms of ring B. */
    method AddRingBSubstituents(presetType: int)
      requires Valid() && 11 < atomCount
      modifies this, atomPos, atomLabel, bonds
      ensures Valid() && Contents() == M.RingBSubstituents(presetType, old(Contents()))
    {
      if presetType == 7 || presetType == 9 { AddSubstituent(10, M.Vec3(0.2, 1.1, -0.4), M.Oxygen, 1); }
      if presetType == 4 || presetType == 10 || presetType == 14 || presetType == 15 {
        AddSubstituent(11, M.Vec3(0.9, -0.9, 0.3), M.Carbon, 1);
      }
      if presetType == 11 { AddSubstituent(6, M.Vec3(0.7, 1.0, 0.0), M.Carbon, 1); }
    }
  }
}
