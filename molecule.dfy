/** Value model of the molecule geometry that `apply_preset` builds: the atom
    and bond buffers, the capacity policy of `add_atom`/`add_bond`, the four-ring
    nucleus, the ester tail and the per-preset recipe.  Each operation is a
    function from the old contents to the new contents; the class in
    `MoleculeBuffer` runs the same steps in place and is proved equal to them. */
module Molecule {

  const MaxAtoms: nat := 64
  const MaxBonds: nat := 96

  /** A model-space point; the source's `float` coordinates are modelled as reals. */
  datatype Vec3 = Vec3(x: real, y: real, z: real)

  function Plus(p: Vec3, d: Vec3): Vec3 {
    Vec3(p.x + d.x, p.y + d.y, p.z + d.z)
  }

  /** Atom label codes 0=C, 1=O, 2=N, 3=Cl, 4=F. */
  datatype Label = Carbon | Oxygen | Nitrogen | Chlorine | Fluorine

  datatype Bond = Bond(from: int, to: int, order: int)

  /** The used prefix of the three buffers: `atomPos[..atomCount]`,
      `atomLabel[..atomCount]` and `bonds[..bondCount]`. */
  datatype Geometry = Geometry(pos: seq<Vec3>, labels: seq<Label>, bonds: seq<Bond>)

  const Empty := Geometry([], [], [])

  /** The representation invariant: one atom count for both atom buffers. */
  predicate Consistent(g: Geometry) {
    |g.pos| == |g.labels|
  }

  /** Both counts within the buffers' capacity. */
  predicate Bounded(g: Geometry) {
    |g.pos| <= MaxAtoms && |g.bonds| <= MaxBonds
  }

  predicate BondOk(b: Bond, atomCount: int) {
    0 <= b.from < atomCount && 0 <= b.to < atomCount && b.from != b.to && 1 <= b.order <= 3
  }

  predicate BondsOk(bs: seq<Bond>, atomCount: int) {
    forall j :: 0 <= j < |bs| ==> BondOk(bs[j], atomCount)
  }

  /** The data-model invariant every catalogued geometry must satisfy: bond
      endpoints are distinct existing atoms and orders lie in 1..3. */
  predicate WellFormed(g: Geometry) {
    Consistent(g) && Bounded(g) && BondsOk(g.bonds, |g.pos|)
  }

  /** Growth only appends: earlier entries are never touched. */
  predicate Extends(g: Geometry, r: Geometry) {
    g.pos <= r.pos && g.labels <= r.labels && g.bonds <= r.bonds
  }

  /** Neither count ever shrinks. */
  predicate Grows(g: Geometry, r: Geometry) {
    |g.pos| <= |r.pos| && |g.bonds| <= |r.bonds|
  }

  // ---------------------------------------------------------------------------
  // add_atom / add_bond: bounded append, silent drop when full

  function AddAtom(g: Geometry, p: Vec3, l: Label): (r: Geometry)
    requires Consistent(g)
    ensures Consistent(r) && Extends(g, r) && r.bonds == g.bonds
    ensures |g.pos| < MaxAtoms ==>
      |r.pos| == |g.pos| + 1 && r.pos[|g.pos|] == p && r.labels[|g.pos|] == l
    ensures |g.pos| >= MaxAtoms ==> r == g
  {
    if |g.pos| >= MaxAtoms then g
    else g.(pos := g.pos + [p], labels := g.labels + [l])
  }

  function AddBond(g: Geometry, a: int, b: int, order: int): (r: Geometry)
    requires Consistent(g)
    ensures Consistent(r) && Extends(g, r) && r.pos == g.pos && r.labels == g.labels
    ensures |g.bonds| < MaxBonds ==>
      |r.bonds| == |g.bonds| + 1 && r.bonds[|g.bonds|] == Bond(a, b, order)
    ensures |g.bonds| >= MaxBonds ==> r == g
  {
    if |g.bonds| >= MaxBonds then g
    else g.(bonds := g.bonds + [Bond(a, b, order)])
  }

  /** `mol->bonds[k].order = order`. */
  function SetOrder(g: Geometry, k: int, order: int): (r: Geometry)
    requires 0 <= k < |g.bonds|
    ensures r.pos == g.pos && r.labels == g.labels && |r.bonds| == |g.bonds|
    ensures r.bonds[k] == Bond(g.bonds[k].from, g.bonds[k].to, order)
    ensures forall j :: 0 <= j < |g.bonds| && j != k ==> r.bonds[j] == g.bonds[j]
  {
    g.(bonds := g.bonds[k := g.bonds[k].(order := order)])
  }

  // ---------------------------------------------------------------------------
  // build_steroid_core

  /** Cosine and sine of the angle of vertex `i` of a regular `n`-gon
      (i·2π/n).  Dafny has no trigonometry, so the caller supplies them. */
  type Circle = (int, int) -> (real, real)

  /** A ring of the nucleus: `n` atoms on a circle of `radius` about `(cx, cy)`
      at height `z`. */
  datatype Ring = Ring(n: nat, cx: real, cy: real, z: real, radius: real)

  const RingA := Ring(6, 0.0, 0.0, 0.0, 1.8)
  const RingB := Ring(6, 2.8, 0.0, 0.2, 1.8)
  const RingC := Ring(5, 2.8, 2.8, -0.2, 1.6)
  const RingD := Ring(5, 4.8, 4.3, 0.15, 1.3)

  function RingPoint(ring: Ring, i: int, circle: Circle): Vec3 {
    var (c, s) := circle(i, ring.n);
    Vec3(ring.cx + c * ring.radius, ring.cy + s * ring.radius, ring.z)
  }

  /** The `i`-th bond of the ring starting at atom `base`: vertex `i` to its
      successor, wrapping from `n-1` back to 0. */
  function RingBondAt(base: int, n: nat, i: int): Bond
    requires n > 0
  {
    Bond(base + i, base + (i + 1) % n, 1)
  }

  /** `n` carbon labels. */
  function Carbons(n: nat): (s: seq<Label>)
    ensures |s| == n && forall i :: 0 <= i < n ==> s[i] == Carbon
  {
    seq(n, i => Carbon)
  }

  /** The first `k` vertices of a ring. */
  function RingPrefix(ring: Ring, circle: Circle, k: nat): (s: seq<Vec3>)
    ensures |s| == k && forall i :: 0 <= i < k ==> s[i] == RingPoint(ring, i, circle)
  {
    seq(k, i => RingPoint(ring, i, circle))
  }

  /** The first `k` bonds of the ring starting at atom `base`. */
  function RingBondSeq(base: int, n: nat, k: nat): (s: seq<Bond>)
    requires n > 0
    ensures |s| == k && forall i :: 0 <= i < k ==> s[i] == RingBondAt(base, n, i)
  {
    seq(k, i => RingBondAt(base, n, i))
  }

  /** The contents after the first `k` iterations of a ring's atom loop. */
  function RingAtoms(g: Geometry, ring: Ring, circle: Circle, k: nat): (r: Geometry)
    requires Consistent(g)
    ensures Consistent(r) && Grows(g, r) && r.bonds == g.bonds
    decreases k
  {
    if k == 0 then g
    else AddAtom(RingAtoms(g, ring, circle, k - 1), RingPoint(ring, k - 1, circle), Carbon)
  }

  /** The contents after the first `k` iterations of a ring's bond loop. */
  function RingBonds(g: Geometry, base: int, n: nat, k: nat): (r: Geometry)
    requires Consistent(g) && n > 0
    ensures Consistent(r) && Grows(g, r) && r.pos == g.pos && r.labels == g.labels
    decreases k
  {
    if k == 0 then g
    else AddBond(RingBonds(g, base, n, k - 1), RingBondAt(base, n, k - 1).from, RingBondAt(base, n, k - 1).to, 1)
  }

  /** One ring: its atom loop, then its bond loop. */
  function AddRing(g: Geometry, ring: Ring, circle: Circle): (r: Geometry)
    requires Consistent(g) && ring.n > 0
    ensures Consistent(r) && Grows(g, r)
  {
    RingBonds(RingAtoms(g, ring, circle, ring.n), |g.pos|, ring.n, ring.n)
  }

  /** Two fusion bonds `(a1, b1)` and `(a2, b2)` of order 1. */
  function AddFusion(g: Geometry, a1: int, b1: int, a2: int, b2: int): (r: Geometry)
    requires Consistent(g)
    ensures Consistent(r) && Grows(g, r)
  {
    AddBond(AddBond(g, a1, b1, 1), a2, b2, 1)
  }

  /** A ring after the first, then its two fusion bonds `(prevBase + 1,
      base + k1)` and `(prevBase + 2, base + k2)` to the ring before it, whose
      atoms start at `prevBase`; `base` is the atom count before the ring. */
  function FusedRing(g: Geometry, ring: Ring, circle: Circle, prevBase: int, k1: int, k2: int): (r: Geometry)
    requires Consistent(g) && ring.n > 0
    ensures Consistent(r) && Grows(g, r)
  {
    AddFusion(AddRing(g, ring, circle), prevBase + 1, |g.pos| + k1, prevBase + 2, |g.pos| + k2)
  }

  /** The first ring of `build_steroid_core`.  The prior contents are
      discarded: both counts are reset before anything is added. */
  function NucleusA(circle: Circle): (r: Geometry)
    ensures Consistent(r)
  {
    AddRing(Empty, RingA, circle)
  }

  /** The second ring, then its two fusion bonds to the first. */
  function NucleusB(circle: Circle): (r: Geometry)
    ensures Consistent(r)
  {
    FusedRing(NucleusA(circle), RingB, circle, 0, 4, 5)
  }

  /** The third ring, then its two fusion bonds to the second. */
  function NucleusC(circle: Circle): (r: Geometry)
    ensures Consistent(r)
  {
    FusedRing(NucleusB(circle), RingC, circle, |NucleusA(circle).pos|, 3, 4)
  }

  /** `build_steroid_core`: the fourth ring, then its two fusion bonds to the
      third. */
  function SteroidCore(circle: Circle): (r: Geometry)
    ensures Consistent(r)
  {
    FusedRing(NucleusC(circle), RingD, circle, |NucleusB(circle).pos|, 3, 4)
  }

  /** The steps of `build_steroid_core` for any four rings (the buffer runs
      them with the rings as parameters); `NucleusIsCore` instantiates them
      with rings A to D. */
  function Nucleus(ra: Ring, rb: Ring, rc: Ring, rd: Ring, circle: Circle): (r: Geometry)
    requires ra.n > 0 && rb.n > 0 && rc.n > 0 && rd.n > 0
    ensures Consistent(r)
  {
    var gA := AddRing(Empty, ra, circle);
    var gB := FusedRing(gA, rb, circle, 0, 4, 5);
    var gC := FusedRing(gB, rc, circle, |gA.pos|, 3, 4);
    FusedRing(gC, rd, circle, |gB.pos|, 3, 4)
  }

  // The bond table the nucleus is meant to have, written out segment by
  // segment: ring A (atoms 0-5), ring B (atoms 6-11), fusion A-B, ring C
  // (atoms 12-16), fusion B-C, ring D (atoms 17-21), fusion C-D.
  const RingABonds: seq<Bond> :=
    [Bond(0, 1, 1), Bond(1, 2, 1), Bond(2, 3, 1), Bond(3, 4, 1), Bond(4, 5, 1), Bond(5, 0, 1)]
  const RingBBonds: seq<Bond> :=
    [Bond(6, 7, 1), Bond(7, 8, 1), Bond(8, 9, 1), Bond(9, 10, 1), Bond(10, 11, 1), Bond(11, 6, 1)]
  const FusionAB: seq<Bond> := [Bond(1, 10, 1), Bond(2, 11, 1)]
  const RingCBonds: seq<Bond> :=
    [Bond(12, 13, 1), Bond(13, 14, 1), Bond(14, 15, 1), Bond(15, 16, 1), Bond(16, 12, 1)]
  const FusionBC: seq<Bond> := [Bond(7, 15, 1), Bond(8, 16, 1)]
  const RingDBonds: seq<Bond> :=
    [Bond(17, 18, 1), Bond(18, 19, 1), Bond(19, 20, 1), Bond(20, 21, 1), Bond(21, 17, 1)]
  const FusionCD: seq<Bond> := [Bond(13, 20, 1), Bond(14, 21, 1)]

  const CoreBonds: seq<Bond> :=
    RingABonds + RingBBonds + FusionAB + RingCBonds + FusionBC + RingDBonds + FusionCD

  /** Which ring an atom of the nucleus belongs to (0 = A … 3 = D). */
  function RingOf(atom: int): int {
    if atom < 6 then 0 else if atom < 12 then 1 else if atom < 17 then 2 else 3
  }

  function RingPoints(ring: Ring, circle: Circle): (s: seq<Vec3>)
    ensures |s| == ring.n
  {
    RingPrefix(ring, circle, ring.n)
  }

  // ---------------------------------------------------------------------------
  // add_ester_tail

  /** Position of the `i`-th tail atom: offset from the ATTACH atom's position
      `base` (not from the previous tail atom). */
  function TailPoint(base: Vec3, i: int, wiggle: real): Vec3 {
    Vec3(base.x + (i + 1) as real * 1.1, base.y - 0.4 * i as real, base.z + wiggle * i as real)
  }

  /** The first `k` tail positions, all measured from the attach atom at `base`. */
  function TailPoints(base: Vec3, k: nat, wiggle: real): (s: seq<Vec3>)
    ensures |s| == k
  {
    if k == 0 then [] else TailPoints(base, k - 1, wiggle) + [TailPoint(base, k - 1, wiggle)]
  }

  /** The `i`-th tail bond when the tail's atoms start at index `first`: the
      attach atom to the first tail atom, then each tail atom to the next. */
  function TailBondAt(attach: int, first: int, i: int): Bond {
    Bond(if i == 0 then attach else first + i - 1, first + i, 1)
  }

  function TailBonds(attach: int, first: int, k: nat): (s: seq<Bond>)
    ensures |s| == k
  {
    if k == 0 then [] else TailBonds(attach, first, k - 1) + [TailBondAt(attach, first, k - 1)]
  }

  /** One atom and one bond appended, below capacity. */
  function AppendAtomAndBond(g: Geometry, p: Vec3, l: Label, b: Bond): Geometry {
    Geometry(g.pos + [p], g.labels + [l], g.bonds + [b])
  }

  /** Iteration `i` of the tail loop.  The loop's `previous` is the attach
      atom in iteration 0 and afterwards the last atom, since `add_bond`
      leaves the atom count alone. */
  function TailSegment(g: Geometry, attach: int, i: int, wiggle: real): (r: Geometry)
    requires Consistent(g) && 0 <= attach < |g.pos|
    ensures Consistent(r) && Grows(g, r) && g.pos[attach] == r.pos[attach]
    ensures |g.pos| < MaxAtoms && |g.bonds| < MaxBonds ==>
      r == AppendAtomAndBond(g, TailPoint(g.pos[attach], i, wiggle), Carbon,
                             Bond(if i == 0 then attach else |g.pos| - 1, |g.pos|, 1))
  {
    var previous := if i == 0 then attach else |g.pos| - 1;
    var g1 := AddAtom(g, TailPoint(g.pos[attach], i, wiggle), Carbon);
    AddBond(g1, previous, |g1.pos| - 1, 1)
  }

  /** The contents after the first `k` iterations of the tail loop. */
  function EsterTail(g: Geometry, attach: int, k: nat, wiggle: real): (r: Geometry)
    requires Consistent(g) && 0 <= attach < |g.pos|
    ensures Consistent(r) && Grows(g, r) && g.pos[attach] == r.pos[attach]
    decreases k
  {
    if k == 0 then g
    else TailSegment(EsterTail(g, attach, k - 1, wiggle), attach, k - 1, wiggle)
  }

  // ---------------------------------------------------------------------------
  // apply_preset

  const AttachHydroxyl := 2
  const AttachCarbonyl := 8
  const AttachEster := 14

  /** One substituent atom placed at `offset` from atom `at` and bonded to it
      with `order` (the `add_atom` + `add_bond(at, atomCount-1, …)` pairs). */
  function Substituent(g: Geometry, at: int, offset: Vec3, l: Label, order: int): (r: Geometry)
    requires Consistent(g) && 0 <= at < |g.pos|
    ensures Consistent(r) && Grows(g, r)
    ensures |g.pos| < MaxAtoms && |g.bonds| < MaxBonds ==>
      r == Geometry(g.pos + [Plus(g.pos[at], offset)], g.labels + [l], g.bonds + [Bond(at, |g.pos|, order)])
  {
    var g1 := AddAtom(g, Plus(g.pos[at], offset), l);
    AddBond(g1, at, |g1.pos| - 1, order)
  }

  /** An optional substituent, added when `cond` holds. */
  function SubstituentIf(cond: bool, g: Geometry, at: int, offset: Vec3, l: Label): (r: Geometry)
    requires Consistent(g) && 0 <= at < |g.pos|
    ensures Consistent(r) && Grows(g, r)
  {
    if cond then Substituent(g, at, offset, l, 1) else g
  }

  /** An optional ester tail on atom 14, added when `cond` holds. */
  function TailIf(cond: bool, g: Geometry, n: nat, wiggle: real): (r: Geometry)
    requires Consistent(g) && AttachEster < |g.pos|
    ensures Consistent(r) && Grows(g, r)
  {
    if cond then EsterTail(g, AttachEster, n, wiggle) else g
  }

  /** The bond-order promotion of presets 3 and 5, with its size guards. */
  function Promote(p: int, g: Geometry): (r: Geometry)
    ensures r.pos == g.pos && r.labels == g.labels && |r.bonds| == |g.bonds|
  {
    if p == 3 || p == 5 then
      var h := if |g.bonds| > 10 then SetOrder(SetOrder(g, 3, 2), 8, 2) else g;
      if p == 3 && |h.bonds| > 15 then SetOrder(h, 12, 2) else h
    else g
  }

  /** The two substituents every preset receives: a hydroxyl-like oxygen on
      atom 2 (single bond) and a carbonyl-like oxygen on atom 8 (double bond). */
  function CommonSubstituents(g: Geometry): (r: Geometry)
    requires Consistent(g) && AttachCarbonyl < |g.pos|
    ensures Consistent(r) && Grows(g, r)
  {
    var g1 := Substituent(g, AttachHydroxyl, Vec3(-0.2, 1.4, 0.8), Oxygen, 1);
    Substituent(g1, AttachCarbonyl, Vec3(0.3, -1.2, -0.6), Oxygen, 2)
  }

  /** The common prefix of every preset: the nucleus with its two oxygens. */
  function Base(circle: Circle): (r: Geometry)
    ensures Consistent(r) && |r.pos| >= 22
  {
    SteroidCoreCounts(circle);
    CommonSubstituents(SteroidCore(circle))
  }

  /** The four ester-tail clauses (presets 1, 2, 18 and 19). */
  function Tails(p: int, g: Geometry): (r: Geometry)
    requires Consistent(g) && AttachEster < |g.pos|
    ensures Consistent(r) && Grows(g, r)
  {
    var g1 := TailIf(p == 1, g, 6, 0.10);
    var g2 := TailIf(p == 2, g1, 7, -0.05);
    var g3 := TailIf(p == 18, g2, 3, 0.05);
    TailIf(p == 19, g3, 3, -0.06)
  }

  /** The nitrogen, chlorine and fluorine clauses that follow the bond-order
      promotion (presets 8, 12, 17 and 13). */
  function HeteroSubstituents(p: int, g: Geometry): (r: Geometry)
    requires Consistent(g) && 9 < |g.pos|
    ensures Consistent(r) && Grows(g, r)
  {
    var g1 := SubstituentIf(p == 8, g, 0, Vec3(-1.6, 0.2, 0.0), Nitrogen);
    var g2 := SubstituentIf(p == 12 || p == 17, g1, 1, Vec3(-1.2, 1.0, 0.1), Chlorine);
    SubstituentIf(p == 13, g2, 9, Vec3(1.1, 0.8, -0.2), Fluorine)
  }

  /** The last three clauses, each on an atom of ring B (presets 7, 9, 4, 10,
      14, 15 and 11). */
  function RingBSubstituents(p: int, g: Geometry): (r: Geometry)
    requires Consistent(g) && 11 < |g.pos|
    ensures Consistent(r) && Grows(g, r)
  {
    var g1 := SubstituentIf(p == 7 || p == 9, g, 10, Vec3(0.2, 1.1, -0.4), Oxygen);
    var g2 := SubstituentIf(p == 4 || p == 10 || p == 14 || p == 15, g1, 11, Vec3(0.9, -0.9, 0.3), Carbon);
    SubstituentIf(p == 11, g2, 6, Vec3(0.7, 1.0, 0.0), Carbon)
  }

  /** `apply_preset(mol, p)`, for any integer `p`, clause by clause in the
      source's order; identifiers that no clause names yield `Base` alone. */
  function ApplyPreset(p: int, circle: Circle): (r: Geometry)
    ensures Consistent(r)
  {
    var g1 := Tails(p, Base(circle));
    var g2 := SubstituentIf(p == 6 || p == 16 || p == 17, g1, 5, Vec3(-1.2, 0.6, 0.2), Carbon);
    RingBSubstituents(p, HeteroSubstituents(p, Promote(p, g2)))
  }

  // ---------------------------------------------------------------------------
  // Lemmas: the building blocks

  /** Below capacity, the first `k` ring-atom iterations append exactly the
      first `k` vertices of the ring, all carbon. */
  lemma RingPrefixSnoc(ring: Ring, circle: Circle, k: nat)
    requires k > 0
    ensures RingPrefix(ring, circle, k) == RingPrefix(ring, circle, k - 1) + [RingPoint(ring, k - 1, circle)]
  {
  }

  lemma CarbonsSnoc(k: nat)
    requires k > 0
    ensures Carbons(k) == Carbons(k - 1) + [Carbon]
  {
  }

  lemma RingBondSeqSnoc(base: int, n: nat, k: nat)
    requires n > 0 && k > 0
    ensures RingBondSeq(base, n, k) == RingBondSeq(base, n, k - 1) + [RingBondAt(base, n, k - 1)]
  {
  }

  /** Below capacity, the first `k` ring-atom iterations append exactly the
      first `k` vertices of the ring, all carbon. */
  lemma {:induction false} RingAtomsAppend(g: Geometry, ring: Ring, circle: Circle, k: nat)
    requires Consistent(g) && |g.pos| + k <= MaxAtoms
    ensures RingAtoms(g, ring, circle, k).pos == g.pos + RingPrefix(ring, circle, k)
    ensures RingAtoms(g, ring, circle, k).labels == g.labels + Carbons(k)
  {
    if k > 0 {
      RingAtomsAppend(g, ring, circle, k - 1);
      RingPrefixSnoc(ring, circle, k);
      CarbonsSnoc(k);
      var prev := RingAtoms(g, ring, circle, k - 1);
      var p := RingPoint(ring, k - 1, circle);
      assert (g.pos + RingPrefix(ring, circle, k - 1)) + [p] == g.pos + (RingPrefix(ring, circle, k - 1) + [p]);
      assert (g.labels + Carbons(k - 1)) + [Carbon] == g.labels + (Carbons(k - 1) + [Carbon]);
    }
  }

  /** Below capacity, the first `k` ring-bond iterations append exactly the
      first `k` ring bonds. */
  lemma {:induction false} RingBondsAppend(g: Geometry, base: int, n: nat, k: nat)
    requires Consistent(g) && n > 0 && |g.bonds| + k <= MaxBonds
    ensures RingBonds(g, base, n, k).bonds == g.bonds + RingBondSeq(base, n, k)
  {
    if k > 0 {
      RingBondsAppend(g, base, n, k - 1);
      RingBondSeqSnoc(base, n, k);
      var b := RingBondAt(base, n, k - 1);
      assert (g.bonds + RingBondSeq(base, n, k - 1)) + [b] == g.bonds + (RingBondSeq(base, n, k - 1) + [b]);
    }
  }

  /** Below capacity, a ring appends its `n` vertices and its `n` bonds, the
      last of which closes the ring from `base+n-1` back to `base`. */
  lemma AddRingAppend(g: Geometry, ring: Ring, circle: Circle)
    requires Consistent(g) && ring.n > 0
    requires |g.pos| + ring.n <= MaxAtoms && |g.bonds| + ring.n <= MaxBonds
    ensures AddRing(g, ring, circle).pos == g.pos + RingPoints(ring, circle)
    ensures AddRing(g, ring, circle).labels == g.labels + Carbons(ring.n)
    ensures AddRing(g, ring, circle).bonds == g.bonds + RingBondSeq(|g.pos|, ring.n, ring.n)
    ensures AddRing(g, ring, circle).bonds[|g.bonds| + ring.n - 1] == Bond(|g.pos| + ring.n - 1, |g.pos|, 1)
  {
    RingAtomsAppend(g, ring, circle, ring.n);
    var h := RingAtoms(g, ring, circle, ring.n);
    RingBondsAppend(h, |g.pos|, ring.n, ring.n);
    assert RingPoints(ring, circle) == RingPrefix(ring, circle, ring.n);
  }

  lemma AddFusionAppend(g: Geometry, a1: int, b1: int, a2: int, b2: int)
    requires Consistent(g) && |g.bonds| + 2 <= MaxBonds
    ensures AddFusion(g, a1, b1, a2, b2) == g.(bonds := g.bonds + [Bond(a1, b1, 1), Bond(a2, b2, 1)])
  {
  }

  lemma CarbonsConcat(m: nat, n: nat)
    ensures Carbons(m) + Carbons(n) == Carbons(m + n)
  {
  }

  lemma Ring6Bonds(base: int)
    ensures RingBondSeq(base, 6, 6) ==
      [Bond(base, base + 1, 1), Bond(base + 1, base + 2, 1), Bond(base + 2, base + 3, 1),
       Bond(base + 3, base + 4, 1), Bond(base + 4, base + 5, 1), Bond(base + 5, base, 1)]
  {
  }

  lemma Ring5Bonds(base: int)
    ensures RingBondSeq(base, 5, 5) ==
      [Bond(base, base + 1, 1), Bond(base + 1, base + 2, 1), Bond(base + 2, base + 3, 1),
       Bond(base + 3, base + 4, 1), Bond(base + 4, base, 1)]
  {
  }

  /** Below capacity, a ring followed by its two fusion bonds appends the
      ring's vertices, its ring bonds and the two fusion bonds. */
  lemma FusedRingAppend(g: Geometry, ring: Ring, circle: Circle, a1: int, b1: int, a2: int, b2: int)
    requires Consistent(g) && ring.n > 0
    requires |g.pos| + ring.n <= MaxAtoms && |g.bonds| + ring.n + 2 <= MaxBonds
    ensures AddFusion(AddRing(g, ring, circle), a1, b1, a2, b2) ==
      Geometry(g.pos + RingPoints(ring, circle), g.labels + Carbons(ring.n),
               g.bonds + RingBondSeq(|g.pos|, ring.n, ring.n) + [Bond(a1, b1, 1), Bond(a2, b2, 1)])
  {
    AddRingAppend(g, ring, circle);
    AddFusionAppend(AddRing(g, ring, circle), a1, b1, a2, b2);
  }

  lemma NucleusAShape(circle: Circle)
    ensures NucleusA(circle) == Geometry(RingPoints(RingA, circle), Carbons(6), RingABonds)
  {
    AddRingAppend(Empty, RingA, circle);
    Ring6Bonds(0);
  }

  lemma RingBFrom(g: Geometry, circle: Circle)
    requires g == Geometry(RingPoints(RingA, circle), Carbons(6), RingABonds)
    ensures AddFusion(AddRing(g, RingB, circle), 1, 10, 2, 11) ==
      Geometry(RingPoints(RingA, circle) + RingPoints(RingB, circle), Carbons(12),
               RingABonds + RingBBonds + FusionAB)
  {
    FusedRingAppend(g, RingB, circle, 1, 10, 2, 11);
    Ring6Bonds(6);
    CarbonsConcat(6, 6);
  }

  lemma NucleusBShape(circle: Circle)
    ensures NucleusB(circle) ==
      Geometry(RingPoints(RingA, circle) + RingPoints(RingB, circle), Carbons(12),
               RingABonds + RingBBonds + FusionAB)
  {
    NucleusAShape(circle);
    RingBFrom(NucleusA(circle), circle);
  }

  lemma RingCFrom(g: Geometry, circle: Circle)
    requires g == Geometry(RingPoints(RingA, circle) + RingPoints(RingB, circle), Carbons(12),
                           RingABonds + RingBBonds + FusionAB)
    ensures AddFusion(AddRing(g, RingC, circle), 7, 15, 8, 16) ==
      Geometry(RingPoints(RingA, circle) + RingPoints(RingB, circle) + RingPoints(RingC, circle),
               Carbons(17), RingABonds + RingBBonds + FusionAB + RingCBonds + FusionBC)
  {
    FusedRingAppend(g, RingC, circle, 7, 15, 8, 16);
    Ring5Bonds(12);
    CarbonsConcat(12, 5);
  }

  lemma NucleusCShape(circle: Circle)
    ensures NucleusC(circle) ==
      Geometry(RingPoints(RingA, circle) + RingPoints(RingB, circle) + RingPoints(RingC, circle),
               Carbons(17), RingABonds + RingBBonds + FusionAB + RingCBonds + FusionBC)
  {
    NucleusAShape(circle);
    NucleusBShape(circle);
    RingCFrom(NucleusB(circle), circle);
  }

  lemma RingDFrom(g: Geometry, circle: Circle)
    requires g == Geometry(RingPoints(RingA, circle) + RingPoints(RingB, circle) + RingPoints(RingC, circle),
                           Carbons(17), RingABonds + RingBBonds + FusionAB + RingCBonds + FusionBC)
    ensures AddFusion(AddRing(g, RingD, circle), 13, 20, 14, 21) ==
      Geometry(RingPoints(RingA, circle) + RingPoints(RingB, circle) + RingPoints(RingC, circle) + RingPoints(RingD, circle),
               Carbons(22), CoreBonds)
  {
    FusedRingAppend(g, RingD, circle, 13, 20, 14, 21);
    Ring5Bonds(17);
    CarbonsConcat(17, 5);
  }

  lemma SteroidCoreCounts(circle: Circle)
    ensures |SteroidCore(circle).pos| == 22 && |SteroidCore(circle).bonds| == 28
  {
    SteroidCoreShape(circle);
  }

  /** The nucleus: 22 carbon atoms on the four rings, in ring order, and
      exactly the bond table `CoreBonds`, whatever the previous contents. */
  lemma SteroidCoreShape(circle: Circle)
    ensures SteroidCore(circle) == Core(circle)
  {
    NucleusBShape(circle);
    NucleusCShape(circle);
    RingDFrom(NucleusC(circle), circle);
  }

  // ---------------------------------------------------------------------------
  // Lemmas: the ester tail

  lemma {:induction false} TailPointsAt(base: Vec3, k: nat, wiggle: real, i: int)
    requires 0 <= i < k
    ensures TailPoints(base, k, wiggle)[i] == TailPoint(base, i, wiggle)
  {
    if i < k - 1 {
      TailPointsAt(base, k - 1, wiggle, i);
    }
  }

  lemma {:induction false} TailBondsAt(attach: int, first: int, k: nat, i: int)
    requires 0 <= i < k
    ensures TailBonds(attach, first, k)[i] == TailBondAt(attach, first, i)
  {
    if i < k - 1 {
      TailBondsAt(attach, first, k - 1, i);
    }
  }

  lemma {:induction false} EsterTailCounts(g: Geometry, attach: int, k: nat, wiggle: real)
    requires Consistent(g) && 0 <= attach < |g.pos|
    requires |g.pos| + k <= MaxAtoms && |g.bonds| + k <= MaxBonds
    ensures |EsterTail(g, attach, k, wiggle).pos| == |g.pos| + k
    ensures |EsterTail(g, attach, k, wiggle).bonds| == |g.bonds| + k
  {
    if k > 0 {
      EsterTailCounts(g, attach, k - 1, wiggle);
    }
  }

  lemma {:induction false} EsterTailPositions(g: Geometry, attach: int, k: nat, wiggle: real)
    requires Consistent(g) && 0 <= attach < |g.pos|
    requires |g.pos| + k <= MaxAtoms && |g.bonds| + k <= MaxBonds
    ensures EsterTail(g, attach, k, wiggle).pos == g.pos + TailPoints(g.pos[attach], k, wiggle)
  {
    if k > 0 {
      EsterTailPositions(g, attach, k - 1, wiggle);
      EsterTailCounts(g, attach, k - 1, wiggle);
      SnocConcat(g.pos, TailPoints(g.pos[attach], k - 1, wiggle), TailPoint(g.pos[attach], k - 1, wiggle));
    }
  }

  lemma {:induction false} EsterTailLabels(g: Geometry, attach: int, k: nat, wiggle: real)
    requires Consistent(g) && 0 <= attach < |g.pos|
    requires |g.pos| + k <= MaxAtoms && |g.bonds| + k <= MaxBonds
    ensures EsterTail(g, attach, k, wiggle).labels == g.labels + Carbons(k)
  {
    if k > 0 {
      EsterTailLabels(g, attach, k - 1, wiggle);
      EsterTailCounts(g, attach, k - 1, wiggle);
      CarbonsSnoc(k);
      SnocConcat(g.labels, Carbons(k - 1), Carbon);
    }
  }

  lemma {:induction false} EsterTailBonds(g: Geometry, attach: int, k: nat, wiggle: real)
    requires Consistent(g) && 0 <= attach < |g.pos|
    requires |g.pos| + k <= MaxAtoms && |g.bonds| + k <= MaxBonds
    ensures EsterTail(g, attach, k, wiggle).bonds == g.bonds + TailBonds(attach, |g.pos|, k)
  {
    if k > 0 {
      EsterTailBonds(g, attach, k - 1, wiggle);
      EsterTailCounts(g, attach, k - 1, wiggle);
      SnocConcat(g.bonds, TailBonds(attach, |g.pos|, k - 1), TailBondAt(attach, |g.pos|, k - 1));
    }
  }

  /** Below capacity, a tail of `k` segments appends `k` carbons at the
      `TailPoint` offsets from the attach atom, chained by single bonds
      attach → first → … → last. */
  lemma EsterTailShape(g: Geometry, attach: int, k: nat, wiggle: real)
    requires Consistent(g) && 0 <= attach < |g.pos|
    requires |g.pos| + k <= MaxAtoms && |g.bonds| + k <= MaxBonds
    ensures EsterTail(g, attach, k, wiggle) ==
      Geometry(g.pos + TailPoints(g.pos[attach], k, wiggle), g.labels + Carbons(k),
               g.bonds + TailBonds(attach, |g.pos|, k))
  {
    EsterTailPositions(g, attach, k, wiggle);
    EsterTailLabels(g, attach, k, wiggle);
    EsterTailBonds(g, attach, k, wiggle);
  }

  lemma SnocConcat<T>(a: seq<T>, b: seq<T>, x: T)
    ensures (a + b) + [x] == a + (b + [x])
  {
  }

  lemma BondsOkConcat(a: seq<Bond>, b: seq<Bond>, n: int)
    requires BondsOk(a, n) && BondsOk(b, n)
    ensures BondsOk(a + b, n)
  {
    forall j | 0 <= j < |a + b|
      ensures BondOk((a + b)[j], n)
    {
      if j >= |a| {
        assert (a + b)[j] == b[j - |a|];
      }
    }
  }

  lemma BondsOkSnoc(bs: seq<Bond>, b: Bond, n: int)
    requires BondsOk(bs, n) && BondOk(b, n)
    ensures BondsOk(bs + [b], n)
  {
  }

  lemma BondsOkWiden(bs: seq<Bond>, n: int, m: int)
    requires BondsOk(bs, n) && n <= m
    ensures BondsOk(bs, m)
  {
  }

  /** Every tail bond joins two distinct atoms among the first `first + k`. */
  lemma {:induction false} TailBondsOk(attach: int, first: int, k: nat)
    requires 0 <= attach < first
    ensures BondsOk(TailBonds(attach, first, k), first + k)
  {
    if k > 0 {
      TailBondsOk(attach, first, k - 1);
      BondsOkWiden(TailBonds(attach, first, k - 1), first + k - 1, first + k);
      BondsOkSnoc(TailBonds(attach, first, k - 1), TailBondAt(attach, first, k - 1), first + k);
    }
  }

  /** Below capacity, a tail keeps the geometry well formed. */
  lemma EsterTailWellFormed(g: Geometry, attach: int, k: nat, wiggle: real)
    requires WellFormed(g) && 0 <= attach < |g.pos|
    requires |g.pos| + k <= MaxAtoms && |g.bonds| + k <= MaxBonds
    ensures WellFormed(EsterTail(g, attach, k, wiggle))
  {
    EsterTailShape(g, attach, k, wiggle);
    TailBondsOk(attach, |g.pos|, k);
    BondsOkWiden(g.bonds, |g.pos|, |g.pos| + k);
    BondsOkConcat(g.bonds, TailBonds(attach, |g.pos|, k), |g.pos| + k);
  }

  /** With the atom buffer already full, `add_atom` drops every tail atom but
      `add_bond` still runs: from the second segment on, `previous` and
      `current` are both the last atom, so the tail adds a self-bond. */
  lemma SaturatedTailSelfBond(g: Geometry, attach: int, wiggle: real)
    requires Consistent(g) && 0 <= attach < |g.pos|
    requires |g.pos| == MaxAtoms && |g.bonds| + 2 <= MaxBonds
    ensures EsterTail(g, attach, 2, wiggle).bonds[|g.bonds| + 1] == Bond(MaxAtoms - 1, MaxAtoms - 1, 1)
    ensures !WellFormed(EsterTail(g, attach, 2, wiggle))
  {
    var r := EsterTail(g, attach, 2, wiggle);
    assert !BondOk(r.bonds[|g.bonds| + 1], |r.pos|);
  }

  // ---------------------------------------------------------------------------
  // Lemmas: the nucleus and the common prefix

  /** Atom `i` of the nucleus, in ring order. */
  function CorePoints(circle: Circle): (s: seq<Vec3>)
    ensures |s| == 22
  {
    RingPoints(RingA, circle) + RingPoints(RingB, circle) + RingPoints(RingC, circle) + RingPoints(RingD, circle)
  }

  /** The nucleus as one value: 22 carbons on the four rings and `CoreBonds`. */
  function Core(circle: Circle): Geometry {
    Geometry(CorePoints(circle), Carbons(22), CoreBonds)
  }

  /** The nucleus is well formed, all its bonds are single, each ring's
      closing bond runs from its last atom back to its first, and each fusion
      bond joins atoms of two different rings. */
  lemma NucleusProperties(circle: Circle)
    ensures WellFormed(SteroidCore(circle))
    ensures |SteroidCore(circle).pos| == 22 && |SteroidCore(circle).bonds| == 28
    ensures forall j :: 0 <= j < |SteroidCore(circle).bonds| ==> SteroidCore(circle).bonds[j].order == 1
    ensures forall i :: 0 <= i < |SteroidCore(circle).labels| ==> SteroidCore(circle).labels[i] == Carbon
    ensures SteroidCore(circle).bonds[5] == Bond(5, 0, 1) && SteroidCore(circle).bonds[11] == Bond(11, 6, 1)
    ensures SteroidCore(circle).bonds[18] == Bond(16, 12, 1) && SteroidCore(circle).bonds[25] == Bond(21, 17, 1)
    ensures forall j :: j in {12, 13, 19, 20, 26, 27} ==>
      RingOf(SteroidCore(circle).bonds[j].from) != RingOf(SteroidCore(circle).bonds[j].to)
  {
    SteroidCoreShape(circle);
    CoreProperties(circle);
  }

  lemma CoreProperties(circle: Circle)
    ensures WellFormed(Core(circle))
    ensures forall j :: 0 <= j < |CoreBonds| ==> CoreBonds[j].order == 1
    ensures CoreBonds[5] == Bond(5, 0, 1) && CoreBonds[11] == Bond(11, 6, 1)
    ensures CoreBonds[18] == Bond(16, 12, 1) && CoreBonds[25] == Bond(21, 17, 1)
    ensures forall j :: j in {12, 13, 19, 20, 26, 27} ==> RingOf(CoreBonds[j].from) != RingOf(CoreBonds[j].to)
  {
    CoreBondsOk();
  }

  lemma CoreBondsOk()
    ensures BondsOk(CoreBonds, 22)
    ensures forall j :: 0 <= j < |CoreBonds| ==> CoreBonds[j].order == 1
  {
    BondsOkConcat(RingABonds, RingBBonds, 22);
    BondsOkConcat(RingABonds + RingBBonds, FusionAB, 22);
    BondsOkConcat(RingABonds + RingBBonds + FusionAB, RingCBonds, 22);
    BondsOkConcat(RingABonds + RingBBonds + FusionAB + RingCBonds, FusionBC, 22);
    BondsOkConcat(RingABonds + RingBBonds + FusionAB + RingCBonds + FusionBC, RingDBonds, 22);
    BondsOkConcat(RingABonds + RingBBonds + FusionAB + RingCBonds + FusionBC + RingDBonds, FusionCD, 22);
  }

  /** The two common oxygens: atom 22 on atom 2 by a single bond (bond 28),
      atom 23 on atom 8 by a double bond (bond 29). */
  lemma CommonSubstituentsShape(g: Geometry)
    requires Consistent(g) && |g.pos| == 22 && |g.bonds| == 28
    ensures CommonSubstituents(g) ==
      Geometry(g.pos + [Plus(g.pos[2], Vec3(-0.2, 1.4, 0.8)), Plus(g.pos[8], Vec3(0.3, -1.2, -0.6))],
               g.labels + [Oxygen, Oxygen], g.bonds + [Bond(2, 22, 1), Bond(8, 23, 2)])
  {
    var g1 := Substituent(g, AttachHydroxyl, Vec3(-0.2, 1.4, 0.8), Oxygen, 1);
    assert g1.pos[8] == g.pos[8];
  }

  /** What every preset starts from: the nucleus, then the two oxygens. */
  function BaseValue(circle: Circle): Geometry {
    Geometry(CorePoints(circle) + [Plus(CorePoints(circle)[2], Vec3(-0.2, 1.4, 0.8)),
                                   Plus(CorePoints(circle)[8], Vec3(0.3, -1.2, -0.6))],
             Carbons(22) + [Oxygen, Oxygen], CoreBonds + [Bond(2, 22, 1), Bond(8, 23, 2)])
  }

  lemma BaseShape(circle: Circle)
    ensures Base(circle) == BaseValue(circle)
  {
    SteroidCoreShape(circle);
    CommonSubstituentsShape(Core(circle));
  }

  // ---------------------------------------------------------------------------
  // Lemmas: the catalogue invariants

  /** The bonds the promotion of presets 3 and 5 raises to order 2. */
  function PromotedBonds(p: int): set<int> {
    if p == 3 then {3, 8, 12} else if p == 5 then {3, 8} else {}
  }

  /** The double bonds of preset `p`: the carbonyl bond 29 and the promoted ones. */
  function DoubleBonds(p: int): set<int> {
    {29} + PromotedBonds(p)
  }

  /** Bond `j` of `bs` has order 2 when `j` is in `doubles` and 1 otherwise. */
  predicate OrdersAre(bs: seq<Bond>, doubles: set<int>) {
    forall j :: 0 <= j < |bs| ==> bs[j].order == if j in doubles then 2 else 1
  }

  /** The invariant of the recipe between two clauses: well formed, six more
      bonds than atoms, the common prefix present, and the bond orders given
      by `doubles`, all of which lie in the common prefix. */
  predicate Stage(g: Geometry, doubles: set<int>) {
    WellFormed(g) && |g.bonds| == |g.pos| + 6 && 24 <= |g.pos| && OrdersAre(g.bonds, doubles)
    && forall j :: j in doubles ==> 0 <= j < 30
  }

  lemma OrdersAppend(bs: seq<Bond>, extra: seq<Bond>, doubles: set<int>)
    requires OrdersAre(bs, doubles) && 30 <= |bs|
    requires forall j :: j in doubles ==> 0 <= j < 30
    requires forall i :: 0 <= i < |extra| ==> extra[i].order == 1
    ensures OrdersAre(bs + extra, doubles)
  {
    forall j | 0 <= j < |bs + extra|
      ensures (bs + extra)[j].order == if j in doubles then 2 else 1
    {
      if j >= |bs| {
        assert (bs + extra)[j] == extra[j - |bs|];
      }
    }
  }

  lemma {:induction false} TailBondsSingle(attach: int, first: int, k: nat)
    ensures forall i :: 0 <= i < k ==> TailBonds(attach, first, k)[i].order == 1
  {
    forall i | 0 <= i < k
      ensures TailBonds(attach, first, k)[i].order == 1
    {
      TailBondsAt(attach, first, k, i);
    }
  }

  lemma BaseStage(circle: Circle)
    ensures Stage(Base(circle), {29})
    ensures |Base(circle).pos| == 24 && Base(circle).labels == Carbons(22) + [Oxygen, Oxygen]
  {
    BaseShape(circle);
    BaseValueStage(circle);
  }

  lemma BaseValueStage(circle: Circle)
    ensures Stage(BaseValue(circle), {29})
  {
    CoreProperties(circle);
    var bs := CoreBonds + [Bond(2, 22, 1), Bond(8, 23, 2)];
    BondsOkWiden(CoreBonds, 22, 24);
    BondsOkConcat(CoreBonds, [Bond(2, 22, 1), Bond(8, 23, 2)], 24);
    forall j | 0 <= j < |bs|
      ensures bs[j].order == if j in {29} then 2 else 1
    {
      if j < 28 {
        assert bs[j] == CoreBonds[j];
      }
    }
  }

  lemma SubstituentIfStage(cond: bool, g: Geometry, at: int, offset: Vec3, l: Label, doubles: set<int>)
    requires Stage(g, doubles) && 0 <= at < |g.pos| && |g.pos| < MaxAtoms - 6
    ensures Stage(SubstituentIf(cond, g, at, offset, l), doubles)
    ensures SubstituentIf(cond, g, at, offset, l).labels == g.labels + if cond then [l] else []
  {
    if cond {
      var b := Bond(at, |g.pos|, 1);
      BondsOkWiden(g.bonds, |g.pos|, |g.pos| + 1);
      BondsOkSnoc(g.bonds, b, |g.pos| + 1);
      OrdersAppend(g.bonds, [b], doubles);
    } else {
      assert g.labels + [] == g.labels;
    }
  }

  lemma TailIfStage(cond: bool, g: Geometry, n: nat, wiggle: real, doubles: set<int>)
    requires Stage(g, doubles) && AttachEster < |g.pos| && |g.pos| + n <= MaxAtoms - 6
    ensures Stage(TailIf(cond, g, n, wiggle), doubles)
    ensures TailIf(cond, g, n, wiggle).labels == g.labels + if cond then Carbons(n) else []
  {
    if cond {
      EsterTailShape(g, AttachEster, n, wiggle);
      EsterTailWellFormed(g, AttachEster, n, wiggle);
      TailBondsSingle(AttachEster, |g.pos|, n);
      OrdersAppend(g.bonds, TailBonds(AttachEster, |g.pos|, n), doubles);
    } else {
      assert g.labels + [] == g.labels;
    }
  }

  /** Promotion changes bond orders only, and only those in `PromotedBonds`. */
  lemma PromoteStage(p: int, g: Geometry)
    requires Stage(g, {29})
    ensures Stage(Promote(p, g), DoubleBonds(p))
    ensures Promote(p, g).pos == g.pos && Promote(p, g).labels == g.labels
    ensures forall j :: 0 <= j < |g.bonds| ==>
      Promote(p, g).bonds[j].from == g.bonds[j].from && Promote(p, g).bonds[j].to == g.bonds[j].to
  {
    var r := Promote(p, g);
  }

  /** The atoms each compound of the catalogue carries beyond the nucleus and
      its two oxygens, in the order the recipe adds them. */
  function PresetExtraLabels(p: int): seq<Label> {
    match p
    case 1 => Carbons(6)
    case 2 => Carbons(7)
    case 4 => [Carbon]
    case 6 => [Carbon]
    case 7 => [Oxygen]
    case 8 => [Nitrogen]
    case 9 => [Oxygen]
    case 10 => [Carbon]
    case 11 => [Carbon]
    case 12 => [Chlorine]
    case 13 => [Fluorine]
    case 14 => [Carbon]
    case 15 => [Carbon]
    case 16 => [Carbon]
    case 17 => [Carbon, Chlorine]
    case 18 => Carbons(3)
    case 19 => Carbons(3)
    case _ => []
  }

  function TailLength(p: int): nat {
    if p == 1 then 6 else if p == 2 then 7 else if p == 18 || p == 19 then 3 else 0
  }

  function HeteroLabels(p: int): seq<Label> {
    if p == 8 then [Nitrogen]
    else if p == 12 || p == 17 then [Chlorine]
    else if p == 13 then [Fluorine]
    else []
  }

  function RingBLabels(p: int): seq<Label> {
    if p == 7 || p == 9 then [Oxygen]
    else if p == 4 || p == 10 || p == 14 || p == 15 || p == 11 then [Carbon]
    else []
  }

  lemma TailsStage(p: int, g: Geometry)
    requires Stage(g, {29}) && |g.pos| == 24
    ensures Stage(Tails(p, g), {29}) && Tails(p, g).labels == g.labels + Carbons(TailLength(p))
  {
    if p == 1 || p == 2 || p == 18 || p == 19 {
      OneTail(p, g);
      TailIfStage(true, g, TailLength(p), TailWiggle(p), {29});
    } else {
      NoTail(p, g);
      assert g.labels + [] == g.labels;
    }
  }

  /** The z step of each preset's ester tail. */
  function TailWiggle(p: int): real {
    if p == 1 then 0.10 else if p == 2 then -0.05 else if p == 18 then 0.05 else -0.06
  }

  /** At most one tail clause fires, so a tail preset adds exactly one tail. */
  lemma OneTail(p: int, g: Geometry)
    requires Consistent(g) && AttachEster < |g.pos|
    requires p == 1 || p == 2 || p == 18 || p == 19
    ensures Tails(p, g) == TailIf(true, g, TailLength(p), TailWiggle(p))
  {
  }

  lemma HeteroSubstituentsStage(p: int, g: Geometry, doubles: set<int>)
    requires Stage(g, doubles) && |g.pos| <= 32
    ensures Stage(HeteroSubstituents(p, g), doubles)
    ensures HeteroSubstituents(p, g).labels == g.labels + HeteroLabels(p)
  {
    var g1 := SubstituentIf(p == 8, g, 0, Vec3(-1.6, 0.2, 0.0), Nitrogen);
    SubstituentIfStage(p == 8, g, 0, Vec3(-1.6, 0.2, 0.0), Nitrogen, doubles);
    var g2 := SubstituentIf(p == 12 || p == 17, g1, 1, Vec3(-1.2, 1.0, 0.1), Chlorine);
    SubstituentIfStage(p == 12 || p == 17, g1, 1, Vec3(-1.2, 1.0, 0.1), Chlorine, doubles);
    SubstituentIfStage(p == 13, g2, 9, Vec3(1.1, 0.8, -0.2), Fluorine, doubles);
    assert g.labels + [] == g.labels;
    if HeteroLabels(p) == [] {
      assert HeteroSubstituents(p, g).labels == g.labels;
    }
  }

  lemma RingBSubstituentsStage(p: int, g: Geometry, doubles: set<int>)
    requires Stage(g, doubles) && |g.pos| <= 33
    ensures Stage(RingBSubstituents(p, g), doubles)
    ensures RingBSubstituents(p, g).labels == g.labels + RingBLabels(p)
  {
    var g1 := SubstituentIf(p == 7 || p == 9, g, 10, Vec3(0.2, 1.1, -0.4), Oxygen);
    SubstituentIfStage(p == 7 || p == 9, g, 10, Vec3(0.2, 1.1, -0.4), Oxygen, doubles);
    var g2 := SubstituentIf(p == 4 || p == 10 || p == 14 || p == 15, g1, 11, Vec3(0.9, -0.9, 0.3), Carbon);
    SubstituentIfStage(p == 4 || p == 10 || p == 14 || p == 15, g1, 11, Vec3(0.9, -0.9, 0.3), Carbon, doubles);
    SubstituentIfStage(p == 11, g2, 6, Vec3(0.7, 1.0, 0.0), Carbon, doubles);
    assert g.labels + [] == g.labels;
    if RingBLabels(p) == [] {
      assert RingBSubstituents(p, g).labels == g.labels;
    }
  }

  /** The recipe's prefixes, each built on the previous one. */
  function AfterTails(p: int, circle: Circle): (r: Geometry)
    ensures Consistent(r) && AttachEster < |r.pos|
  {
    Tails(p, Base(circle))
  }

  function AfterAtom5(p: int, circle: Circle): (r: Geometry)
    ensures Consistent(r) && AttachEster < |r.pos|
  {
    SubstituentIf(p == 6 || p == 16 || p == 17, AfterTails(p, circle), 5, Vec3(-1.2, 0.6, 0.2), Carbon)
  }

  function AfterHetero(p: int, circle: Circle): (r: Geometry)
    ensures Consistent(r) && AttachEster < |r.pos|
  {
    HeteroSubstituents(p, Promote(p, AfterAtom5(p, circle)))
  }

  lemma AfterTailsStage(p: int, circle: Circle)
    ensures Stage(AfterTails(p, circle), {29})
    ensures AfterTails(p, circle).labels == Carbons(22) + [Oxygen, Oxygen] + Carbons(TailLength(p))
  {
    BaseStage(circle);
    TailsStage(p, Base(circle));
  }

  lemma AfterAtom5Stage(p: int, circle: Circle)
    ensures Stage(AfterAtom5(p, circle), {29})
    ensures AfterAtom5(p, circle).labels == Carbons(22) + [Oxygen, Oxygen] + Carbons(TailLength(p))
      + (if p == 6 || p == 16 || p == 17 then [Carbon] else [])
  {
    AfterTailsStage(p, circle);
    SubstituentIfStage(p == 6 || p == 16 || p == 17, AfterTails(p, circle), 5, Vec3(-1.2, 0.6, 0.2), Carbon, {29});
  }

  lemma AfterHeteroStage(p: int, circle: Circle)
    ensures Stage(AfterHetero(p, circle), DoubleBonds(p))
    ensures AfterHetero(p, circle).labels == Carbons(22) + [Oxygen, Oxygen] + Carbons(TailLength(p))
      + (if p == 6 || p == 16 || p == 17 then [Carbon] else []) + HeteroLabels(p)
  {
    AfterAtom5Stage(p, circle);
    PromoteStage(p, AfterAtom5(p, circle));
    HeteroSubstituentsStage(p, Promote(p, AfterAtom5(p, circle)), DoubleBonds(p));
  }

  /** The recipe for any `p`: the catalogue invariant holds, the double bonds
      are `DoubleBonds(p)`, and the labels are the nucleus, the two oxygens
      and the compound's own atoms from `PresetExtraLabels`. */
  lemma PresetStage(p: int, circle: Circle)
    ensures Stage(ApplyPreset(p, circle), DoubleBonds(p))
    ensures ApplyPreset(p, circle).labels == Carbons(22) + [Oxygen, Oxygen] + PresetExtraLabels(p)
  {
    AfterHeteroStage(p, circle);
    assert ApplyPreset(p, circle) == RingBSubstituents(p, AfterHetero(p, circle));
    RingBSubstituentsStage(p, AfterHetero(p, circle), DoubleBonds(p));
    PresetLabelTable(p);
  }

  /** The recipe's clauses, read per compound, give `PresetExtraLabels`. */
  lemma PresetLabelTable(p: int)
    ensures Carbons(22) + [Oxygen, Oxygen] + Carbons(TailLength(p))
      + (if p == 6 || p == 16 || p == 17 then [Carbon] else []) + HeteroLabels(p) + RingBLabels(p)
      == Carbons(22) + [Oxygen, Oxygen] + PresetExtraLabels(p)
  {
  }

  /** Every preset yields a well-formed geometry with at least one atom and
      one bond, at most 31 atoms and 37 bonds (so neither buffer ever fills),
      six more bonds than atoms, and 24 atoms plus its own ones. */
  lemma PresetInvariants(p: int, circle: Circle)
    ensures WellFormed(ApplyPreset(p, circle))
    ensures |ApplyPreset(p, circle).pos| == 24 + |PresetExtraLabels(p)|
    ensures |ApplyPreset(p, circle).bonds| == |ApplyPreset(p, circle).pos| + 6
    ensures 0 < |ApplyPreset(p, circle).pos| <= 31 && 0 < |ApplyPreset(p, circle).bonds| <= 37
  {
    PresetStage(p, circle);
    ExtraLabelsBound(p);
    StageCounts(ApplyPreset(p, circle), DoubleBonds(p), PresetExtraLabels(p));
  }

  lemma ExtraLabelsBound(p: int)
    ensures |PresetExtraLabels(p)| <= 7
  {
  }

  lemma StageCounts(g: Geometry, doubles: set<int>, extra: seq<Label>)
    requires Stage(g, doubles) && g.labels == Carbons(22) + [Oxygen, Oxygen] + extra && |extra| <= 7
    ensures WellFormed(g) && |g.pos| == 24 + |extra| && |g.bonds| == |g.pos| + 6
    ensures 0 < |g.pos| <= 31 && 0 < |g.bonds| <= 37
  {
  }

  /** Bond orders: bond 29 (the carbonyl) is double in every preset, bonds 3
      and 8 are double in presets 3 and 5, bond 12 in preset 3, and every
      other bond is single. */
  lemma PresetBondOrders(p: int, circle: Circle)
    ensures forall j :: 0 <= j < |ApplyPreset(p, circle).bonds| ==>
      (ApplyPreset(p, circle).bonds[j].order == 2 <==>
         j == 29 || ((p == 3 || p == 5) && (j == 3 || j == 8)) || (p == 3 && j == 12))
    ensures forall j :: 0 <= j < |ApplyPreset(p, circle).bonds| ==> ApplyPreset(p, circle).bonds[j].order in {1, 2}
  {
    PresetStage(p, circle);
    DoubleBondOrders(p, ApplyPreset(p, circle).bonds);
  }

  lemma DoubleBondOrders(p: int, bs: seq<Bond>)
    requires OrdersAre(bs, DoubleBonds(p))
    ensures forall j :: 0 <= j < |bs| ==>
      (bs[j].order == 2 <==> j == 29 || ((p == 3 || p == 5) && (j == 3 || j == 8)) || (p == 3 && j == 12))
    ensures forall j :: 0 <= j < |bs| ==> bs[j].order in {1, 2}
  {
    forall j | 0 <= j < |bs|
      ensures bs[j].order == 2 <==> j == 29 || ((p == 3 || p == 5) && (j == 3 || j == 8)) || (p == 3 && j == 12)
    {
      assert bs[j].order == if j in DoubleBonds(p) then 2 else 1;
    }
  }

  /** Presets 3 and 5 have exactly the atoms and bond endpoints of preset 0:
      the promotion only changes orders. */
  lemma PromotionKeepsStructure(p: int, circle: Circle)
    requires p == 3 || p == 5
    ensures ApplyPreset(p, circle).pos == ApplyPreset(0, circle).pos
    ensures ApplyPreset(p, circle).labels == ApplyPreset(0, circle).labels
    ensures |ApplyPreset(p, circle).bonds| == |ApplyPreset(0, circle).bonds|
    ensures forall j :: 0 <= j < |ApplyPreset(0, circle).bonds| ==>
      ApplyPreset(p, circle).bonds[j].from == ApplyPreset(0, circle).bonds[j].from &&
      ApplyPreset(p, circle).bonds[j].to == ApplyPreset(0, circle).bonds[j].to
  {
    PlainPreset(0, circle);
    PlainPreset(p, circle);
    BaseStage(circle);
    PromoteStage(p, Base(circle));
  }

  /** Presets 0, 3 and 5 meet no substituent clause: they are the base
      recipe followed by the bond-order promotion. */
  lemma PlainPreset(p: int, circle: Circle)
    requires p == 0 || p == 3 || p == 5
    ensures ApplyPreset(p, circle) == Promote(p, Base(circle))
  {
    var b := Base(circle);
    NoTail(p, b);
    NoSubstituent(p == 6 || p == 16 || p == 17, b, 5, Vec3(-1.2, 0.6, 0.2), Carbon);
    var h := Promote(p, b);
    NoHetero(p, h);
    NoRingB(p, h);
  }

  lemma NoSubstituent(cond: bool, g: Geometry, at: int, offset: Vec3, l: Label)
    requires Consistent(g) && 0 <= at < |g.pos| && !cond
    ensures SubstituentIf(cond, g, at, offset, l) == g
  {
  }

  lemma NoTail(p: int, g: Geometry)
    requires Consistent(g) && AttachEster < |g.pos|
    requires p != 1 && p != 2 && p != 18 && p != 19
    ensures Tails(p, g) == g
  {
  }

  lemma NoHetero(p: int, g: Geometry)
    requires Consistent(g) && 9 < |g.pos|
    requires p != 8 && p != 12 && p != 13 && p != 17
    ensures HeteroSubstituents(p, g) == g
  {
  }

  lemma NoRingB(p: int, g: Geometry)
    requires Consistent(g) && 11 < |g.pos|
    requires p != 4 && p != 7 && p != 9 && p != 10 && p != 11 && p != 14 && p != 15
    ensures RingBSubstituents(p, g) == g
  {
  }

  lemma NucleusIsCore(circle: Circle)
    ensures Nucleus(RingA, RingB, RingC, RingD, circle) == SteroidCore(circle)
  {
  }
}
