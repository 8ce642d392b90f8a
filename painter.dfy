/** The part of `draw_molecule` that decides what is drawn and in which
    order: the bounding radius and zoom of a tile, the projected atoms, one
    draw record per bond and per atom, and the depth sort that orders them
    for the painter's algorithm. */
module Painter {
  import opened Numeric
  import M = Molecule
  import MB = MoleculeBuffer
  import P = Projection
  import S = Style
  import V = ViewControl
  import G = Grid
  import C = Catalog

  // ---------------------------------------------------------------------------
  // Bounding radius and frame set-up

  function R2(p: M.Vec3): (r: real)
    ensures r >= 0.0
  {
    p.x * p.x + p.y * p.y + p.z * p.z
  }

  /** The largest squared distance of an atom from the origin, 0 for no
      atoms. */
  function MaxR2(ps: seq<M.Vec3>): (m: real)
    ensures m >= 0.0
    ensures forall i :: 0 <= i < |ps| ==> R2(ps[i]) <= m
    ensures m == 0.0 || exists i :: 0 <= i < |ps| && m == R2(ps[i])
    decreases |ps|
  {
    if |ps| == 0 then 0.0
    else
      var front := ps[..|ps| - 1];
      var m := MaxR2(front);
      assert forall i :: 0 <= i < |front| ==> front[i] == ps[i];
      var r := R2(ps[|ps| - 1]);
      if r > m then r else m
  }

  /** The first loop of `compute_bounding_radius`. */
  method MaxRadiusSquared(mol: MB.MoleculeGeometry) returns (maxR2: real)
    requires mol.Valid()
    ensures maxR2 == MaxR2(mol.Contents().pos)
  {
    ghost var pos := mol.Contents().pos;
    maxR2 := 0.0;
    var i := 0;
    while i < mol.atomCount
      invariant 0 <= i <= mol.atomCount
      invariant maxR2 == MaxR2(pos[..i])
    {
      var p := mol.atomPos[i];
      var r2 := R2(p);
      assert p == pos[i];
      MaxR2Snoc(pos, i);
      if r2 > maxR2 {
        maxR2 := r2;
      }
      i := i + 1;
    }
    assert pos[..i] == pos;
  }

  lemma MaxR2Snoc(pos: seq<M.Vec3>, i: int)
    requires 0 <= i < |pos|
    ensures MaxR2(pos[..i + 1]) == if R2(pos[i]) > MaxR2(pos[..i]) then R2(pos[i]) else MaxR2(pos[..i])
  {
    assert pos[..i + 1][..i] == pos[..i];
  }

  /** The rest of `compute_bounding_radius`, given the square root of the
      maximum: radii below 0.001 fall back to 1, so the zoom division is
      always defined. */
  function BoundingRadius(root: real): (r: real)
    ensures r >= 0.001
    ensures root >= 0.001 ==> r == root
    ensures root < 0.001 ==> r == 1.0
  {
    if root < 0.001 then 1.0 else root
  }

  /** The per-tile view parameters of one frame. */
  datatype Frame = Frame(zoom: real, yaw: real, pitch: real, centerX: int, centerY: int)

  /** Zoom, angles and projection centre of a tile: 38% of the shorter tile
      side per bounding radius, times compound scale and view zoom; the
      auto-rotation adds 0.7 rad/s of yaw and 0.25 rad/s of pitch; the
      centre is the tile's centre moved by the rounded pan. */
  function FrameFor(rect: G.Rect, radius: real, baseScale: real, view: V.View, timeSeconds: real, autoRotate: bool): (f: Frame)
    requires radius > 0.0
    ensures !autoRotate ==> f.yaw == view.yaw && f.pitch == view.pitch
    ensures view.panX == 0.0 && view.panY == 0.0 ==>
      f.centerX == rect.x + CDiv(rect.w, 2) && f.centerY == rect.y + CDiv(rect.h, 2)
  {
    var minDim := if rect.w < rect.h then rect.w else rect.h;
    var baseZoom := minDim as real * 0.38 / radius;
    var autoYaw := if autoRotate then timeSeconds * 0.7 else 0.0;
    var autoPitch := if autoRotate then timeSeconds * 0.25 else 0.0;
    LRoundOfInt(0);
    Frame(baseZoom * baseScale * view.zoomMultiplier, autoYaw + view.yaw, autoPitch + view.pitch,
          rect.x + CDiv(rect.w, 2) + LRound(view.panX), rect.y + CDiv(rect.h, 2) + LRound(view.panY))
  }

  /** Every tile of the grid gets a positive zoom at every view zoom the
      controls allow. */
  lemma FrameZoomPositive(index: int, radius: real, view: V.View, timeSeconds: real, autoRotate: bool)
    requires 0 <= index < G.TileCount && radius > 0.0 && V.InRange(view)
    ensures FrameFor(G.TileRect(index), radius, 1.0, view, timeSeconds, autoRotate).zoom > 0.0
  {
    var b := 207.0 * 0.38 / radius;
    assert b > 0.0;
    assert b * 1.0 * view.zoomMultiplier > 0.0;
  }

  /** The frame parameters of the source's tile: from the geometry's
      bounding radius, with `sqrt` supplied by the caller. */
  function FrameOf(g: M.Geometry, compound: C.Compound, rect: G.Rect, view: V.View, timeSeconds: real, autoRotate: bool,
                   sqrt: real -> real): Frame
  {
    FrameFor(rect, BoundingRadius(sqrt(MaxR2(g.pos))), compound.baseScale, view, timeSeconds, autoRotate)
  }

  // ---------------------------------------------------------------------------
  // Projection and draw records

  /** `rotate_yaw_pitch` is supplied by the caller; the projection needs
      every rotated atom out of the eye's plane. */
  predicate Drawable(pos: seq<M.Vec3>, rotate: (M.Vec3, real, real) -> M.Vec3, f: Frame) {
    forall i :: 0 <= i < |pos| ==> P.Projectable(rotate(pos[i], f.yaw, f.pitch))
  }

  /** `projectedX/Y/Depth`: every atom rotated and projected. */
  function ProjectAll(pos: seq<M.Vec3>, rotate: (M.Vec3, real, real) -> M.Vec3, f: Frame): (r: seq<P.Projected>)
    requires Drawable(pos, rotate, f)
    ensures |r| == |pos|
    ensures forall i :: 0 <= i < |pos| ==> r[i].depth == rotate(pos[i], f.yaw, f.pitch).z
  {
    seq(|pos|, i requires 0 <= i < |pos| => P.Project(rotate(pos[i], f.yaw, f.pitch), f.zoom, f.centerX, f.centerY))
  }

  /** `BondDraw`. */
  datatype BondDraw = BondDraw(x1: int, y1: int, x2: int, y2: int, depth: real, order: int, color: u32, alpha: u8)

  /** `AtomDraw`. */
  datatype AtomDraw = AtomDraw(atomIndex: int, depth: real, screenX: int, screenY: int, radius: int, color: u32)

  function BondDepth(b: BondDraw): real { b.depth }
  function AtomDepth(a: AtomDraw): real { a.depth }

  predicate EndpointsIn(bonds: seq<M.Bond>, n: int) {
    forall j :: 0 <= j < |bonds| ==> 0 <= bonds[j].from < n && 0 <= bonds[j].to < n
  }

  /** The record of bond `b`: its endpoints' screen positions, the mean of
      their depths, its order, the compound's colour and the selection's
      alpha. */
  function BondRecord(b: M.Bond, proj: seq<P.Projected>, color: u32, selected: bool): BondDraw
    requires 0 <= b.from < |proj| && 0 <= b.to < |proj|
  {
    var f, t := proj[b.from], proj[b.to];
    BondDraw(f.screenX, f.screenY, t.screenX, t.screenY, (f.depth + t.depth) * 0.5, b.order, color, S.BondAlpha(selected))
  }

  function BondRecords(bonds: seq<M.Bond>, proj: seq<P.Projected>, color: u32, selected: bool): (r: seq<BondDraw>)
    requires EndpointsIn(bonds, |proj|)
    ensures |r| == |bonds|
  {
    seq(|bonds|, j requires 0 <= j < |bonds| => BondRecord(bonds[j], proj, color, selected))
  }

  /** The record of atom `i`: its projection, a radius from its label and
      depth, and its colour by label. */
  function AtomRecord(i: int, l: M.Label, p: P.Projected, color: u32, wireframe: bool): AtomDraw {
    AtomDraw(i, p.depth, p.screenX, p.screenY, S.AtomRadius(l, wireframe, p.depth), S.AtomColor(l, color))
  }

  function AtomRecords(labels: seq<M.Label>, proj: seq<P.Projected>, color: u32, wireframe: bool): (r: seq<AtomDraw>)
    requires |labels| == |proj|
    ensures |r| == |labels|
  {
    seq(|labels|, i requires 0 <= i < |labels| => AtomRecord(i, labels[i], proj[i], color, wireframe))
  }

  /** What each bond record says: it joins the screen positions of the
      bond's two atoms, its depth lies between theirs (it is their mean),
      it keeps the bond's order, and its alpha is 230 on the selected tile
      and 140 elsewhere. */
  lemma BondRecordMeaning(bonds: seq<M.Bond>, proj: seq<P.Projected>, color: u32, selected: bool, j: int)
    requires EndpointsIn(bonds, |proj|) && 0 <= j < |bonds|
    ensures var r := BondRecords(bonds, proj, color, selected)[j];
      var f, t := proj[bonds[j].from], proj[bonds[j].to];
      r.x1 == f.screenX && r.y1 == f.screenY && r.x2 == t.screenX && r.y2 == t.screenY
      && (f.depth <= r.depth <= t.depth || t.depth <= r.depth <= f.depth)
      && 2.0 * r.depth == f.depth + t.depth
      && r.order == bonds[j].order && r.color == color
      && r.alpha == (if selected then 230 else 140)
  {
  }

  /** What each atom record says: it names its atom, carries that atom's
      projection, a radius of 2 to 12 pixels, and the compound's colour
      exactly for carbon. */
  lemma AtomRecordMeaning(labels: seq<M.Label>, proj: seq<P.Projected>, color: u32, wireframe: bool, i: int)
    requires |labels| == |proj| && 0 <= i < |labels|
    ensures var r := AtomRecords(labels, proj, color, wireframe)[i];
      r.atomIndex == i && r.depth == proj[i].depth && r.screenX == proj[i].screenX && r.screenY == proj[i].screenY
      && 2 <= r.radius <= 12
      && (labels[i] == M.Carbon ==> r.color == color)
  {
  }

  /** Of two atoms with one label, the nearer one's record has the larger
      disc. */
  lemma NearerAtomsLarger(labels: seq<M.Label>, proj: seq<P.Projected>, color: u32, wireframe: bool, i: int, k: int)
    requires |labels| == |proj| && 0 <= i < |labels| && 0 <= k < |labels|
    requires labels[i] == labels[k] && proj[i].depth <= proj[k].depth
    ensures AtomRecords(labels, proj, color, wireframe)[k].radius <= AtomRecords(labels, proj, color, wireframe)[i].radius
  {
    S.AtomRadiusFalls(labels[i], wireframe, proj[i].depth, proj[k].depth);
  }

  // ---------------------------------------------------------------------------
  // Depth order

  /** `sort_bonds_far_to_near` and `sort_atoms_far_to_near` as written:
      negative when the first depth is smaller. */
  function CompareAsWritten(a: real, b: real): (c: int)
    ensures c < 0 <==> a < b
    ensures c > 0 <==> b < a
  {
    if a < b then -1 else if a > b then 1 else 0
  }

  /** The comparator the names promise: farther (larger depth) first. */
  function CompareFarToNear(a: real, b: real): (c: int)
    ensures c < 0 <==> b < a
    ensures c > 0 <==> a < b
  {
    if a > b then -1 else if a < b then 1 else 0
  }

  /** The order `qsort` leaves a list in with a comparator: no pair out of
      order. */
  predicate OrderedBy<T>(s: seq<T>, depth: T -> real, cmp: (real, real) -> int) {
    forall i, j :: 0 <= i < j < |s| ==> cmp(depth(s[i]), depth(s[j])) <= 0
  }

  /** Farthest first: what a painter's algorithm needs, so that nearer
      things are drawn over farther ones. */
  predicate FarToNear<T>(s: seq<T>, depth: T -> real) {
    forall i, j :: 0 <= i < j < |s| ==> depth(s[j]) <= depth(s[i])
  }

  /** Nearest first: the order an ascending sort by depth leaves. */
  predicate NearToFar<T>(s: seq<T>, depth: T -> real) {
    forall i, j :: 0 <= i < j < |s| ==> depth(s[i]) <= depth(s[j])
  }

  /** The corrected comparator orders exactly far to near. */
  lemma CorrectedOrderIsFarToNear<T>(s: seq<T>, depth: T -> real)
    ensures OrderedBy(s, depth, CompareFarToNear) <==> FarToNear(s, depth)
  {
  }

  /** As written, `qsort` orders ascending by depth: near to far. */
  lemma AsWrittenOrderIsNearToFar<T>(s: seq<T>, depth: T -> real)
    ensures OrderedBy(s, depth, CompareAsWritten) <==> NearToFar(s, depth)
  {
  }

  /** The sorted order as written draws a far atom over a near one: two
      atoms at depths 0 and 10 are left with the nearer (depth 0, larger
      perspective) first, so the farther one is painted on top. */
  lemma AsWrittenDrawsFarOverNear()
    ensures var s := [AtomDraw(0, 0.0, 800, 450, 7, 0xE74C3CFF), AtomDraw(1, 10.0, 800, 450, 7, 0xE74C3CFF)];
      OrderedBy(s, AtomDepth, CompareAsWritten)
      && P.Perspective(s[1].depth) < P.Perspective(s[0].depth)
      && !FarToNear(s, AtomDepth)
  {
    P.PerspectiveFalls(0.0, 10.0);
  }

  /** In a far-to-near list every record drawn later is at least as near as
      every record drawn before it. */
  lemma LaterIsNearer<T>(s: seq<T>, depth: T -> real, i: int, j: int)
    requires FarToNear(s, depth) && 0 <= i < j < |s| && -P.EyeDistance < depth(s[j])
    ensures P.Perspective(depth(s[i])) <= P.Perspective(depth(s[j]))
  {
    if depth(s[j]) < depth(s[i]) {
      P.PerspectiveFalls(depth(s[j]), depth(s[i]));
    }
  }

  /** The depth sort as written: `qsort` with the ascending comparators,
      in place, nearest first. It is the far-to-near sort on negated depth. */
  method SortNearToFar<T>(a: array<T>, depth: T -> real)
    modifies a
    ensures OrderedBy(a[..], depth, CompareAsWritten)
    ensures NearToFar(a[..], depth)
    ensures multiset(a[..]) == multiset(old(a[..]))
  {
    SortFarToNear(a, x => -depth(x));
  }

  /** The corrected depth sort, done in place, farthest first. */
  method SortFarToNear<T>(a: array<T>, depth: T -> real)
    modifies a
    ensures FarToNear(a[..], depth)
    ensures multiset(a[..]) == multiset(old(a[..]))
  {
    for i := 0 to a.Length
      invariant FarToNear(a[..i], depth)
      invariant multiset(a[..]) == multiset(old(a[..]))
    {
      InsertFarToNear(a, i, depth);
    }
    assert a[..a.Length] == a[..];
  }

  /** One insertion step of the corrected sort: `a[i]` moves left past
      every nearer record. */
  method InsertFarToNear<T>(a: array<T>, i: int, depth: T -> real)
    requires 0 <= i < a.Length && FarToNear(a[..i], depth)
    modifies a
    ensures FarToNear(a[..i + 1], depth)
    ensures multiset(a[..]) == multiset(old(a[..]))
  {
    var j := i;
    InsertStart(a[..], i, depth);
    while j > 0 && depth(a[j - 1]) < depth(a[j])
      invariant 0 <= j <= i
      invariant multiset(a[..]) == multiset(old(a[..]))
      invariant Inserting(a[..], i, j, depth)
    {
      InsertStep(a[..], i, j, depth);
      Swap(a, j);
      j := j - 1;
    }
    InsertDone(a[..], i, j, depth);
  }

  /** Midway through an insertion step: `s[..i + 1]` is far to near except
      for the record at `j` being moved left. */
  predicate Inserting<T>(s: seq<T>, i: int, j: int, depth: T -> real)
    requires 0 <= j <= i < |s|
  {
    (forall p, q :: 0 <= p < q <= i && q != j ==> depth(s[q]) <= depth(s[p]))
    && (0 < j < i ==> depth(s[j + 1]) <= depth(s[j - 1]))
  }

  lemma InsertStart<T>(s: seq<T>, i: int, depth: T -> real)
    requires 0 <= i < |s| && FarToNear(s[..i], depth)
    ensures Inserting(s, i, i, depth)
  {
    assert forall p :: 0 <= p < i ==> s[..i][p] == s[p];
  }

  lemma InsertStep<T>(s: seq<T>, i: int, j: int, depth: T -> real)
    requires 0 < j <= i < |s| && Inserting(s, i, j, depth) && depth(s[j - 1]) < depth(s[j])
    ensures Inserting(s[j - 1 := s[j]][j := s[j - 1]], i, j - 1, depth)
  {
  }

  lemma InsertDone<T>(s: seq<T>, i: int, j: int, depth: T -> real)
    requires 0 <= j <= i < |s| && Inserting(s, i, j, depth)
    requires j == 0 || depth(s[j]) <= depth(s[j - 1])
    ensures FarToNear(s[..i + 1], depth)
  {
    assert forall p :: 0 <= p <= i ==> s[..i + 1][p] == s[p];
  }

  /** Exchanges `a[j - 1]` and `a[j]`. */
  method Swap<T>(a: array<T>, j: int)
    requires 0 < j < a.Length
    modifies a
    ensures a[..] == old(a[..])[j - 1 := old(a[j])][j := old(a[j - 1])]
    ensures multiset(a[..]) == multiset(old(a[..]))
  {
    a[j - 1], a[j] := a[j], a[j - 1];
  }

  // ---------------------------------------------------------------------------
  // The draw lists of one tile

  method ProjectAtoms(mol: MB.MoleculeGeometry, rotate: (M.Vec3, real, real) -> M.Vec3, f: Frame)
    returns (proj: array<P.Projected>)
    requires mol.Valid() && Drawable(mol.Contents().pos, rotate, f)
    ensures fresh(proj) && proj[..] == ProjectAll(mol.Contents().pos, rotate, f)
  {
    ghost var pos := mol.Contents().pos;
    proj := new P.Projected[mol.atomCount](_ => P.Projected(0, 0, 0.0));
    for i := 0 to mol.atomCount
      invariant forall k :: 0 <= k < i ==> proj[k] == ProjectAll(pos, rotate, f)[k]
    {
      var rp := rotate(mol.atomPos[i], f.yaw, f.pitch);
      proj[i] := P.Project(rp, f.zoom, f.centerX, f.centerY);
    }
  }

  method BondDraws(mol: MB.MoleculeGeometry, proj: array<P.Projected>, color: u32, selected: bool)
    returns (draws: array<BondDraw>)
    requires mol.Valid() && proj.Length == mol.atomCount && EndpointsIn(mol.Contents().bonds, proj.Length)
    ensures fresh(draws) && draws[..] == BondRecords(mol.Contents().bonds, proj[..], color, selected)
  {
    ghost var bonds := mol.Contents().bonds;
    var alpha := S.BondAlpha(selected);
    draws := new BondDraw[mol.bondCount](_ => BondDraw(0, 0, 0, 0, 0.0, 0, 0, 0));
    for i := 0 to mol.bondCount
      invariant forall k :: 0 <= k < i ==> draws[k] == BondRecords(bonds, proj[..], color, selected)[k]
    {
      var b := mol.bonds[i];
      var depth := (proj[b.from].depth + proj[b.to].depth) * 0.5;
      draws[i] := BondDraw(proj[b.from].screenX, proj[b.from].screenY, proj[b.to].screenX, proj[b.to].screenY,
                           depth, b.order, color, alpha);
    }
  }

  method AtomDraws(mol: MB.MoleculeGeometry, proj: array<P.Projected>, color: u32, wireframe: bool)
    returns (draws: array<AtomDraw>)
    requires mol.Valid() && proj.Length == mol.atomCount
    ensures fresh(draws) && draws[..] == AtomRecords(mol.Contents().labels, proj[..], color, wireframe)
  {
    ghost var labels := mol.Contents().labels;
    draws := new AtomDraw[mol.atomCount](_ => AtomDraw(0, 0.0, 0, 0, 0, 0));
    for i := 0 to mol.atomCount
      invariant forall k :: 0 <= k < i ==> draws[k] == AtomRecords(labels, proj[..], color, wireframe)[k]
    {
      var l := mol.atomLabel[i];
      var p := proj[i];
      draws[i] := AtomDraw(i, p.depth, p.screenX, p.screenY, S.AtomRadius(l, wireframe, p.depth), S.AtomColor(l, color));
    }
  }

  /** The unsorted draw lists of one tile: the bounding radius gives the
      frame, every atom is projected, and then one record is made per bond
      and one per atom. */
  method DrawRecords(compound: C.Compound, mol: MB.MoleculeGeometry, rect: G.Rect, selected: bool, wireframe: bool,
                     timeSeconds: real, view: V.View, autoRotate: bool,
                     rotate: (M.Vec3, real, real) -> M.Vec3, sqrt: real -> real)
    returns (bonds: array<BondDraw>, atoms: array<AtomDraw>)
    requires mol.Valid() && M.WellFormed(mol.Contents())
    requires Drawable(mol.Contents().pos, rotate, FrameOf(mol.Contents(), compound, rect, view, timeSeconds, autoRotate, sqrt))
    ensures fresh(bonds) && fresh(atoms)
    ensures var g := mol.Contents();
      var proj := ProjectAll(g.pos, rotate, FrameOf(g, compound, rect, view, timeSeconds, autoRotate, sqrt));
      bonds[..] == BondRecords(g.bonds, proj, compound.colorRGBA, selected)
      && atoms[..] == AtomRecords(g.labels, proj, compound.colorRGBA, wireframe)
  {
    var maxR2 := MaxRadiusSquared(mol);
    var radius := BoundingRadius(sqrt(maxR2));
    var f := FrameFor(rect, radius, compound.baseScale, view, timeSeconds, autoRotate);
    var proj := ProjectAtoms(mol, rotate, f);
    bonds := BondDraws(mol, proj, compound.colorRGBA, selected);
    atoms := AtomDraws(mol, proj, compound.colorRGBA, wireframe);
  }

  /** `draw_molecule` as written: one record per bond and one per atom,
      each list a permutation of the records, sorted ascending by depth, so
      that the nearest records are painted first and the farthest last. */
  method DrawMoleculeAsWritten(compound: C.Compound, mol: MB.MoleculeGeometry, rect: G.Rect, selected: bool,
                               wireframe: bool, timeSeconds: real, view: V.View, autoRotate: bool,
                               rotate: (M.Vec3, real, real) -> M.Vec3, sqrt: real -> real)
    returns (bondList: seq<BondDraw>, atomList: seq<AtomDraw>)
    requires mol.Valid() && M.WellFormed(mol.Contents())
    requires Drawable(mol.Contents().pos, rotate, FrameOf(mol.Contents(), compound, rect, view, timeSeconds, autoRotate, sqrt))
    ensures var g := mol.Contents();
      var proj := ProjectAll(g.pos, rotate, FrameOf(g, compound, rect, view, timeSeconds, autoRotate, sqrt));
      |bondList| == |g.bonds| && |atomList| == |g.pos|
      && multiset(bondList) == multiset(BondRecords(g.bonds, proj, compound.colorRGBA, selected))
      && multiset(atomList) == multiset(AtomRecords(g.labels, proj, compound.colorRGBA, wireframe))
      && OrderedBy(bondList, BondDepth, CompareAsWritten) && OrderedBy(atomList, AtomDepth, CompareAsWritten)
  {
    var bonds, atoms := DrawRecords(compound, mol, rect, selected, wireframe, timeSeconds, view, autoRotate, rotate, sqrt);
    SortNearToFar(bonds, BondDepth);
    SortNearToFar(atoms, AtomDepth);
    bondList, atomList := bonds[..], atoms[..];
  }

  /** `draw_molecule` with the corrected comparators: one record per bond
      and one per atom, each list a permutation of the records and ordered
      far to near, so that nearer records are painted over farther ones. */
  method DrawMolecule(compound: C.Compound, mol: MB.MoleculeGeometry, rect: G.Rect, selected: bool, wireframe: bool,
                      timeSeconds: real, view: V.View, autoRotate: bool,
                      rotate: (M.Vec3, real, real) -> M.Vec3, sqrt: real -> real)
    returns (bondList: seq<BondDraw>, atomList: seq<AtomDraw>)
    requires mol.Valid() && M.WellFormed(mol.Contents())
    requires Drawable(mol.Contents().pos, rotate, FrameOf(mol.Contents(), compound, rect, view, timeSeconds, autoRotate, sqrt))
    ensures var g := mol.Contents();
      var proj := ProjectAll(g.pos, rotate, FrameOf(g, compound, rect, view, timeSeconds, autoRotate, sqrt));
      |bondList| == |g.bonds| && |atomList| == |g.pos|
      && multiset(bondList) == multiset(BondRecords(g.bonds, proj, compound.colorRGBA, selected))
      && multiset(atomList) == multiset(AtomRecords(g.labels, proj, compound.colorRGBA, wireframe))
      && FarToNear(bondList, BondDepth) && FarToNear(atomList, AtomDepth)
  {
    var bonds, atoms := DrawRecords(compound, mol, rect, selected, wireframe, timeSeconds, view, autoRotate, rotate, sqrt);
    SortFarToNear(bonds, BondDepth);
    SortFarToNear(atoms, AtomDepth);
    bondList, atomList := bonds[..], atoms[..];
  }
}
