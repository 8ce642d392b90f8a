# Structural Atlas — a verified model of its core

Structural Atlas is an SDL program that shows twenty steroid compounds as
ball-and-stick molecules in a 5 x 4 grid of tiles. Each tile can be rotated,
panned and zoomed, the selection moves with the arrow keys, and a focus mode
shows one compound full-window. This project models the logic behind that
picture, all of it from `src/main.c`, and proves properties of the model:

- the bounded molecule buffer (`add_atom`, `add_bond`) and the geometry
  recipes (`build_steroid_core`, `add_ester_tail`, `apply_preset`) with
  their catalogue of twenty compounds;
- the per-compound view controls (`reset_view_control` and the drag, pan and
  wheel rules of the event loop) and the grid navigation;
- the event loop's state, updated in place event by event, with the
  molecule cache it builds at start-up and the tiles each frame draws;
- `draw_molecule`'s decisions: bounding radius and zoom, projection, one
  draw record per bond and per atom, the depth sort, and the strokes and
  discs each record becomes (`draw_stick`, `lighten`, `darken`, the colour
  and size tables);
- the scalar helpers `clampf`, `lroundf`, truncating casts and C's integer
  `/` and `%`.

Files and modules:

| file | module | what it holds |
|---|---|---|
| numeric.dfy | `Numeric` | `clampf`, `lroundf`, `(int)` and `(uint8_t)` casts, C division, `u8`/`u32` |
| colors.dfy | `Colors` | `color_r/g/b`, `lighten`, `darken` |
| molecule.dfy | `Molecule` | the geometry as a value; every builder step as a function; the structural lemmas |
| moleculebuffer.dfy | `MoleculeBuffer` | class `MoleculeGeometry` over the fixed-size arrays; every builder as a method proved equal to its `Molecule` function |
| catalog.dfy | `Catalog` | the `compounds` table and the catalogue invariants |
| viewcontrol.dfy | `ViewControl` | the `ViewControl` record and its update rules |
| grid.dfy | `Grid` | arrow-key navigation and `get_tile_rect` |
| projection.dfy | `Projection` | `project_to_screen` |
| style.dfy | `Style` | colours, sizes, alpha, stick widths, strokes, discs and label anchor |
| painter.dfy | `Painter` | `compute_bounding_radius`, the frame set-up, the draw records, the depth sort and `draw_molecule` |
| atlas.dfy | `Atlas` | the event loop: state, events, invariant, class `AtlasLoop`, the molecule cache and the frame layout |

How the model is built:

- Mutable records are classes. `MoleculeBuffer.MoleculeGeometry` keeps the
  source's arrays of 64 atoms and 96 bonds and its two counters. Each of its
  methods ensures `Contents() == F(old(Contents()))` for the matching
  function `F` of `Molecule`. The lemmas about `F` then hold of the buffer.
  `Atlas.AtlasLoop` keeps the loop's variables and its array of views. Each
  handler ensures `Snapshot() == Step(old(Snapshot()), e)`.
- Floats are modelled as reals. `lroundf` is exact rounding, halves away
  from zero. The `(int)` and `(uint8_t)` casts truncate toward zero.
- Three inputs cannot be computed here, so the caller supplies them as
  parameters:
  - the cosine and sine of each ring vertex, as a `Molecule.Circle`;
  - `rotate_yaw_pitch`, as a `rotate` function;
  - `sqrtf`, as a `sqrt` function.

## Model

| member | source | states |
|---|---|---|
| Numeric.Clamp | src/main.c:72-76 | the result is `lo` below the range, `hi` above it, and `v` itself inside it; for `lo <= hi` it always lies in `[lo, hi]` |
| Numeric.ClampIdempotent | src/main.c:72-76 | clamping an already clamped value changes nothing |
| Numeric.ClampMonotone | src/main.c:72-76 | clamping preserves the order of two values |
| Numeric.LRound | src/main.c:124-125 | `lroundf` gives the integer within one half of `v`; halves go away from zero |
| Numeric.LRoundOfInt | src/main.c:124-125 | an integer rounds to itself |
| Numeric.LRoundNegate | src/main.c:124-125 | rounding is symmetric about zero |
| Numeric.LRoundMonotone | src/main.c:124-125 | rounding preserves order |
| Numeric.Trunc | src/main.c:564 | the C `(int)` cast: the integer part, truncated toward zero from either side |
| Numeric.CDiv | src/main.c:398-400 | C integer division: truncates toward zero; agrees with floor division for non-negative operands |
| Numeric.CMod | src/main.c:398-400 | C `%`: `a == b * (a / b) + a % b`; the remainder has the dividend's sign and is smaller than the divisor |
| Numeric.ToByte | src/main.c:92-94 | the `(uint8_t)` cast of a clamped value is the byte at most one below it |
| Colors.Pack | src/main.c:95 | the three shifted bytes and the `0xFF` low byte come back out of `color_r/g/b` unchanged |
| Colors.Lighten | src/main.c:87-96 | each colour channel of the result is that channel lightened by `t`; the low byte is `0xFF` |
| Colors.Darken | src/main.c:98-107 | each colour channel of the result is that channel scaled by `1 - t`; the low byte is `0xFF` |
| Colors.ChannelOrder | src/main.c:87-107 | for `t` in [0, 1], a darkened channel ≤ the channel ≤ the lightened channel |
| Colors.LightenBrightens | src/main.c:87-96 | lightening never lowers a colour channel |
| Colors.DarkenDims | src/main.c:98-107 | darkening never raises a colour channel |
| Colors.ZeroShadeIsOpaque | src/main.c:87-107 | with `t = 0` both keep the three channels and only force the low byte to `0xFF` |
| Colors.FullShades | src/main.c:87-107 | with `t = 1`, lighten gives opaque white and darken gives opaque black |
| Molecule.AddAtom | src/main.c:219-224 | below 64 atoms: one atom appended at the old count with its label, earlier entries and bonds unchanged; at 64: nothing changes |
| Molecule.AddBond | src/main.c:226-229 | below 96 bonds: `Bond(a, b, order)` appended at the old count, atoms and earlier bonds unchanged; at 96: nothing changes |
| Molecule.SetOrder | src/main.c:312-313 | `bonds[k].order = order`: only bond `k`'s order changes, its endpoints and every other bond stay as they were |
| Molecule.RingAtomsAppend | src/main.c:235-238 | below capacity, a ring's atom loop appends exactly the ring's vertices, all carbon |
| Molecule.RingBondsAppend | src/main.c:239 | below capacity, a ring's bond loop appends bond `i` from `base + i` to `base + (i + 1) % n`, in order |
| Molecule.AddRingAppend | src/main.c:235-239 | a ring appends its vertices, `n` carbons and `n` bonds; the last bond closes the ring from `base + n - 1` back to `base` |
| Molecule.FusedRingAppend | src/main.c:241-248 | a later ring appends its atoms and bonds and then exactly its two order-1 fusion bonds |
| Molecule.SteroidCoreCounts | src/main.c:231-268 | the nucleus always has 22 atoms and 28 bonds |
| Molecule.SteroidCoreShape | src/main.c:231-268 | the nucleus is exactly the four rings' points, 22 carbons and the bond table written out ring by ring and fusion by fusion, whatever the buffer held before |
| Molecule.NucleusProperties | src/main.c:231-268 | the nucleus is well formed with 22 carbon atoms and 28 bonds, all of order 1; each ring's closing bond runs from its last atom to its first; each fusion bond joins two different rings |
| Molecule.NucleusIsCore | src/main.c:231-268 | the four-ring steps the buffer runs, applied to rings A to D, are `build_steroid_core` |
| Molecule.TailSegment | src/main.c:272-279 | below capacity, one tail iteration appends one carbon offset from the attach atom's position and one order-1 bond from `previous` (the attach atom first, then the last atom) to it |
| Molecule.EsterTailCounts | src/main.c:270-281 | below capacity, a tail of `n` segments adds exactly `n` atoms and `n` bonds |
| Molecule.EsterTailPositions | src/main.c:272-276 | tail atom `i` sits at the attach atom's position plus `((i+1)·1.1, -0.4·i, wiggle·i)`, never relative to the previous tail atom |
| Molecule.EsterTailLabels | src/main.c:276 | every tail atom is carbon |
| Molecule.EsterTailBonds | src/main.c:277-279 | the tail's bonds form the path attach → c0 → c1 → … → c(n-1) |
| Molecule.EsterTailShape | src/main.c:270-281 | the whole tail: positions, carbon labels and path bonds appended after the old contents |
| Molecule.TailBondsSingle | src/main.c:278 | every tail bond has order 1 |
| Molecule.EsterTailWellFormed | src/main.c:270-281 | below capacity, a tail keeps a well-formed geometry well formed |
| Molecule.SaturatedTailSelfBond | src/main.c:276-279 | at 64 atoms, with room for bonds, the second tail iteration bonds the last atom to itself: the dropped atom leaves `previous` and `current` equal |
| Molecule.Substituent | src/main.c:290-298 | below capacity, one substituent atom at `at`'s position plus the offset, and a bond from `at` to it with the given order |
| Molecule.CommonSubstituentsShape | src/main.c:290-298 | after the nucleus: oxygen 22 bonded to atom 2 by a single bond and oxygen 23 bonded to atom 8 by a double bond |
| Molecule.BaseShape | src/main.c:284-298 | the common prefix of every preset is exactly the nucleus plus its two oxygens |
| Molecule.OneTail | src/main.c:300-303 | for a tail preset exactly one tail clause fires |
| Molecule.NoTail | src/main.c:300-303 | for every other preset the tail clauses change nothing |
| Molecule.NoSubstituent | src/main.c:305-348 | a clause whose test fails changes nothing |
| Molecule.NoHetero | src/main.c:320-333 | the N, Cl and F clauses change nothing outside presets 8, 12, 13 and 17 |
| Molecule.NoRingB | src/main.c:335-348 | the ring-B clauses change nothing outside presets 4, 7, 9, 10, 11, 14 and 15 |
| Molecule.PromoteStage | src/main.c:310-318 | the promotion keeps atoms, labels and every bond's endpoints, and sets exactly bonds 3 and 8 (presets 3 and 5) and bond 12 (preset 3) to order 2 |
| Molecule.PresetStage | src/main.c:283-349 | every preset's geometry keeps the recipe invariant, and its labels are the base's 22 carbons and 2 oxygens followed by the preset's own extra atoms in clause order |
| Molecule.PresetInvariants | src/main.c:283-349 | for every preset identifier: well formed (bond endpoints distinct, existing atoms; orders 1 to 3), exactly 6 more bonds than atoms, at most 31 atoms and 37 bonds, so the capacity limits never bite |
| Molecule.PresetBondOrders | src/main.c:295-318 | bond 29 (the carbonyl) is double in every preset; bonds 3 and 8 are double exactly for presets 3 and 5, bond 12 exactly for preset 3; every other bond is single |
| Molecule.PromotionKeepsStructure | src/main.c:310-318 | presets 3 and 5 have exactly preset 0's atoms, labels, bond count and bond endpoints |
| Molecule.PlainPreset | src/main.c:283-349 | presets 0, 3 and 5 meet no substituent or tail clause: they are the base with, for 3 and 5, the promotion |
| MoleculeBuffer.MoleculeGeometry.constructor | src/main.c:33-39 | a fresh record with both counts 0 |
| MoleculeBuffer.MoleculeGeometry.AddAtom | src/main.c:219-224 | the buffer holds `Molecule.AddAtom` of its old contents |
| MoleculeBuffer.MoleculeGeometry.AddBond | src/main.c:226-229 | the buffer holds `Molecule.AddBond` of its old contents |
| MoleculeBuffer.MoleculeGeometry.AddRingAtoms | src/main.c:235-238 | the atom loop of a ring leaves the buffer holding that loop's contents |
| MoleculeBuffer.MoleculeGeometry.AddRingBonds | src/main.c:239 | the bond loop of a ring leaves the buffer holding that loop's contents |
| MoleculeBuffer.MoleculeGeometry.AddRing | src/main.c:235-239 | one ring, atoms then bonds |
| MoleculeBuffer.MoleculeGeometry.AddFusedRing | src/main.c:241-248 | one later ring and its two fusion bonds |
| MoleculeBuffer.MoleculeGeometry.AddRings | src/main.c:235-267 | the four rings and their fusions, from an empty buffer |
| MoleculeBuffer.MoleculeGeometry.BuildSteroidCore | src/main.c:231-268 | `build_steroid_core`: both counts reset, then the nucleus, whatever the buffer held |
| MoleculeBuffer.MoleculeGeometry.TailSegment | src/main.c:272-279 | one iteration of the tail loop, with `previous` threaded through |
| MoleculeBuffer.MoleculeGeometry.AddEsterTail | src/main.c:270-281 | `add_ester_tail`: the buffer holds `Molecule.EsterTail` of its old contents |
| MoleculeBuffer.MoleculeGeometry.AddSubstituent | src/main.c:290-298 | one add_atom/add_bond substituent pair |
| MoleculeBuffer.MoleculeGeometry.BuildBase | src/main.c:284-298 | the nucleus and its two oxygens: 24 atoms |
| MoleculeBuffer.MoleculeGeometry.AddCommonSubstituents | src/main.c:290-298 | the hydroxyl and carbonyl oxygens |
| MoleculeBuffer.MoleculeGeometry.TailClause | src/main.c:300-303 | one `if(presetType == …) add_ester_tail(…)` clause |
| MoleculeBuffer.MoleculeGeometry.AddTails | src/main.c:300-303 | the four tail clauses in order |
| MoleculeBuffer.MoleculeGeometry.PromoteBonds | src/main.c:310-318 | the promotion in place, with its `bondCount > 10` and `> 15` guards; the atom count is unchanged |
| MoleculeBuffer.MoleculeGeometry.AddHeteroSubstituents | src/main.c:320-333 | the nitrogen, chlorine and fluorine clauses |
| MoleculeBuffer.MoleculeGeometry.AddRingBSubstituents | src/main.c:335-348 | the three ring-B clauses |
| MoleculeBuffer.MoleculeGeometry.ApplyPreset | src/main.c:283-349 | `apply_preset`: the buffer ends holding `Molecule.ApplyPreset(p)`, whatever it held before |
| Catalog.CatalogShape | src/main.c:374-395 | twenty entries; each entry's preset is its own index and each scale is 1 |
| Catalog.CatalogInvariants | gtests/test_geometry.c:160-191 | every catalogued compound's geometry is well formed, has 1 to 31 atoms and 1 to 37 bonds, and only orders 1 and 2 |
| Catalog.LargestCompound | src/main.c:301 | Testosterone Cypionate reaches the 31-atom, 37-bond bound |
| ViewControl.Reset | src/main.c:365-371 | yaw 0, pitch 0.5, pan (0, 0), zoom 1; in range |
| ViewControl.Rotate | src/main.c:679-683 | a left drag turns yaw by 0.01 rad per pixel, keeps pitch in [-1.2, 1.2], and leaves pan and zoom alone |
| ViewControl.Pan | src/main.c:684-687 | a right drag adds the motion to the pan, unclamped, and leaves everything else alone |
| ViewControl.Wheel | src/main.c:690-695 | after a wheel event the zoom lies in [0.35, 4]; angles and pan are unchanged |
| ViewControl.RulesKeepRange | src/main.c:679-695 | each rule keeps pitch and zoom within their clamps |
| ViewControl.RotateUnclamped | src/main.c:681-682 | inside the clamp, pitch turns by exactly 0.01 rad per pixel |
| ViewControl.WheelDirection | src/main.c:690-695 | a zero wheel amount leaves an in-range view unchanged; zooming in never shrinks the zoom and zooming out never grows it |
| ViewControl.PanAccumulates | src/main.c:684-687 | two pans equal one pan by their sum |
| ViewControl.PanRotateCommute | src/main.c:679-687 | rotating and panning commute |
| ViewControl.YawUndo | src/main.c:680 | the opposite horizontal drag undoes a drag's yaw |
| Grid.NavigateInRange | src/main.c:642-649 | an arrow key keeps the selection in [0, 20) and moves it by at most one tile |
| Grid.NavigateKeepsLine | src/main.c:643-648 | LEFT and RIGHT never change the row; UP and DOWN never change the column |
| Grid.NavigateMoves | src/main.c:643-648 | each key moves the selection exactly when the grid's edge allows it |
| Grid.NavigateUndo | src/main.c:643-648 | each move that happens is undone by the opposite key |
| Grid.TileRect | src/main.c:398-409 | every tile is 303 by 207 pixels |
| Grid.TileInsideWindow | src/main.c:398-409 | every tile lies inside the 1600 x 900 window, a padding away from its right and bottom edges |
| Grid.TilesDisjoint | src/main.c:398-409 | different tiles do not overlap |
| Projection.Project | src/main.c:122-127 | the depth is the point's z; a point with `x == 0` lands on the centre column and one with `y == 0` on the centre row |
| Projection.PerspectiveFalls | src/main.c:123 | in front of the eye the perspective factor is positive and falls as z grows |
| Projection.FartherIsNearerCentre | src/main.c:122-127 | for every point and zoom, pushing the point farther away leaves its image, on each axis, between the centre and the nearer image |
| Projection.ProjectionExample | gtests/test_projection.c:37-48 | the repository's projection check: (10, 0, 0) and (10, 0, 500) at zoom 100 land at x 1800 and 1443, both on row 450 |
| Style.AtomColor | src/main.c:511-515 | carbon takes the compound's colour; every other element has its own opaque colour |
| Style.HeteroColors | src/main.c:512-515 | heteroatom colours ignore the compound and differ from one another |
| Style.BaseSize | src/main.c:519-521 | base sizes lie in [3.5, 9]; wireframe sizes are at most 4.2 and solid ones at least 7 |
| Style.BaseSizeOrder | src/main.c:519-521 | no element is drawn smaller than carbon, and wireframe is always smaller |
| Style.DepthScale | src/main.c:517 | the depth cue lies in [0.6, 1.35] |
| Style.DepthScaleFalls | src/main.c:517 | the depth cue never grows with depth |
| Style.AtomRadius | src/main.c:517-523 | every atom radius is between 2 and 12 pixels |
| Style.RadiusExtremes | src/main.c:517-523 | both bounds are reached |
| Style.AtomRadiusFalls | src/main.c:517-523 | of two atoms with one label, the farther one is never drawn larger |
| Style.BondAlpha | src/main.c:499 | alpha 230 on the selected tile, 140 elsewhere |
| Style.StickWidths | src/main.c:168-169 | outer widths 6/8/10 and inner 3/4/5 for orders 1, 2 and others; outer is twice inner |
| Style.StickWidthsGrow | src/main.c:168-169 | a higher order never gets a thinner stick |
| Style.LineThickness | src/main.c:141 | `draw_thick_line` uses at least thickness 2 and keeps any larger one |
| Style.BondStrokes | src/main.c:538-556 | a bond is drawn with 2 strokes, plus 1 (wireframe) or 2 (solid) for a double bond, all with the record's alpha and a thickness `draw_thick_line` keeps |
| Style.StrokesDarkUnderBright | src/main.c:538-556 | each bond's first stroke is darker than the second one drawn over it; in solid mode it is twice as wide |
| Style.AtomDiscs | src/main.c:561-581 | one disc in wireframe (radius 2 to 5, alpha 220 or 170); four in solid mode: a rim two pixels wider, the body in the atom's colour, the highlight and the glint with their clamped radii |
| Style.HighlightInsideBody | src/main.c:572-578 | for every atom radius the highlight is no larger than the body and its centre lies within the body's radius |
| Style.LabelAnchor | src/main.c:561-587 | a label is drawn exactly for selected non-carbon atoms in solid mode, right of the disc |
| Painter.R2 | src/main.c:353-357 | a squared distance is non-negative |
| Painter.MaxR2 | src/main.c:352-358 | the maximum bounds every atom's squared distance and is one of them, or 0 for no atoms |
| Painter.MaxRadiusSquared | src/main.c:352-358 | the loop of `compute_bounding_radius` computes `MaxR2` of the buffer's atoms |
| Painter.BoundingRadius | src/main.c:359-361 | the radius is at least 0.001; it is the square root itself when that is at least 0.001, and 1 otherwise |
| Painter.FrameFor | src/main.c:448-467 | without auto-rotation the angles are the view's; without pan the centre is the tile's centre |
| Painter.FrameZoomPositive | src/main.c:450-453 | every grid tile gets a positive zoom at every view zoom the controls allow |
| Painter.ProjectAll | src/main.c:479-487 | one projection per atom, carrying the rotated atom's depth |
| Painter.BondRecordMeaning | src/main.c:489-508 | each bond record joins its two atoms' screen positions, has their mean depth, keeps the bond's order and the compound's colour, and has alpha 230 when selected and 140 otherwise |
| Painter.AtomRecordMeaning | src/main.c:510-533 | each atom record names its atom, carries its projection, a 2-to-12 pixel radius, and for carbon the compound's colour |
| Painter.NearerAtomsLarger | src/main.c:517-523 | of two atoms with one label, the nearer record has the larger disc |
| Painter.CompareAsWritten | src/main.c:412-426 | the comparators as written: negative exactly when the first depth is smaller |
| Painter.AsWrittenOrderIsNearToFar | src/main.c:412-426 | a list in the comparators' order is ascending in depth: near to far |
| Painter.AsWrittenDrawsFarOverNear | src/main.c:412-426 | two atoms at depths 0 and 10 sorted as written leave the far one to be painted over the near one |
| Painter.CompareFarToNear | src/main.c:412-426 | the corrected comparator: negative exactly when the first depth is larger |
| Painter.CorrectedOrderIsFarToNear | src/main.c:412-426 | a list is in the corrected comparator's order exactly when it runs far to near |
| Painter.LaterIsNearer | src/main.c:535-536 | in a far-to-near list each later record has at least the perspective factor of each earlier one |
| Painter.SortNearToFar | src/main.c:535-536 | the sort as written: the in-place sort leaves a permutation of its input in the order of the ascending comparators, near to far |
| Painter.SortFarToNear | src/main.c:535-536 | the corrected sort: the in-place sort leaves a permutation of its input, far to near |
| Painter.InsertFarToNear | src/main.c:535-536 | one insertion step of the corrected sort extends the far-to-near prefix by one and keeps the permutation |
| Painter.Swap | src/main.c:535-536 | exchanging two neighbours keeps the multiset of records |
| Painter.ProjectAtoms | src/main.c:479-487 | the projection loop fills the array with `ProjectAll` of the atoms |
| Painter.BondDraws | src/main.c:489-508 | the bond loop fills the array with the bond records |
| Painter.AtomDraws | src/main.c:510-533 | the atom loop fills the array with the atom records |
| Painter.DrawRecords | src/main.c:429-533 | the unsorted lists: exactly the bond records and the atom records of the tile's projection |
| Painter.DrawMoleculeAsWritten | src/main.c:429-536 | as written: one record per bond and per atom, each list a permutation of the records, both in the ascending comparators' order, near to far |
| Painter.DrawMolecule | src/main.c:429-536 | with the corrected comparators: one record per bond and per atom, each list a permutation of the records, both ordered far to near |
| Atlas.Initial | src/main.c:613-627 | selection 0, running, auto-rotation on, grid mode, solid mode, every view reset; the invariant holds |
| Atlas.StepKeepsInv | src/main.c:630-696 | every event keeps the selection in [0, 20), one view per compound and every view in range |
| Atlas.OnlySelectedViewChanges | src/main.c:640-695 | no event changes any view but the selected one |
| Atlas.FocusedSelectionFixed | src/main.c:642-649 | while focused no event moves the selection |
| Atlas.ArrowNavigates | src/main.c:642-649 | in grid mode an arrow key moves the selection by the grid rule and changes nothing else |
| Atlas.RunningStops | src/main.c:632-637 | an event stops the loop exactly when it is Quit or Escape or the loop had already stopped |
| Atlas.TogglesInvolutive | src/main.c:638-641 | Space, Return and A are their own inverses |
| Atlas.ResetSelected | src/main.c:640 | R resets the selected view and nothing else |
| Atlas.MotionWithoutDrag | src/main.c:669-676 | with no button held a motion only records the pointer |
| Atlas.PressReleaseDrag | src/main.c:651-667 | a press then release leaves the drag flag clear; a left press leaves the right flag alone |
| Atlas.FrameTiles | src/main.c:703-736 | one tile per compound in grid mode, one in focus mode |
| Atlas.FrameLayout | src/main.c:703-736 | grid mode draws each compound once in its own in-window tile with exactly the selected one highlighted; focus mode draws the selected compound highlighted in the window |
| Atlas.BuildOne | src/main.c:609-610 | one cache entry: a fresh buffer holding its preset's geometry |
| Atlas.BuildCache | src/main.c:608-611 | twenty buffers; entry `i` holds preset `i`'s geometry |
| Atlas.AtlasLoop.constructor | src/main.c:613-627 | the loop's variables at their initial values and every view reset |
| Atlas.AtlasLoop.HandleEvent | src/main.c:630-696 | one polled event updates the state in place exactly as `Step` says |
| Atlas.AtlasLoop.HandleKey | src/main.c:634-649 | one key press, as `KeyStep` says |
| Atlas.AtlasLoop.HandleMotion | src/main.c:669-688 | one mouse motion, as `MotionStep` says |
| Atlas.AtlasLoop.LayoutFrame | src/main.c:703-736 | the tiles handed to `draw_molecule`, in drawing order, as `FrameTiles` says |

## Left out

- SDL: the window, the renderer, event polling, the title `snprintf` calls,
  `SDL_GetTicks` and `SDL_Delay`. They are input and output; events arrive
  as `Atlas.Event` values and `timeSeconds` is a parameter.
- Rasterisation: `draw_filled_circle`, the pixel loop of `draw_thick_line`,
  `draw_glyph3x5` and the glyph choice of `draw_atom_label`. The model stops
  at the strokes, discs and label anchors handed to them (`Style`).
- `rotate_yaw_pitch`, `cosf`, `sinf` and `sqrtf`: Dafny has no
  trigonometry or square root. The caller supplies them, so no property
  depends on their values.
- Floating point: floats are reals. Rounding of intermediate float results
  is not modelled; only `lroundf` and the explicit casts are.
- Projection.Project: requires `900 + z != 0`. The source would divide by
  zero there, and `Painter.DrawMolecule` passes this on through
  `Painter.Drawable`.
- Painter.SortNearToFar: an insertion sort stands for `qsort` with the
  comparators as written. It proves the order `qsort` gives them, ascending
  depth, and the permutation. `qsort`'s order among equal depths is
  unspecified and is not modelled.
- Painter.SortFarToNear and Painter.InsertFarToNear: they sort in the
  corrected order, descending depth, which is not what `qsort` does with the
  comparators as written (see Findings). `Painter.SortNearToFar` and
  `Painter.DrawMoleculeAsWritten` model the source's order.
- Painter.ProjectAtoms, Painter.BondDraws and Painter.AtomDraws: they
  allocate arrays of exactly the atom or bond count instead of the
  `projectedX`/`projectedY`/`projectedDepth` and draw-list stack arrays of
  `MAX_ATOMS` and `MAX_BONDS` entries.
- Painter.DrawMolecule, Painter.DrawMoleculeAsWritten and Painter.DrawRecords:
  require a well-formed geometry. The source indexes
  the projection arrays with each bond's endpoints unchecked. Every
  catalogued geometry is well formed (`Catalog.CatalogInvariants`).
- MoleculeBuffer.MoleculeGeometry.constructor: fills the arrays with zeros.
  The source's stack array starts uninitialised, and `build_steroid_core`
  resets both counts before use.
- Atlas.BuildCache: it takes the table of recipe results as a ghost
  parameter, checked against `Molecule.ApplyPreset` entry by entry. Its
  contract does not state that the entries are freshly allocated or
  distinct objects.
- Atlas.AtlasLoop.constructor: it takes the cache built by
  `Atlas.BuildCache` instead of building it itself.
- Atlas.AtlasLoop: the frame loop's `draw_molecule` calls are modelled by
  `LayoutFrame`, which lists the calls. `Painter.DrawMoleculeAsWritten`
  models one call as written and `Painter.DrawMolecule` one call in the
  corrected order.

## Findings

| source | as written | input that shows it | evidently intended | confidence | as-written member | corrected member |
|---|---|---|---|---|---|---|
| src/main.c:412-426 | `sort_bonds_far_to_near` and `sort_atoms_far_to_near` return -1 when the first depth is smaller. `qsort` therefore orders the lists from small depth to large. A larger depth is farther away, because the perspective 900 / (900 + z) falls as z grows. Near records are drawn first and far ones are painted over them. | two atoms at depths 0 and 10 (`Painter.AsWrittenDrawsFarOverNear`) | far to near, as the names say: descending depth, so nearer records are drawn last | not executed | Painter.DrawMoleculeAsWritten | Painter.DrawMolecule |
