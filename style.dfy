/** The drawing style of `draw_molecule` and `draw_stick`: atom colours and
    sizes by label, the depth cue, bond alpha, stick widths, and the strokes
    and discs each bond and atom is drawn with. */
module Style {
  import opened Numeric
  import opened Colors
  import M = Molecule

  const OxygenColor: u32 := 0xFF4757FF
  const NitrogenColor: u32 := 0x5F27CDFF
  const ChlorineColor: u32 := 0x1DD1A1FF
  const FluorineColor: u32 := 0x48DBFBFF

  /** An atom's colour: the compound's colour for carbon, a fixed colour for
      every other element. */
  function AtomColor(l: M.Label, compoundColor: u32): (c: u32)
    ensures l == M.Carbon ==> c == compoundColor
    ensures l != M.Carbon ==> ColorA(c) == 0xFF
  {
    match l
    case Carbon => compoundColor
    case Oxygen => OxygenColor
    case Nitrogen => NitrogenColor
    case Chlorine => ChlorineColor
    case Fluorine => FluorineColor
  }

  /** Heteroatom colours do not depend on the compound, and no two elements
      share one. */
  lemma HeteroColors(l: M.Label, k: M.Label, c1: u32, c2: u32)
    ensures l != M.Carbon ==> AtomColor(l, c1) == AtomColor(l, c2)
    ensures l != M.Carbon && k != M.Carbon && l != k ==> AtomColor(l, c1) != AtomColor(k, c2)
  {
  }

  /** An atom's disc size before the depth cue: 7 for carbon and nitrogen,
      8 for oxygen, 9 for the halogens, and 3.5 / 4 / 4.2 in wireframe. */
  function BaseSize(l: M.Label, wireframe: bool): (s: real)
    ensures 3.5 <= s <= 9.0
    ensures wireframe ==> s <= 4.2
    ensures !wireframe ==> 7.0 <= s
  {
    if l == M.Chlorine || l == M.Fluorine then (if wireframe then 4.2 else 9.0)
    else if l == M.Oxygen then (if wireframe then 4.0 else 8.0)
    else if wireframe then 3.5 else 7.0
  }

  /** Heavier-looking elements are never drawn smaller than carbon. */
  lemma BaseSizeOrder(l: M.Label, wireframe: bool)
    ensures BaseSize(M.Carbon, wireframe) <= BaseSize(l, wireframe)
    ensures BaseSize(l, true) < BaseSize(l, false)
  {
  }

  /** The depth cue: 1 at depth 0, 5% smaller per unit of depth, kept in
      [0.6, 1.35]. */
  function DepthScale(depth: real): (s: real)
    ensures 0.6 <= s <= 1.35
  {
    Clamp(1.0 - depth * 0.05, 0.6, 1.35)
  }

  /** The cue never grows with depth: farther atoms are drawn no larger. */
  lemma DepthScaleFalls(d1: real, d2: real)
    requires d1 <= d2
    ensures DepthScale(d2) <= DepthScale(d1)
  {
    ClampMonotone(1.0 - d2 * 0.05, 1.0 - d1 * 0.05, 0.6, 1.35);
  }

  /** The disc radius of an atom at a depth: base size times cue, rounded;
      always between 2 and 12 pixels. */
  function AtomRadius(l: M.Label, wireframe: bool, depth: real): (r: int)
    ensures 2 <= r <= 12
  {
    var v := BaseSize(l, wireframe) * DepthScale(depth);
    RadiusBounds(BaseSize(l, wireframe), DepthScale(depth));
    LRoundOfInt(2);
    assert LRound(12.15) == 12;
    LRoundMonotone(2.0, v);
    LRoundMonotone(v, 12.15);
    LRound(v)
  }

  lemma RadiusBounds(size: real, scale: real)
    requires 3.5 <= size <= 9.0 && 0.6 <= scale <= 1.35
    ensures 2.0 <= size * scale <= 12.15
  {
    MulNonNegative(size - 3.5, scale);
    MulNonNegative(9.0 - size, scale);
    assert size * scale == (size - 3.5) * scale + 3.5 * scale;
    assert size * scale == 9.0 * scale - (9.0 - size) * scale;
  }

  lemma MulNonNegative(a: real, b: real)
    requires 0.0 <= a && 0.0 <= b
    ensures 0.0 <= a * b
  {
  }

  /** Rounding 12.15 still gives 12, so the bound above is reached only by
      a halogen at the nearest depths. */
  lemma RadiusExtremes()
    ensures AtomRadius(M.Chlorine, false, -100.0) == 12
    ensures AtomRadius(M.Carbon, true, 100.0) == 2
  {
  }

  /** Atoms of one label are drawn smaller the farther they are. */
  lemma AtomRadiusFalls(l: M.Label, wireframe: bool, d1: real, d2: real)
    requires d1 <= d2
    ensures AtomRadius(l, wireframe, d2) <= AtomRadius(l, wireframe, d1)
  {
    DepthScaleFalls(d1, d2);
    var s := BaseSize(l, wireframe);
    assert s * DepthScale(d2) <= s * DepthScale(d1) by {
      assert s * (DepthScale(d1) - DepthScale(d2)) >= 0.0;
    }
    LRoundMonotone(s * DepthScale(d2), s * DepthScale(d1));
  }

  /** Bonds of the selected tile are drawn nearly opaque, others faded. */
  function BondAlpha(selected: bool): (a: u8)
    ensures selected ==> a == 230
    ensures !selected ==> a == 140
  {
    if selected then 230 else 140
  }

  /** `draw_stick`'s outer and inner widths: 6/3 for a single bond, 8/4 for
      a double one, 10/5 for anything else. */
  function StickWidths(order: int): (w: (int, int))
    ensures w.0 == 2 * w.1
    ensures (order == 1 ==> w.1 == 3) && (order == 2 ==> w.1 == 4) && (order != 1 && order != 2 ==> w.1 == 5)
  {
    if order == 1 then (6, 3) else if order == 2 then (8, 4) else (10, 5)
  }

  /** A higher bond order never gets a thinner stick. */
  lemma StickWidthsGrow(o1: int, o2: int)
    requires 1 <= o1 <= o2 <= 3
    ensures StickWidths(o1).0 <= StickWidths(o2).0 && StickWidths(o1).1 <= StickWidths(o2).1
  {
  }

  /** One `draw_thick_line` call: a segment, its colour and alpha, and the
      thickness asked for. */
  datatype Stroke = Stroke(x1: int, y1: int, x2: int, y2: int, color: u32, alpha: u8, thickness: int)

  /** The thickness `draw_thick_line` actually uses: at least 2. */
  function LineThickness(t: int): (r: int)
    ensures r >= 2 && (t >= 2 ==> r == t)
  {
    if t < 2 then 2 else t
  }

  /** The strokes of one bond, in drawing order.  Wireframe: a dark 4-pixel
      line under a bright 2-pixel one, and a bright offset line for a double
      bond.  Solid (`draw_stick`): a dark outer and a bright inner line, and
      for a double bond the same pair again, offset by (3, -3) and one step
      thinner. */
  function BondStrokes(x1: int, y1: int, x2: int, y2: int, order: int, color: u32, alpha: u8, wireframe: bool): (s: seq<Stroke>)
    ensures |s| == 2 + (if order == 2 then (if wireframe then 1 else 2) else 0)
    ensures forall k :: 0 <= k < |s| ==> s[k].alpha == alpha && LineThickness(s[k].thickness) == s[k].thickness
  {
    if wireframe then
      var bright := Lighten(color, 0.20);
      [Stroke(x1, y1, x2, y2, Darken(color, 0.55), alpha, 4), Stroke(x1, y1, x2, y2, bright, alpha, 2)]
      + (if order == 2 then [Stroke(x1 + 2, y1 - 2, x2 + 2, y2 - 2, bright, alpha, 2)] else [])
    else
      var (outer, inner) := StickWidths(order);
      var dark := Darken(color, 0.35);
      var bright := Lighten(color, 0.35);
      [Stroke(x1, y1, x2, y2, dark, alpha, outer), Stroke(x1, y1, x2, y2, bright, alpha, inner)]
      + (if order == 2 then [Stroke(x1 + 3, y1 - 3, x2 + 3, y2 - 3, dark, alpha, outer - 2),
                             Stroke(x1 + 3, y1 - 3, x2 + 3, y2 - 3, bright, alpha, inner - 1)] else [])
  }

  /** Every stroke pair draws a darker line first and a brighter one over
      it, and in solid mode the bright core is half the outline's width. */
  lemma StrokesDarkUnderBright(x1: int, y1: int, x2: int, y2: int, order: int, color: u32, alpha: u8, wireframe: bool)
    ensures var s := BondStrokes(x1, y1, x2, y2, order, color, alpha, wireframe);
      ColorR(s[0].color) <= ColorR(s[1].color) && ColorG(s[0].color) <= ColorG(s[1].color)
      && ColorB(s[0].color) <= ColorB(s[1].color)
      && (!wireframe ==> s[0].thickness == 2 * s[1].thickness)
  {
    var s := BondStrokes(x1, y1, x2, y2, order, color, alpha, wireframe);
    var t1, t2 := if wireframe then 0.55 else 0.35, if wireframe then 0.20 else 0.35;
    ChannelOrder(ColorR(color), t1);
    ChannelOrder(ColorG(color), t1);
    ChannelOrder(ColorB(color), t1);
    ChannelOrder(ColorR(color), t2);
    ChannelOrder(ColorG(color), t2);
    ChannelOrder(ColorB(color), t2);
  }

  /** One `draw_filled_circle` call with its colour and alpha. */
  datatype Disc = Disc(x: int, y: int, radius: int, color: u32, alpha: u8)

  /** The discs of one atom, in drawing order.  Wireframe: one small disc of
      radius clamped to [2, 5].  Solid: a dark rim two pixels wider than the
      body, the body, a highlight up and left of the centre and a white
      glint beside it. */
  function AtomDiscs(x: int, y: int, radius: int, color: u32, selected: bool, wireframe: bool): (s: seq<Disc>)
    ensures |s| == if wireframe then 1 else 4
    ensures wireframe ==> 2 <= s[0].radius <= 5 && s[0].alpha == (if selected then 220 else 170)
    ensures !wireframe ==> s[0].radius == radius + 2 && s[1].radius == radius && s[1].color == color
    ensures !wireframe ==> 2 <= s[2].radius <= 12 && 1 <= s[3].radius <= 4
  {
    if wireframe then
      [Disc(x, y, Trunc(Clamp(radius as real, 2.0, 5.0)), Lighten(color, 0.05), if selected then 220 else 170)]
    else
      var hx := x - CDiv(radius, 3);
      var hy := y - CDiv(radius, 3);
      [Disc(x, y, radius + 2, Darken(color, 0.40), 255),
       Disc(x, y, radius, color, 255),
       Disc(hx, hy, Trunc(Clamp(radius as real * 0.45, 2.0, 12.0)), Lighten(color, 0.60), 220),
       Disc(hx - 2, hy - 2, Trunc(Clamp(radius as real * 0.12, 1.0, 4.0)), 0xFFFF_FFFF, 200)]
  }

  /** For every radius an atom can have, the highlight sits inside the body:
      its radius is below the body's and its centre is no farther away than
      the body's radius allows. */
  lemma HighlightInsideBody(x: int, y: int, radius: int, color: u32, selected: bool)
    requires 2 <= radius <= 12
    ensures var s := AtomDiscs(x, y, radius, color, selected, false);
      s[2].radius <= s[1].radius && x - radius < s[2].x <= x && y - radius < s[2].y <= y
  {
    var h := radius as real * 0.45;
    assert h <= radius as real;
  }

  /** `draw_atom_label`'s anchor: only selected solid atoms other than carbon
      get a label, placed right of the disc. */
  function LabelAnchor(x: int, y: int, radius: int, l: M.Label, selected: bool, wireframe: bool): (a: Option<(int, int)>)
    ensures a.Some? <==> selected && !wireframe && l != M.Carbon
    ensures a.Some? ==> a.value == (x + radius + 4, y - 6)
  {
    if !wireframe && selected && l != M.Carbon then Some((x + radius + 4, y - 6)) else None
  }

  datatype Option<T> = None | Some(value: T)
}
