/** Packed `0xRRGGBBAA` colours: the channel accessors `color_r/g/b` and the
    `lighten`/`darken` shading used for sticks, rims and highlights. */
module Colors {
  import opened Numeric

  /** `(c >> 24) & 255`. */
  function ColorR(c: u32): u8 {
    ((c as int / 0x100_0000) % 0x100) as u8
  }

  /** `(c >> 16) & 255`. */
  function ColorG(c: u32): u8 {
    ((c as int / 0x1_0000) % 0x100) as u8
  }

  /** `(c >> 8) & 255`. */
  function ColorB(c: u32): u8 {
    ((c as int / 0x100) % 0x100) as u8
  }

  /** The low byte, which `lighten` and `darken` force to 0xFF. */
  function ColorA(c: u32): u8 {
    (c as int % 0x100) as u8
  }

  /** `(r << 24) | (g << 16) | (b << 8) | 0xFF`.  The four fields occupy
      disjoint bits, so the OR is the sum written here. */
  function Pack(r: u8, g: u8, b: u8): (c: u32)
    ensures ColorR(c) == r && ColorG(c) == g && ColorB(c) == b && ColorA(c) == 0xFF
  {
    (r as int * 0x100_0000 + g as int * 0x1_0000 + b as int * 0x100 + 0xFF) as u32
  }

  /** One channel of `lighten`: `(uint8_t)clampf(x + (255 - x) * t, 0, 255)`. */
  function LightenChannel(x: u8, t: real): u8 {
    ToByte(Clamp(x as real + (255 - x as int) as real * t, 0.0, 255.0))
  }

  /** One channel of `darken`: `(uint8_t)clampf(x * (1 - t), 0, 255)`. */
  function DarkenChannel(x: u8, t: real): u8 {
    ToByte(Clamp(x as real * (1.0 - t), 0.0, 255.0))
  }

  /** `lighten(rgba, t)`: each colour channel moved towards 255 by the
      fraction `t`; the low byte becomes 0xFF whatever it was. */
  function Lighten(rgba: u32, t: real): (c: u32)
    ensures ColorR(c) == LightenChannel(ColorR(rgba), t)
    ensures ColorG(c) == LightenChannel(ColorG(rgba), t)
    ensures ColorB(c) == LightenChannel(ColorB(rgba), t)
    ensures ColorA(c) == 0xFF
  {
    Pack(LightenChannel(ColorR(rgba), t), LightenChannel(ColorG(rgba), t), LightenChannel(ColorB(rgba), t))
  }

  /** `darken(rgba, t)`: each colour channel scaled by `1 - t`; the low
      byte becomes 0xFF. */
  function Darken(rgba: u32, t: real): (c: u32)
    ensures ColorR(c) == DarkenChannel(ColorR(rgba), t)
    ensures ColorG(c) == DarkenChannel(ColorG(rgba), t)
    ensures ColorB(c) == DarkenChannel(ColorB(rgba), t)
    ensures ColorA(c) == 0xFF
  {
    Pack(DarkenChannel(ColorR(rgba), t), DarkenChannel(ColorG(rgba), t), DarkenChannel(ColorB(rgba), t))
  }

  /** For a fraction `t` in [0, 1], lightening never darkens a channel,
      darkening never brightens one, and the dark shade of a stick never
      exceeds its bright shade. */
  lemma ChannelOrder(x: u8, t: real)
    requires 0.0 <= t <= 1.0
    ensures DarkenChannel(x, t) <= x <= LightenChannel(x, t)
  {
    DarkBounds(x, t);
    LightBounds(x, t);
    ByteOrder(x, x as real * (1.0 - t));
    ByteOrder(x, x as real + (255 - x as int) as real * t);
  }

  /** Darkening by `t` keeps a channel within [0, its value]. */
  lemma DarkBounds(x: u8, t: real)
    requires 0.0 <= t <= 1.0
    ensures 0.0 <= x as real * (1.0 - t) <= x as real
  {
    ScaleBounds(x as real, 1.0 - t);
  }

  /** Lightening by `t` keeps a channel within [its value, 255]. */
  lemma LightBounds(x: u8, t: real)
    requires 0.0 <= t <= 1.0
    ensures x as real <= x as real + (255 - x as int) as real * t <= 255.0
  {
    Headroom(x as real, (255 - x as int) as real, t);
  }

  /** `a` plus the fraction `t` of the room left above it stays below 255. */
  lemma Headroom(a: real, room: real, t: real)
    requires 0.0 <= a <= 255.0 && 0.0 <= t <= 1.0 && room == 255.0 - a
    ensures a <= a + room * t <= 255.0
  {
    ScaleBounds(room, t);
  }

  /** Truncating to a byte keeps an order with a byte on either side. */
  lemma ByteOrder(x: u8, v: real)
    requires 0.0 <= v <= 255.0
    ensures v <= x as real ==> ToByte(v) <= x
    ensures x as real <= v ==> x <= ToByte(v)
  {
  }

  /** A fraction of a non-negative amount lies between zero and the amount. */
  lemma ScaleBounds(a: real, t: real)
    requires 0.0 <= a && 0.0 <= t <= 1.0
    ensures 0.0 <= a * t <= a
  {
    assert a * (1.0 - t) >= 0.0;
  }

  lemma LightenBrightens(rgba: u32, t: real)
    requires 0.0 <= t <= 1.0
    ensures ColorR(rgba) <= ColorR(Lighten(rgba, t)) && ColorG(rgba) <= ColorG(Lighten(rgba, t))
    ensures ColorB(rgba) <= ColorB(Lighten(rgba, t))
  {
    ChannelOrder(ColorR(rgba), t);
    ChannelOrder(ColorG(rgba), t);
    ChannelOrder(ColorB(rgba), t);
  }

  lemma DarkenDims(rgba: u32, t: real)
    requires 0.0 <= t <= 1.0
    ensures ColorR(Darken(rgba, t)) <= ColorR(rgba) && ColorG(Darken(rgba, t)) <= ColorG(rgba)
    ensures ColorB(Darken(rgba, t)) <= ColorB(rgba)
  {
    ChannelOrder(ColorR(rgba), t);
    ChannelOrder(ColorG(rgba), t);
    ChannelOrder(ColorB(rgba), t);
  }

  /** With `t = 0` both keep the colour channels and only make it opaque. */
  lemma ZeroShadeIsOpaque(rgba: u32)
    ensures Lighten(rgba, 0.0) == Pack(ColorR(rgba), ColorG(rgba), ColorB(rgba))
    ensures Darken(rgba, 0.0) == Pack(ColorR(rgba), ColorG(rgba), ColorB(rgba))
  {
    ZeroShadeChannel(ColorR(rgba));
    ZeroShadeChannel(ColorG(rgba));
    ZeroShadeChannel(ColorB(rgba));
  }

  lemma ZeroShadeChannel(x: u8)
    ensures LightenChannel(x, 0.0) == x && DarkenChannel(x, 0.0) == x
  {
    assert x as real + (255 - x as int) as real * 0.0 == x as real;
    assert x as real * (1.0 - 0.0) == x as real;
  }

  /** Full lightening gives opaque white, full darkening opaque black. */
  lemma FullShades(rgba: u32)
    ensures Lighten(rgba, 1.0) == 0xFFFF_FFFF
    ensures Darken(rgba, 1.0) == 0xFF
  {
    FullShadeChannel(ColorR(rgba));
    FullShadeChannel(ColorG(rgba));
    FullShadeChannel(ColorB(rgba));
  }

  lemma FullShadeChannel(x: u8)
    ensures LightenChannel(x, 1.0) == 255 && DarkenChannel(x, 1.0) == 0
  {
    assert x as real + (255 - x as int) as real * 1.0 == 255.0;
    assert x as real * (1.0 - 1.0) == 0.0;
  }
}
