/** `project_to_screen`: the perspective projection of a rotated point onto
    the tile, with the depth kept for the painter's ordering. */
module Projection {
  import opened Numeric
  import M = Molecule

  /** The eye distance: a point at depth `z` is scaled by 900 / (900 + z). */
  const EyeDistance: real := 900.0

  /** The screen position and depth of one atom. */
  datatype Projected = Projected(screenX: int, screenY: int, depth: real)

  /** A point the projection can divide by: not in the eye's plane. */
  predicate Projectable(p: M.Vec3) {
    EyeDistance + p.z != 0.0
  }

  function Perspective(z: real): real
    requires EyeDistance + z != 0.0
  {
    EyeDistance / (EyeDistance + z)
  }

  /** The projection of `p` around the centre `(centerX, centerY)`: x to the
      right and y up on screen, each rounded to the nearest pixel; the depth
      is the point's own z. */
  function Project(p: M.Vec3, zoom: real, centerX: int, centerY: int): (r: Projected)
    requires Projectable(p)
    ensures r.depth == p.z
    ensures p.x == 0.0 ==> r.screenX == centerX
    ensures p.y == 0.0 ==> r.screenY == centerY
  {
    LRoundOfInt(centerX);
    LRoundOfInt(centerY);
    Projected(LRound(centerX as real + Scaled(p.x, zoom, p.z)),
              LRound(centerY as real - Scaled(p.y, zoom, p.z)),
              p.z)
  }

  /** A coordinate scaled by the zoom and the perspective at depth `z`. */
  function Scaled(v: real, zoom: real, z: real): real
    requires EyeDistance + z != 0.0
  {
    v * zoom * Perspective(z)
  }

  /** Perspective falls off with depth in front of the eye: a larger z is
      farther away. */
  lemma PerspectiveFalls(z1: real, z2: real)
    requires -EyeDistance < z1 < z2
    ensures 0.0 < Perspective(z2) < Perspective(z1)
  {
    var d1, d2 := EyeDistance + z1, EyeDistance + z2;
    assert Perspective(z1) - Perspective(z2) == EyeDistance * (d2 - d1) / (d1 * d2);
  }

  /** Moving a point away along z never moves its image farther from the
      centre: on each axis the far image lies between the centre and the
      near image, on whichever side of the centre the point is and at
      either sign of zoom. */
  lemma FartherIsNearerCentre(x: real, y: real, z1: real, z2: real, zoom: real, centerX: int, centerY: int)
    requires -EyeDistance < z1 <= z2
    ensures var near := Project(M.Vec3(x, y, z1), zoom, centerX, centerY);
            var far := Project(M.Vec3(x, y, z2), zoom, centerX, centerY);
            ((centerX <= far.screenX <= near.screenX) || (near.screenX <= far.screenX <= centerX))
            && ((centerY <= far.screenY <= near.screenY) || (near.screenY <= far.screenY <= centerY))
  {
    ScaledOrder(x, zoom, z1, z2);
    RoundedBetween(centerX, Scaled(x, zoom, z2), Scaled(x, zoom, z1));
    ScaledOrder(y, zoom, z1, z2);
    RoundedBetween(centerY, -Scaled(y, zoom, z2), -Scaled(y, zoom, z1));
    assert centerY as real + -Scaled(y, zoom, z2) == centerY as real - Scaled(y, zoom, z2);
    assert centerY as real + -Scaled(y, zoom, z1) == centerY as real - Scaled(y, zoom, z1);
  }

  /** The scaled offset of a point shrinks towards 0 with depth, keeping
      its sign. */
  lemma ScaledOrder(v: real, zoom: real, z1: real, z2: real)
    requires -EyeDistance < z1 <= z2
    ensures (0.0 <= Scaled(v, zoom, z2) <= Scaled(v, zoom, z1)) || (Scaled(v, zoom, z1) <= Scaled(v, zoom, z2) <= 0.0)
  {
    if z1 < z2 {
      PerspectiveFalls(z1, z2);
    }
    var a := v * zoom;
    if a >= 0.0 {
      ScaleOrder(a, Perspective(z2), Perspective(z1));
    } else {
      ScaleOrder(-a, Perspective(z2), Perspective(z1));
      assert -a * Perspective(z2) == -(a * Perspective(z2));
      assert -a * Perspective(z1) == -(a * Perspective(z1));
    }
  }

  /** Rounding keeps two offsets on one side of an integer in order, and
      keeps them on that side. */
  lemma RoundedBetween(c: int, u: real, v: real)
    requires (0.0 <= u <= v) || (v <= u <= 0.0)
    ensures (c <= LRound(c as real + u) <= LRound(c as real + v)) || (LRound(c as real + v) <= LRound(c as real + u) <= c)
  {
    LRoundOfInt(c);
    if 0.0 <= u <= v {
      LRoundMonotone(c as real, c as real + u);
      LRoundMonotone(c as real + u, c as real + v);
    } else {
      LRoundMonotone(c as real + v, c as real + u);
      LRoundMonotone(c as real + u, c as real);
    }
  }

  lemma ScaleOrder(a: real, p: real, q: real)
    requires 0.0 <= a && 0.0 <= p <= q
    ensures 0.0 <= a * p <= a * q
  {
    assert a * (q - p) >= 0.0;
  }

  /** The repository's own projection check: at zoom 100 around (800, 450),
      the point (10, 0, 0) lands at (1800, 450) and (10, 0, 500) at
      (1443, 450), strictly nearer the centre. */
  lemma ProjectionExample()
    ensures Project(M.Vec3(10.0, 0.0, 0.0), 100.0, 800, 450) == Projected(1800, 450, 0.0)
    ensures Project(M.Vec3(10.0, 0.0, 500.0), 100.0, 800, 450) == Projected(1443, 450, 500.0)
  {
    assert 800.0 + 10.0 * 100.0 * Perspective(0.0) == 1800.0;
    assert 800.0 + 10.0 * 100.0 * Perspective(500.0) == 800.0 + 9000.0 / 14.0;
    assert 1443.0 <= 800.0 + 9000.0 / 14.0 + 0.5 < 1444.0;
  }
}
