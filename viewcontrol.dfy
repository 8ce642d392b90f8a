/** The per-compound view: rotation, pan and zoom, with the update rules
    the event loop applies to the selected compound's view. */
module ViewControl {
  import opened Numeric

  const PitchLimit: real := 1.2
  const MinZoom: real := 0.35
  const MaxZoom: real := 4.0
  const DragRadiansPerPixel: real := 0.01
  const ZoomInFactor: real := 1.08
  const ZoomOutFactor: real := 0.92

  /** `ViewControl`. */
  datatype View = View(yaw: real, pitch: real, panX: real, panY: real, zoomMultiplier: real)

  /** `reset_view_control`: the defaults every view starts from. */
  function Reset(): (v: View)
    ensures v.yaw == 0.0 && v.pitch == 0.5 && v.panX == 0.0 && v.panY == 0.0 && v.zoomMultiplier == 1.0
    ensures InRange(v)
  {
    View(0.0, 0.5, 0.0, 0.0, 1.0)
  }

  /** What the rules below maintain: pitch and zoom inside their clamps.
      Yaw and pan are never clamped. */
  predicate InRange(v: View) {
    -PitchLimit <= v.pitch <= PitchLimit && MinZoom <= v.zoomMultiplier <= MaxZoom
  }

  /** A left-button drag by `(dx, dy)` pixels: yaw and pitch turn by 0.01
      radian per pixel and pitch is clamped to [-1.2, 1.2]. */
  function Rotate(v: View, dx: int, dy: int): (r: View)
    ensures -PitchLimit <= r.pitch <= PitchLimit
    ensures r.yaw == v.yaw + dx as real * DragRadiansPerPixel
    ensures r.panX == v.panX && r.panY == v.panY && r.zoomMultiplier == v.zoomMultiplier
  {
    var turned := v.(yaw := v.yaw + dx as real * DragRadiansPerPixel,
                     pitch := v.pitch + dy as real * DragRadiansPerPixel);
    turned.(pitch := Clamp(turned.pitch, -PitchLimit, PitchLimit))
  }

  /** A right-button drag by `(dx, dy)` pixels: the pan grows by the motion,
      unclamped. */
  function Pan(v: View, dx: int, dy: int): (r: View)
    ensures r.panX == v.panX + dx as real && r.panY == v.panY + dy as real
    ensures r.yaw == v.yaw && r.pitch == v.pitch && r.zoomMultiplier == v.zoomMultiplier
  {
    v.(panX := v.panX + dx as real, panY := v.panY + dy as real)
  }

  /** A wheel event with vertical amount `wheelY`: 8% in per positive
      notch-event, 8% out per negative one, then zoom clamped to [0.35, 4]. */
  function Wheel(v: View, wheelY: int): (r: View)
    ensures MinZoom <= r.zoomMultiplier <= MaxZoom
    ensures r.yaw == v.yaw && r.pitch == v.pitch && r.panX == v.panX && r.panY == v.panY
  {
    var z := if wheelY > 0 then v.zoomMultiplier * ZoomInFactor
             else if wheelY < 0 then v.zoomMultiplier * ZoomOutFactor
             else v.zoomMultiplier;
    v.(zoomMultiplier := Clamp(z, MinZoom, MaxZoom))
  }

  /** Every rule keeps a view in range. */
  lemma RulesKeepRange(v: View, dx: int, dy: int, wheelY: int)
    requires InRange(v)
    ensures InRange(Rotate(v, dx, dy)) && InRange(Pan(v, dx, dy)) && InRange(Wheel(v, wheelY))
  {
  }

  /** Inside the clamp, a drag turns pitch by exactly 0.01 radian per pixel. */
  lemma RotateUnclamped(v: View, dx: int, dy: int)
    requires -PitchLimit <= v.pitch + dy as real * DragRadiansPerPixel <= PitchLimit
    ensures Rotate(v, dx, dy).pitch == v.pitch + dy as real * DragRadiansPerPixel
  {
  }

  /** A wheel event with no vertical amount leaves a view in range as it is;
      zooming in and out always move the zoom the right way. */
  lemma WheelDirection(v: View, wheelY: int)
    requires InRange(v)
    ensures wheelY == 0 ==> Wheel(v, wheelY) == v
    ensures wheelY > 0 ==> Wheel(v, wheelY).zoomMultiplier >= v.zoomMultiplier
    ensures wheelY < 0 ==> Wheel(v, wheelY).zoomMultiplier <= v.zoomMultiplier
  {
  }

  /** Pan accumulates: two drags pan as far as one drag by their sum. */
  lemma PanAccumulates(v: View, dx1: int, dy1: int, dx2: int, dy2: int)
    ensures Pan(Pan(v, dx1, dy1), dx2, dy2) == Pan(v, dx1 + dx2, dy1 + dy2)
  {
  }

  /** Pan and rotation touch disjoint fields, so they commute. */
  lemma PanRotateCommute(v: View, dx: int, dy: int, px: int, py: int)
    ensures Pan(Rotate(v, dx, dy), px, py) == Rotate(Pan(v, px, py), dx, dy)
  {
  }

  /** Yaw accumulates freely: any drag can be undone in yaw by the opposite
      drag. */
  lemma YawUndo(v: View, dx: int, dy: int)
    ensures Rotate(Rotate(v, dx, dy), -dx, 0).yaw == v.yaw
  {
  }
}
