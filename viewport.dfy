/** The Studio viewport: an affine map between screen pixels and sprite-sheet
    (world) pixels, made of a pan offset and one uniform scale factor.
    Coordinates are modelled over `real`, so the identities below are exact. */
module Viewport {

  /** A point, on the screen or in the world depending on where it is used. */
  datatype Point = Point(x: real, y: real)

  /** Pan offset (`x`, `y`, in screen pixels) and zoom factor. */
  datatype View = View(x: real, y: real, scale: real)

  /** Scale change of one wheel event. */
  const ZoomSpeed: real := 0.1

  /** Lower clamp of the scale after a zoom. */
  const MinScale: real := 0.1

  /** Scale set by a view reset, and the initial scale. */
  const DefaultScale: real := 2.0

  /** The forward map, used to place the anchor cross and the resize handle on screen. */
  function WorldToScreen(v: View, p: Point): Point
  {
    Point(p.x * v.scale + v.x, p.y * v.scale + v.y)
  }

  /** The world point shown at screen position (sx, sy). */
  function ScreenToWorld(v: View, sx: real, sy: real): (p: Point)
    requires v.scale > 0.0
    ensures WorldToScreen(v, p) == Point(sx, sy)
  {
    Point((sx - v.x) / v.scale, (sy - v.y) / v.scale)
  }

  /** The other direction of the inverse: mapping a world point to the screen and back gives it back. */
  lemma WorldToScreenInverts(v: View, p: Point)
    requires v.scale > 0.0
    ensures ScreenToWorld(v, WorldToScreen(v, p).x, WorldToScreen(v, p).y) == p
  {
    var q := WorldToScreen(v, p);
    assert (q.x - v.x) / v.scale == p.x;
    assert (q.y - v.y) / v.scale == p.y;
  }

  /** `Math.max` on two ordinary numbers. */
  function Max(a: real, b: real): (m: real)
    ensures m >= a && m >= b && (m == a || m == b)
  {
    if a < b then b else a
  }

  /** The view after one wheel event with the cursor at (mx, my): one step larger
      for a negative delta (scroll up), one step smaller otherwise, never below
      MinScale, and re-panned so that the world point under the cursor stays there. */
  function ZoomView(v: View, delta: real, mx: real, my: real): (r: View)
    requires v.scale > 0.0
    ensures r.scale >= MinScale
    ensures r.scale == Max(MinScale, if delta < 0.0 then v.scale + ZoomSpeed else v.scale - ZoomSpeed)
    ensures ScreenToWorld(r, mx, my) == ScreenToWorld(v, mx, my)
  {
    var worldPos := ScreenToWorld(v, mx, my);
    var newScale := Max(MinScale, if delta < 0.0 then v.scale + ZoomSpeed else v.scale - ZoomSpeed);
    var r := View(mx - worldPos.x * newScale, my - worldPos.y * newScale, newScale);
    assert WorldToScreen(r, worldPos) == Point(mx, my);
    WorldToScreenInverts(r, worldPos);
    r
  }

  /** Zooming in and then out at the same cursor position restores the view
      whenever the scale was already at or above the minimum. */
  lemma ZoomInThenOut(v: View, mx: real, my: real)
    requires v.scale >= MinScale
    ensures ZoomView(ZoomView(v, -1.0, mx, my), 1.0, mx, my) == v
  {
    var zin := ZoomView(v, -1.0, mx, my);
    var zout := ZoomView(zin, 1.0, mx, my);
    assert zout.scale == v.scale;
    var p := ScreenToWorld(v, mx, my);
    assert ScreenToWorld(zout, mx, my) == p;
    assert WorldToScreen(zout, p) == Point(mx, my) == WorldToScreen(v, p);
  }

  /** Zooming out and then in restores the view as long as the zoom-out was not
      clamped, i.e. the scale was at least two steps above zero. */
  lemma ZoomOutThenIn(v: View, mx: real, my: real)
    requires v.scale >= MinScale + ZoomSpeed
    ensures ZoomView(ZoomView(v, 1.0, mx, my), -1.0, mx, my) == v
  {
    var zout := ZoomView(v, 1.0, mx, my);
    var zin := ZoomView(zout, -1.0, mx, my);
    assert zin.scale == v.scale;
    var p := ScreenToWorld(v, mx, my);
    assert ScreenToWorld(zin, mx, my) == p;
    assert WorldToScreen(zin, p) == Point(mx, my) == WorldToScreen(v, p);
  }

  /** The view set by a reset: the world origin (the sprite sheet's top-left
      corner) sits at the centre of a canvas of the given size, at the default scale. */
  function CenteredView(canvasWidth: real, canvasHeight: real): (r: View)
    ensures r.scale == DefaultScale
    ensures WorldToScreen(r, Point(0.0, 0.0)) == Point(canvasWidth / 2.0, canvasHeight / 2.0)
  {
    View(canvasWidth / 2.0, canvasHeight / 2.0, DefaultScale)
  }
}
