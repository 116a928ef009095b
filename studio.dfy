/** The animation Studio: a frame editor over a sprite sheet. The working frame
    is moved, resized and re-anchored by mouse drags picked by hit-testing, the
    view is panned and zoomed, and Enter commits the frame to the sequence. */
module Studio {
  import opened Viewport
  import Input

  /** A sprite-sheet region in integer pixels, with its anchor relative to the
      region's top-left corner. */
  datatype Frame = Frame(x: int, y: int, w: int, h: int, ax: int, ay: int)

  /** The working frame a fresh session starts with. */
  const InitialFrame := Frame(0, 0, 32, 32, 16, 32)

  /** What the current drag (if any) manipulates. */
  datatype DragMode = NoDrag | Pan | Box | Resize | Anchor

  /** The editing mode switched by Tab; `Unset` is the value before the first
      switch, when the field has never been assigned. */
  datatype EditMode = Unset | BoxMode | AnchorMode

  /** Radius, in screen pixels, of the anchor and resize hit zones. */
  const HandleRadius: real := 15.0

  /** `Math.round`: the nearest integer, halves rounded up. */
  function Round(v: real): (r: int)
    ensures v - 0.5 < r as real <= v + 0.5
  {
    (v + 0.5).Floor
  }

  /** Rounding commutes with a whole-pixel shift. */
  lemma RoundShift(n: int, d: real)
    ensures Round(n as real + d) == n + Round(d)
  {
    var a, b := Round(n as real + d), Round(d);
    assert -1 < a - n - b < 1;
  }

  /** The cursor (mx, my) is strictly within the handle radius of screen point `h`
      (the Euclidean distance compared through its square). */
  predicate WithinHandle(mx: real, my: real, h: Point)
  {
    (mx - h.x) * (mx - h.x) + (my - h.y) * (my - h.y) < HandleRadius * HandleRadius
  }

  /** The anchor point in world coordinates. */
  function AnchorWorld(f: Frame): Point
  {
    Point((f.x + f.ax) as real, (f.y + f.ay) as real)
  }

  /** The bottom-right (resize) corner in world coordinates. */
  function CornerWorld(f: Frame): Point
  {
    Point((f.x + f.w) as real, (f.y + f.h) as real)
  }

  /** World point `p` lies in the closed rectangle of `f`. */
  predicate Contains(f: Frame, p: Point)
  {
    f.x as real <= p.x <= (f.x + f.w) as real && f.y as real <= p.y <= (f.y + f.h) as real
  }

  /** The drag mode chosen at mouse-down and the offset remembered with it. */
  datatype Grab = Grab(mode: DragMode, offset: Point)

  /** Hit-testing at mouse-down, in priority order: the anchor handle, then the
      resize handle, then the frame body, and otherwise a pan. */
  function PickGrab(v: View, f: Frame, mx: real, my: real): (g: Grab)
    requires v.scale > 0.0
    ensures g.mode != NoDrag
    ensures g.mode == Anchor <==> WithinHandle(mx, my, WorldToScreen(v, AnchorWorld(f)))
    ensures g.mode == Resize <==>
      !WithinHandle(mx, my, WorldToScreen(v, AnchorWorld(f))) && WithinHandle(mx, my, WorldToScreen(v, CornerWorld(f)))
    ensures g.mode == Box <==>
      !WithinHandle(mx, my, WorldToScreen(v, AnchorWorld(f))) && !WithinHandle(mx, my, WorldToScreen(v, CornerWorld(f)))
      && Contains(f, ScreenToWorld(v, mx, my))
    ensures g.mode == Box ==> 0.0 <= g.offset.x <= f.w as real && 0.0 <= g.offset.y <= f.h as real
    ensures
      var p := ScreenToWorld(v, mx, my);
      && (g.mode == Box ==> g.offset == Point(p.x - f.x as real, p.y - f.y as real))
      && (g.mode == Anchor ==> g.offset == Point(f.ax as real - (p.x - f.x as real), f.ay as real - (p.y - f.y as real)))
      && (g.mode == Resize ==> g.offset == Point(f.w as real - (p.x - f.x as real), f.h as real - (p.y - f.y as real)))
    ensures g.mode == Pan ==> WorldToScreen(v, Point(0.0, 0.0)) == Point(mx - g.offset.x, my - g.offset.y)
  {
    var p := ScreenToWorld(v, mx, my);
    if WithinHandle(mx, my, WorldToScreen(v, AnchorWorld(f))) then
      Grab(Anchor, Point(f.ax as real - (p.x - f.x as real), f.ay as real - (p.y - f.y as real)))
    else if WithinHandle(mx, my, WorldToScreen(v, CornerWorld(f))) then
      Grab(Resize, Point(f.w as real - (p.x - f.x as real), f.h as real - (p.y - f.y as real)))
    else if Contains(f, p) then
      Grab(Box, Point(p.x - f.x as real, p.y - f.y as real))
    else
      Grab(Pan, Point(mx - v.x, my - v.y))
  }

  /** The working frame after a mouse move to (mx, my) during a drag. Each mode
      changes its own two fields and nothing else. BOX places the frame at the
      cursor's world position minus the grab offset; RESIZE and ANCHOR take the
      cursor's world position relative to the frame origin and do not use the
      offset; RESIZE never goes below one pixel. */
  function DragFrame(mode: DragMode, offset: Point, v: View, f: Frame, mx: real, my: real): (r: Frame)
    requires v.scale > 0.0
    ensures mode == NoDrag || mode == Pan ==> r == f
    ensures mode == Box ==> r.(x := f.x, y := f.y) == f
    ensures mode == Box ==>
      var p := ScreenToWorld(v, mx, my);
      p.x - offset.x - 0.5 < r.x as real <= p.x - offset.x + 0.5 &&
      p.y - offset.y - 0.5 < r.y as real <= p.y - offset.y + 0.5
    ensures mode == Resize ==> r.(w := f.w, h := f.h) == f && r.w >= 1 && r.h >= 1
    ensures mode == Resize ==>
      var p := ScreenToWorld(v, mx, my);
      ((r.w == 1 && p.x - f.x as real < 0.5) || p.x - f.x as real - 0.5 < r.w as real <= p.x - f.x as real + 0.5) &&
      ((r.h == 1 && p.y - f.y as real < 0.5) || p.y - f.y as real - 0.5 < r.h as real <= p.y - f.y as real + 0.5)
    ensures mode == Anchor ==> r.(ax := f.ax, ay := f.ay) == f
    ensures mode == Anchor ==>
      var p := ScreenToWorld(v, mx, my);
      p.x - f.x as real - 0.5 < r.ax as real <= p.x - f.x as real + 0.5 &&
      p.y - f.y as real - 0.5 < r.ay as real <= p.y - f.y as real + 0.5
  {
    var p := ScreenToWorld(v, mx, my);
    match mode
    case Box => f.(x := Round(p.x - offset.x), y := Round(p.y - offset.y))
    case Resize =>
      var newW := Round(p.x - f.x as real);
      var newH := Round(p.y - f.y as real);
      f.(w := if newW < 1 then 1 else newW, h := if newH < 1 then 1 else newH)
    case Anchor => f.(ax := Round(p.x - f.x as real), ay := Round(p.y - f.y as real))
    case _ => f
  }

  /** The view after a mouse move to (mx, my): only a PAN drag moves it, and it
      keeps the scale and puts the pan offset at the cursor minus the grab offset. */
  function DragView(mode: DragMode, offset: Point, v: View, mx: real, my: real): (r: View)
    ensures mode != Pan ==> r == v
    ensures mode == Pan ==> r.scale == v.scale && Point(r.x + offset.x, r.y + offset.y) == Point(mx, my)
  {
    if mode == Pan then v.(x := mx - offset.x, y := my - offset.y) else v
  }

  /** Panning keeps the world point grabbed at mouse-down under the cursor. */
  lemma PanKeepsGrabbedPoint(v: View, f: Frame, mx0: real, my0: real, mx: real, my: real)
    requires v.scale > 0.0
    requires PickGrab(v, f, mx0, my0).mode == Pan
    ensures
      var r := DragView(Pan, PickGrab(v, f, mx0, my0).offset, v, mx, my);
      r.scale > 0.0 && ScreenToWorld(r, mx, my) == ScreenToWorld(v, mx0, my0)
  {
    var g := PickGrab(v, f, mx0, my0);
    var r := DragView(Pan, g.offset, v, mx, my);
    assert mx - r.x == mx0 - v.x && my - r.y == my0 - v.y;
  }

  /** A box drag moves the frame by the cursor's world displacement since
      mouse-down, rounded; without a displacement the frame does not jump. */
  lemma BoxFollowsCursor(v: View, f: Frame, mx0: real, my0: real, mx: real, my: real)
    requires v.scale > 0.0
    requires PickGrab(v, f, mx0, my0).mode == Box
    ensures
      var p0, p := ScreenToWorld(v, mx0, my0), ScreenToWorld(v, mx, my);
      DragFrame(Box, PickGrab(v, f, mx0, my0).offset, v, f, mx, my)
        == f.(x := f.x + Round(p.x - p0.x), y := f.y + Round(p.y - p0.y))
    ensures DragFrame(Box, PickGrab(v, f, mx0, my0).offset, v, f, mx0, my0) == f
  {
    var g := PickGrab(v, f, mx0, my0);
    var p0, p := ScreenToWorld(v, mx0, my0), ScreenToWorld(v, mx, my);
    assert p.x - g.offset.x == f.x as real + (p.x - p0.x);
    assert p.y - g.offset.y == f.y as real + (p.y - p0.y);
    RoundShift(f.x, p.x - p0.x);
    RoundShift(f.y, p.y - p0.y);
    RoundShift(f.x, 0.0);
    RoundShift(f.y, 0.0);
  }

  /** `t * t + u * u < r * r` bounds `t` by `r` on both sides. */
  lemma SquareBound(t: real, u: real, r: real)
    requires r > 0.0 && t * t + u * u < r * r
    ensures -r < t < r
  {
    assert u * u >= 0.0 by {
      if u < 0.0 {
        assert u * u == (-u) * (-u);
      }
    }
    if t >= r || t <= -r {
      assert false;
    }
  }

  /** A mouse-down in the resize hit zone (where PickGrab chooses RESIZE unless
      the anchor is also near) followed by a move to the same point changes the
      width and height by less than the handle radius, in screen pixels, plus
      half a world pixel of rounding. The grab offset is not used, so the corner
      jumps to the cursor, which lies within that radius. */
  lemma ResizeGrabMovesCornerLittle(v: View, f: Frame, offset: Point, mx: real, my: real)
    requires v.scale > 0.0 && f.w >= 1 && f.h >= 1
    requires WithinHandle(mx, my, WorldToScreen(v, CornerWorld(f)))
    ensures
      var r := DragFrame(Resize, offset, v, f, mx, my);
      -(HandleRadius + v.scale / 2.0) < (r.w - f.w) as real * v.scale < HandleRadius + v.scale / 2.0 &&
      -(HandleRadius + v.scale / 2.0) < (r.h - f.h) as real * v.scale < HandleRadius + v.scale / 2.0
  {
    var ex, ey := CornerDistance(v, f, mx, my);
    ResizeWidthBound(v, f, offset, mx, my, ex);
    ResizeHeightBound(v, f, offset, mx, my, ey);
  }

  /** The width half of `ResizeGrabMovesCornerLittle`; kept apart from the
      height half so that each proof sees only one axis. */
  lemma ResizeWidthBound(v: View, f: Frame, offset: Point, mx: real, my: real, ex: real)
    requires v.scale > 0.0 && f.w >= 1
    requires ex == ScreenToWorld(v, mx, my).x - (f.x + f.w) as real
    requires -HandleRadius < ex * v.scale < HandleRadius
    ensures
      var r := DragFrame(Resize, offset, v, f, mx, my);
      -(HandleRadius + v.scale / 2.0) < (r.w - f.w) as real * v.scale < HandleRadius + v.scale / 2.0
  {
    var r := DragFrame(Resize, offset, v, f, mx, my);
    var qx := ScreenToWorld(v, mx, my).x - f.x as real;
    assert (r.w == 1 && qx < 0.5) || qx - 0.5 < r.w as real <= qx + 0.5;
    OneAxisBound(r.w, f.w, ex, v.scale, qx);
  }

  /** The height half of `ResizeGrabMovesCornerLittle`. */
  lemma ResizeHeightBound(v: View, f: Frame, offset: Point, mx: real, my: real, ey: real)
    requires v.scale > 0.0 && f.h >= 1
    requires ey == ScreenToWorld(v, mx, my).y - (f.y + f.h) as real
    requires -HandleRadius < ey * v.scale < HandleRadius
    ensures
      var r := DragFrame(Resize, offset, v, f, mx, my);
      -(HandleRadius + v.scale / 2.0) < (r.h - f.h) as real * v.scale < HandleRadius + v.scale / 2.0
  {
    var r := DragFrame(Resize, offset, v, f, mx, my);
    var qy := ScreenToWorld(v, mx, my).y - f.y as real;
    assert (r.h == 1 && qy < 0.5) || qy - 0.5 < r.h as real <= qy + 0.5;
    OneAxisBound(r.h, f.h, ey, v.scale, qy);
  }

  /** Within the resize hit zone, the cursor's world offset from the corner is
      less than the handle radius once scaled back to the screen. */
  lemma CornerDistance(v: View, f: Frame, mx: real, my: real) returns (ex: real, ey: real)
    requires v.scale > 0.0
    requires WithinHandle(mx, my, WorldToScreen(v, CornerWorld(f)))
    ensures ex == ScreenToWorld(v, mx, my).x - (f.x + f.w) as real
    ensures ey == ScreenToWorld(v, mx, my).y - (f.y + f.h) as real
    ensures -HandleRadius < ex * v.scale < HandleRadius && -HandleRadius < ey * v.scale < HandleRadius
  {
    var p := ScreenToWorld(v, mx, my);
    var c := WorldToScreen(v, CornerWorld(f));
    ex, ey := p.x - (f.x + f.w) as real, p.y - (f.y + f.h) as real;
    assert ex * v.scale == p.x * v.scale - (f.x + f.w) as real * v.scale;
    assert ex * v.scale == mx - c.x;
    assert ey * v.scale == p.y * v.scale - (f.y + f.h) as real * v.scale;
    assert ey * v.scale == my - c.y;
    SquareBound(mx - c.x, my - c.y, HandleRadius);
    SquareBound(my - c.y, mx - c.x, HandleRadius);
  }

  /** One axis of the resize bound: `n` is the clamped rounding of `q`, and the
      old size `m` lies at `q - e`. */
  lemma OneAxisBound(n: int, m: int, e: real, s: real, q: real)
    requires s > 0.0 && m >= 1
    requires -HandleRadius < e * s < HandleRadius
    requires q == m as real + e
    requires (n == 1 && q < 0.5) || q - 0.5 < n as real <= q + 0.5
    ensures -(HandleRadius + s / 2.0) < (n - m) as real * s < HandleRadius + s / 2.0
  {
    var d := (n - m) as real;
    var es, ds := e * s, d * s;
    // `d` is above `e - 1/2`, and at most `e + 1/2` unless the clamp made it 0 or less.
    assert e - 0.5 < d;
    assert d <= e + 0.5 || d <= 0.0;
    var lo := d - (e - 0.5);
    MulPositive(lo, s);
    assert lo * s > 0.0;
    assert lo * s == ds - es + s / 2.0;
    assert ds - es + s / 2.0 > 0.0;
    assert es > -HandleRadius;
    assert ds > -(HandleRadius + s / 2.0);
    if d <= e + 0.5 {
      MulNonNegative(e + 0.5 - d, s);
      assert (e + 0.5 - d) * s == es + s / 2.0 - ds;
    } else {
      MulNonNegative(-d, s);
      assert -d * s == -ds;
    }
    assert ds < HandleRadius + s / 2.0;
  }

  lemma MulNonNegative(a: real, b: real)
    requires a >= 0.0 && b > 0.0
    ensures a * b >= 0.0
  {
    if a > 0.0 {
      MulPositive(a, b);
    }
  }

  lemma MulPositive(a: real, b: real)
    requires a > 0.0 && b > 0.0
    ensures a * b > 0.0
  {
  }

  /** The working frame after a commit: laid out immediately to the right of the
      committed one, with nothing else changed. */
  function Advance(f: Frame): (r: Frame)
    ensures r.x == f.x + f.w && r.(x := f.x) == f
  {
    f.(x := f.x + f.w)
  }

  /** The committed sequence and the working frame after `k` commits. */
  function CommitTimes(frames: seq<Frame>, f: Frame, k: nat): (seq<Frame>, Frame)
    decreases k
  {
    if k == 0 then (frames, f) else CommitTimes(frames + [f], Advance(f), k - 1)
  }

  /** After `k` commits the sequence has grown by exactly `k`, the earlier
      entries are untouched, and the new entries are copies of the starting
      frame laid out left to right, each one frame width apart. */
  lemma {:induction false} CommitLayout(frames: seq<Frame>, f: Frame, k: nat)
    ensures
      var (fs, g) := CommitTimes(frames, f, k);
      |fs| == |frames| + k && fs[..|frames|] == frames &&
      (forall j :: |frames| <= j < |fs| ==> fs[j] == f.(x := f.x + (j - |frames|) * f.w)) &&
      g == f.(x := f.x + k * f.w)
    decreases k
  {
    if k > 0 {
      var f' := Advance(f);
      CommitLayout(frames + [f], f', k - 1);
      var (fs, g) := CommitTimes(frames + [f], f', k - 1);
      assert CommitTimes(frames, f, k) == (fs, g);
      assert fs[..|frames|] == (fs[..|frames| + 1])[..|frames|];
      forall j | |frames| <= j < |fs|
        ensures fs[j] == f.(x := f.x + (j - |frames|) * f.w)
      {
        if j == |frames| {
          assert fs[j] == (fs[..|frames| + 1])[j];
        } else {
          assert f'.x + (j - |frames| - 1) * f.w == f.x + (j - |frames|) * f.w;
        }
      }
      assert f'.x + (k - 1) * f.w == f.x + k * f.w;
    }
  }

  /** The Tab switch: BOX becomes ANCHOR, anything else becomes BOX. */
  function ToggleMode(m: EditMode): (r: EditMode)
    ensures r != Unset && r != m
    ensures r == AnchorMode <==> m == BoxMode
  {
    if m == BoxMode then AnchorMode else BoxMode
  }

  /** The Studio's editing session, updated in place by the mouse and keyboard handlers. */
  class StudioSession {
    var active: bool
    var frames: seq<Frame>
    var currentFrame: Frame
    var view: View
    var dragMode: DragMode
    var dragOffset: Point
    var mode: EditMode

    /** The scale stays at or above the minimum and the working frame keeps a
        positive size. */
    ghost predicate Valid()
      reads this
    {
      view.scale >= MinScale && currentFrame.w >= 1 && currentFrame.h >= 1
    }

    constructor ()
      ensures Valid() && !active && frames == [] && currentFrame == InitialFrame
      ensures view == View(0.0, 0.0, DefaultScale) && dragMode == NoDrag
      ensures dragOffset == Point(0.0, 0.0) && mode == Unset
    {
      active := false;
      frames := [];
      currentFrame := InitialFrame;
      view := View(0.0, 0.0, DefaultScale);
      dragMode := NoDrag;
      dragOffset := Point(0.0, 0.0);
      mode := Unset;
    }

    /** Switches the editor on or off. */
    method Toggle()
      modifies this`active
      ensures active == !old(active)
    {
      active := !active;
    }

    /** Centres the sheet's origin on the canvas at the default scale. */
    method ResetView(canvasWidth: real, canvasHeight: real)
      requires Valid()
      modifies this`view
      ensures Valid() && view == CenteredView(canvasWidth, canvasHeight)
    {
      view := view.(x := canvasWidth / 2.0);
      view := view.(y := canvasHeight / 2.0);
      view := view.(scale := DefaultScale);
    }

    /** One wheel event at the cursor (mouseX, mouseY). */
    method Zoom(delta: real, mouseX: real, mouseY: real)
      requires Valid()
      modifies this`view
      ensures Valid() && view == ZoomView(old(view), delta, mouseX, mouseY)
      ensures ScreenToWorld(view, mouseX, mouseY) == ScreenToWorld(old(view), mouseX, mouseY)
    {
      var oldScale := view.scale;
      var newScale := if delta < 0.0 then oldScale + ZoomSpeed else oldScale - ZoomSpeed;
      newScale := Max(MinScale, newScale);
      var worldPos := ScreenToWorld(view, mouseX, mouseY);
      view := View(mouseX - worldPos.x * newScale, mouseY - worldPos.y * newScale, newScale);
    }

    /** Mouse-down at (mx, my): picks the drag mode by hit-testing and remembers
        the grab offset; the frame and the view stay as they are. */
    method OnMouseDown(mx: real, my: real)
      requires Valid()
      modifies this`dragMode, this`dragOffset
      ensures Valid() && Grab(dragMode, dragOffset) == PickGrab(view, currentFrame, mx, my)
      ensures dragMode in {Anchor, Resize, Box, Pan}
    {
      var wMouse := ScreenToWorld(view, mx, my);
      var f := currentFrame;

      var anchorScreen := WorldToScreen(view, AnchorWorld(f));
      if WithinHandle(mx, my, anchorScreen) {
        dragMode := Anchor;
        dragOffset := Point(f.ax as real - (wMouse.x - f.x as real), f.ay as real - (wMouse.y - f.y as real));
        return;
      }

      var handleScreen := WorldToScreen(view, CornerWorld(f));
      if WithinHandle(mx, my, handleScreen) {
        dragMode := Resize;
        dragOffset := Point(f.w as real - (wMouse.x - f.x as real), f.h as real - (wMouse.y - f.y as real));
        return;
      }

      if Contains(f, wMouse) {
        dragMode := Box;
        dragOffset := Point(wMouse.x - f.x as real, wMouse.y - f.y as real);
        return;
      }

      dragMode := Pan;
      dragOffset := Point(mx - view.x, my - view.y);
    }

    /** Mouse-up ends any drag. */
    method OnMouseUp()
      modifies this`dragMode
      ensures dragMode == NoDrag
    {
      dragMode := NoDrag;
    }

    /** Mouse move to (mx, my): applies the current drag to the view or the frame. */
    method OnMouseMove(mx: real, my: real)
      requires Valid()
      modifies this`view, this`currentFrame
      ensures Valid()
      ensures view == DragView(dragMode, dragOffset, old(view), mx, my)
      ensures currentFrame == DragFrame(dragMode, dragOffset, old(view), old(currentFrame), mx, my)
    {
      var wMouse := ScreenToWorld(view, mx, my);
      var f := currentFrame;

      if dragMode == Pan {
        view := view.(x := mx - dragOffset.x);
        view := view.(y := my - dragOffset.y);
      } else if dragMode == Box {
        f := f.(x := Round(wMouse.x - dragOffset.x));
        f := f.(y := Round(wMouse.y - dragOffset.y));
      } else if dragMode == Resize {
        var newW := Round(wMouse.x - f.x as real);
        var newH := Round(wMouse.y - f.y as real);
        if newW < 1 { newW := 1; }
        if newH < 1 { newH := 1; }
        f := f.(w := newW);
        f := f.(h := newH);
      } else if dragMode == Anchor {
        f := f.(ax := Round(wMouse.x - f.x as real));
        f := f.(ay := Round(wMouse.y - f.y as real));
      }
      currentFrame := f;
    }

    /** One editor tick: Enter commits a copy of the working frame and advances
        it by its width; F is polled for the export; Tab switches the edit
        mode. Each key acts once per press. Nothing happens while inactive. */
    method Update(input: Input.InputState)
      requires Valid() && input.Valid()
      modifies this`frames, this`currentFrame, this`mode, input
      ensures Valid() && input.Valid() && input.events == old(input.events)
      ensures !active ==>
        frames == old(frames) && currentFrame == old(currentFrame) && mode == old(mode)
        && input.State() == old(input.State())
      ensures active ==>
        var k0 := old(input.State());
        var k1 := Input.AfterPoll(k0, "Enter");
        var k2 := Input.AfterPoll(k1, "KeyF");
        input.State() == Input.AfterPoll(k2, "Tab")
        && (frames, currentFrame) ==
             (if Input.Fires(k0, "Enter") then (old(frames) + [old(currentFrame)], Advance(old(currentFrame)))
              else (old(frames), old(currentFrame)))
        && mode == (if Input.Fires(k2, "Tab") then ToggleMode(old(mode)) else old(mode))
    {
      if !active {
        return;
      }
      var enter := input.IsPressed("Enter");
      if enter {
        var frameData := currentFrame;
        frames := frames + [frameData];
        currentFrame := currentFrame.(x := currentFrame.x + currentFrame.w);
      }
      var exportKey := input.IsPressed("KeyF");
      var tab := input.IsPressed("Tab");
      if tab {
        mode := if mode == BoxMode then AnchorMode else BoxMode;
      }
    }
  }
}
