// The certificate viewer: zoom, rotation, fitting and panning of one image.
module CertViewer {
  import opened Wrappers
  import opened JsMath

  /** The transform state of the viewer. */
  datatype View = View(scale: real, rotate: int, offsetX: real, offsetY: real, fitted: bool)

  const INITIAL: View := View(1.0, 0, 0.0, 0.0, true)

  /** The sizes `fitImage` reads: the container's client box and the image's natural size, in pixels. */
  datatype Measure = Measure(containerW: nat, containerH: nat, naturalW: nat, naturalH: nat)

  /** Whether a measurement lets the image be fitted: both elements are mounted and the image has a size. */
  predicate Measurable(m: Option<Measure>) {
    m.Some? && m.value.naturalW > 0 && m.value.naturalH > 0
  }

  /** The largest scale, at most 1, at which the whole image fits the container. */
  function FitScale(m: Measure): (s: real)
    requires m.naturalW > 0 && m.naturalH > 0
    ensures 0.0 <= s <= 1.0
    ensures s * m.naturalW as real <= m.containerW as real && s * m.naturalH as real <= m.containerH as real
    ensures s == 1.0 || s == m.containerW as real / m.naturalW as real || s == m.containerH as real / m.naturalH as real
  {
    var w := m.containerW as real / m.naturalW as real;
    var h := m.containerH as real / m.naturalH as real;
    MinR(MinR(w, h), 1.0)
  }

  /** Fits the image: unscaled if it fits, otherwise shrunk to fit, centred and upright; nothing happens without a measurement. */
  function FitImage(v: View, m: Option<Measure>): (r: View)
    ensures !Measurable(m) ==> r == v
    ensures Measurable(m) ==> r == View(FitScale(m.value), 0, 0.0, 0.0, true)
  {
    if m.None? || m.value.naturalW == 0 || m.value.naturalH == 0 then v
    else View(FitScale(m.value), 0, 0.0, 0.0, true)
  }

  /** Fitting twice is fitting once. */
  lemma FitIdempotent(v: View, m: Option<Measure>)
    ensures FitImage(FitImage(v, m), m) == FitImage(v, m)
  {
  }

  // ---------------------------------------------------------------------------
  // Zoom

  /** One zoom step in: 0.2 more, rounded to thousandths, at most 8. */
  function ZoomIn(s: real): (r: real)
    ensures r <= 8.0
    ensures r == 8.0 || (s + 0.2 - 0.0005 <= r <= s + 0.2 + 0.0005)
    ensures ToFixed3(s + 0.2) <= 8.0 ==> r == ToFixed3(s + 0.2)
    ensures s + 0.2 + 0.0005 <= 8.0 ==> s + 0.2 - 0.0005 <= r <= s + 0.2 + 0.0005
    ensures (r * 1000.0).Floor as real == r * 1000.0
  {
    assert (8.0 * 1000.0).Floor == 8000;
    MinR(8.0, ToFixed3(s + 0.2))
  }

  /** One zoom step out: 0.2 less, rounded to thousandths, at least 0.1. */
  function ZoomOut(s: real): (r: real)
    ensures r >= 0.1
    ensures r == 0.1 || (s - 0.2 - 0.0005 <= r <= s - 0.2 + 0.0005)
    ensures ToFixed3(s - 0.2) >= 0.1 ==> r == ToFixed3(s - 0.2)
    ensures s - 0.2 - 0.0005 >= 0.1 ==> s - 0.2 - 0.0005 <= r <= s - 0.2 + 0.0005
    ensures (r * 1000.0).Floor as real == r * 1000.0
  {
    assert (0.1 * 1000.0).Floor == 100;
    MaxR(0.1, ToFixed3(s - 0.2))
  }

  /** Rounding to thousandths leaves a number of thousandths alone. */
  lemma ToFixed3Exact(k: int)
    ensures ToFixed3(k as real / 1000.0) == k as real / 1000.0
  {
    var x := k as real / 1000.0;
    assert x * 1000.0 == k as real;
    RoundOfInt(k);
    RoundOfInt(-k);
  }

  /** Away from the limits, zooming in then out returns to a scale given in thousandths. */
  lemma ZoomInThenOut(k: int)
    requires 300 <= k <= 7800
    ensures ZoomOut(ZoomIn(k as real / 1000.0)) == k as real / 1000.0
  {
    var s := k as real / 1000.0;
    assert s + 0.2 == (k + 200) as real / 1000.0;
    ToFixed3Exact(k + 200);
    assert ZoomIn(s) == s + 0.2;
    assert s + 0.2 - 0.2 == s;
    ToFixed3Exact(k);
  }

  /** The zoom buttons: the step, and the view no longer counts as fitted. */
  function ZoomInButton(v: View): (r: View)
    ensures r == v.(scale := ZoomIn(v.scale), fitted := false)
  {
    v.(scale := MinR(8.0, ToFixed3(v.scale + 0.2)), fitted := false)
  }

  function ZoomOutButton(v: View): (r: View)
    ensures r == v.(scale := ZoomOut(v.scale), fitted := false)
  {
    v.(scale := MaxR(0.1, ToFixed3(v.scale - 0.2)), fitted := false)
  }

  // ---------------------------------------------------------------------------
  // Rotation

  /** A quarter turn anticlockwise, with JavaScript's sign-keeping remainder. */
  function RotateLeft(r: int): (a: int)
    ensures -360 < a < 360
    ensures (r - 90 - a) % 360 == 0
  {
    Rem(r - 90, 360)
  }

  /** A quarter turn clockwise. */
  function RotateRight(r: int): (a: int)
    ensures -360 < a < 360
    ensures (r + 90 - a) % 360 == 0
  {
    Rem(r + 90, 360)
  }

  /** The angles the viewer can reach from 0: multiples of 90 strictly between -360 and 360. */
  predicate RightAngle(r: int) {
    r % 90 == 0 && -360 < r < 360
  }

  lemma RightAngleCases(r: int)
    requires RightAngle(r)
    ensures r in {-270, -180, -90, 0, 90, 180, 270}
  {
    var q := r / 90;
    assert r == 90 * q;
    assert -4 < q < 4;
  }

  /** Both turns keep the angle a right angle in (-360, 360). */
  lemma RotationKeepsRightAngle(r: int)
    requires RightAngle(r)
    ensures RightAngle(RotateLeft(r)) && RightAngle(RotateRight(r))
  {
    RightAngleCases(r);
  }

  /** A right turn undone by a left turn gives an angle congruent to the start, modulo a full turn. */
  lemma RightThenLeftCongruent(r: int)
    requires RightAngle(r)
    ensures (RotateLeft(RotateRight(r)) - r) % 360 == 0
    ensures r != 270 ==> RotateLeft(RotateRight(r)) == r
  {
    RightAngleCases(r);
  }

  /** ... but not always equal: from 270 a right turn wraps to 0 and the left turn then goes to -90. */
  lemma RightThenLeftFrom270()
    ensures RotateRight(270) == 0 && RotateLeft(RotateRight(270)) == -90
  {
  }

  // ---------------------------------------------------------------------------
  // Double-click, fit button, new image

  /** Double-click zooms a fitted image to twice its size (at most 4), and fits it otherwise. */
  function DoubleClick(v: View, m: Option<Measure>): (r: View)
    ensures v.fitted ==> r == v.(scale := MinR(4.0, v.scale * 2.0), fitted := false)
    ensures !v.fitted ==> r == FitImage(v, m)
  {
    if v.fitted then v.(scale := MinR(4.0, v.scale * 2.0), fitted := false) else FitImage(v, m)
  }

  /** Two double-clicks on a fitted, measurable image zoom in and come back to the fitted view. */
  lemma DoubleClickTwice(v: View, m: Option<Measure>)
    requires v.fitted && Measurable(m)
    ensures DoubleClick(DoubleClick(v, m), m) == FitImage(v, m)
  {
  }

  /** The Fit button: fit, then mark fitted even when there was nothing to measure. */
  function FitButton(v: View, m: Option<Measure>): (r: View)
    ensures r.fitted
    ensures Measurable(m) ==> r == FitImage(v, m)
    ensures !Measurable(m) ==> r == v.(fitted := true)
  {
    FitImage(v, m).(fitted := true)
  }

  /** A new image: fit it, and re-centre and straighten whether or not it could be measured. */
  function SourceChanged(v: View, m: Option<Measure>): (r: View)
    ensures r.offsetX == 0.0 && r.offsetY == 0.0 && r.rotate == 0
    ensures Measurable(m) ==> r == FitImage(v, m)
    ensures !Measurable(m) ==> r.scale == v.scale && r.fitted == v.fitted
  {
    FitImage(v, m).(offsetX := 0.0, offsetY := 0.0, rotate := 0)
  }

  /** The image finished loading: a fitted view is fitted again to the image's real size; a zoomed or panned one is left alone. */
  function ImageLoaded(v: View, m: Option<Measure>): (r: View)
    ensures v.fitted ==> r == FitImage(v, m)
    ensures !v.fitted ==> r == v
  {
    if v.fitted then FitImage(v, m) else v
  }

  /** A load after a successful fit changes nothing, and a load never undoes the user's zoom or pan. */
  lemma ImageLoadedStable(v: View, m: Option<Measure>)
    ensures Measurable(m) ==> ImageLoaded(FitImage(v, m), m) == FitImage(v, m)
    ensures ImageLoaded(ZoomInButton(v), m) == ZoomInButton(v)
    ensures ImageLoaded(ZoomOutButton(v), m) == ZoomOutButton(v)
  {
    FitIdempotent(v, m);
  }

  // ---------------------------------------------------------------------------
  // Keyboard

  datatype ViewerKey = Escape | Plus | Equals | Minus | Zero | ArrowLeft | ArrowRight | ArrowUp | ArrowDown | OtherKey

  /** The view after a key, and whether the viewer asks to be closed. */
  datatype Reaction = Reaction(view: View, close: bool)

  const PAN_STEP: real := 20.0

  /** The key handler: zoom keys keep the fitted flag, `0` fits, arrows pan by 20 px, Escape closes. */
  function OnKey(v: View, key: ViewerKey, m: Option<Measure>): (r: Reaction)
    ensures r.close <==> key == Escape
    ensures key == Escape || key == OtherKey ==> r.view == v
    ensures key == Plus || key == Equals ==> r.view == v.(scale := ZoomIn(v.scale))
    ensures key == Minus ==> r.view == v.(scale := ZoomOut(v.scale))
    ensures key == Zero ==> r.view == FitImage(v, m)
    ensures key in {ArrowLeft, ArrowRight} ==> r.view.offsetY == v.offsetY && r.view == v.(offsetX := r.view.offsetX)
    ensures key in {ArrowUp, ArrowDown} ==> r.view.offsetX == v.offsetX && r.view == v.(offsetY := r.view.offsetY)
    ensures key == ArrowLeft ==> r.view.offsetX == v.offsetX + PAN_STEP
    ensures key == ArrowRight ==> r.view.offsetX == v.offsetX - PAN_STEP
    ensures key == ArrowUp ==> r.view.offsetY == v.offsetY + PAN_STEP
    ensures key == ArrowDown ==> r.view.offsetY == v.offsetY - PAN_STEP
  {
    match key
    case Escape => Reaction(v, true)
    case Plus => Reaction(v.(scale := MinR(8.0, ToFixed3(v.scale + 0.2))), false)
    case Equals => Reaction(v.(scale := MinR(8.0, ToFixed3(v.scale + 0.2))), false)
    case Minus => Reaction(v.(scale := MaxR(0.1, ToFixed3(v.scale - 0.2))), false)
    case Zero => Reaction(FitImage(v, m), false)
    case ArrowLeft => Reaction(v.(offsetX := v.offsetX + 20.0), false)
    case ArrowRight => Reaction(v.(offsetX := v.offsetX - 20.0), false)
    case ArrowUp => Reaction(v.(offsetY := v.offsetY + 20.0), false)
    case ArrowDown => Reaction(v.(offsetY := v.offsetY - 20.0), false)
    case OtherKey => Reaction(v, false)
  }

  /** Opposite arrow keys cancel out. */
  lemma OppositeArrowsCancel(v: View, m: Option<Measure>)
    ensures OnKey(OnKey(v, ArrowLeft, m).view, ArrowRight, m).view == v
    ensures OnKey(OnKey(v, ArrowRight, m).view, ArrowLeft, m).view == v
    ensures OnKey(OnKey(v, ArrowUp, m).view, ArrowDown, m).view == v
    ensures OnKey(OnKey(v, ArrowDown, m).view, ArrowUp, m).view == v
  {
  }

  /** Every state the viewer reaches from its initial one keeps the angle a right angle. */
  lemma KeysKeepRightAngle(v: View, key: ViewerKey, m: Option<Measure>)
    requires RightAngle(v.rotate)
    ensures RightAngle(OnKey(v, key, m).view.rotate)
    ensures RightAngle(DoubleClick(v, m).rotate) && RightAngle(FitButton(v, m).rotate)
    ensures RightAngle(RotateLeft(v.rotate)) && RightAngle(RotateRight(v.rotate))
  {
    RotationKeepsRightAngle(v.rotate);
  }

  // ---------------------------------------------------------------------------
  // Dragging

  /** The offset while dragging: where the drag started from, moved by how far the pointer went. */
  function DragOffset(base: real, start: real, client: real): (o: real)
    ensures client == start ==> o == base
    ensures o - base == client - start
  {
    base + (client - start)
  }

  /** Drags compose: a drag that passes through a point is that drag continued from there. */
  lemma DragThrough(base: real, start: real, mid: real, client: real)
    ensures DragOffset(base, start, client) == DragOffset(DragOffset(base, start, mid), mid, client)
  {
  }

  /** The pointer-drag bookkeeping, updated in place by the pointer handlers. */
  class Pan {
    var dragging: bool
    var startX: real
    var startY: real
    var baseX: real
    var baseY: real

    constructor ()
      ensures !dragging && startX == 0.0 && startY == 0.0 && baseX == 0.0 && baseY == 0.0
    {
      dragging := false;
      startX, startY := 0.0, 0.0;
      baseX, baseY := 0.0, 0.0;
    }

    /** Pointer pressed: remember where, and the offset at that moment. */
    method PointerDown(clientX: real, clientY: real, v: View)
      modifies this
      ensures dragging && startX == clientX && startY == clientY && baseX == v.offsetX && baseY == v.offsetY
    {
      dragging := true;
      startX := clientX;
      startY := clientY;
      baseX := v.offsetX;
      baseY := v.offsetY;
    }

    /** Pointer moved: while dragging the image follows the pointer and is no longer fitted. */
    method PointerMove(clientX: real, clientY: real, v: View) returns (w: View)
      ensures !dragging ==> w == v
      ensures dragging ==> w == v.(offsetX := DragOffset(baseX, startX, clientX), offsetY := DragOffset(baseY, startY, clientY), fitted := false)
      ensures dragging && clientX == startX && clientY == startY ==> w.offsetX == baseX && w.offsetY == baseY
    {
      if !dragging {
        return v;
      }
      var dx := clientX - startX;
      var dy := clientY - startY;
      w := v.(offsetX := baseX + dx, offsetY := baseY + dy);
      w := w.(fitted := false);
    }

    /** Pointer released. */
    method PointerUp()
      modifies this`dragging
      ensures !dragging
    {
      dragging := false;
    }
  }
}
