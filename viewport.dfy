/**
 * The viewport of MapView as a value: continuous scale, pan offset, discrete
 * zoom level and the drag state, with one function per state transition of
 * the view. The class in module MapView performs these transitions step by
 * step on its fields; its methods are specified by the functions here, and
 * the lemmas here state what the transitions promise.
 */
module Viewport {
  import opened MapMath

  /** Deepest zoom level, the upper clamp in `calculateZoomLevel`. */
  const MaxZoom: nat := 7
  /** Bounds of the continuous scale factor enforced by `onScale`. */
  const MinScale: real := 1.0
  const MaxScale: real := 128.0

  /**
   * The fields of MapView that its gesture and layout callbacks update:
   * `scaleFactor`, `translateX/Y`, `currentZoomLevel`, `isDragging` and
   * `lastTouchX/Y`.
   */
  datatype ViewState = ViewState(
    scale: real,
    tx: real,
    ty: real,
    zoom: nat,
    dragging: bool,
    lastX: real,
    lastY: real)

  /** A pointer event as `onTouchEvent` distinguishes it; Other is any action the `when` ignores. */
  datatype TouchEvent = Down(x: real, y: real) | Move(x: real, y: real) | Up | Cancel | Other

  /** What every callback keeps: the scale lies in [1, 128] and the zoom in [0, 7]. */
  predicate Valid(v: ViewState) {
    MinScale <= v.scale <= MaxScale && v.zoom <= MaxZoom
  }

  /** Scale and zoom agree: the zoom level is the one derived from the scale. */
  predicate Settled(v: ViewState) {
    v.zoom == ZoomLevelOf(v.scale)
  }

  /**
   * Side length in pixels of the whole map at a zoom level: `tileSize * 2^zoom`
   * with tiles 256 pixels on a side (the literal keeps the product linear).
   */
  function MapExtent(zoom: nat): (e: real)
    ensures e >= 256.0
  {
    256.0 * Pow2(zoom) as real
  }

  /** Side length in pixels of the map as drawn at a zoom level and scale: `mapWidth * scaleFactor` (the map is square). */
  function ScaledExtent(zoom: nat, scale: real): real {
    MapExtent(zoom) * scale
  }

  /** The initial state of a freshly constructed view. */
  function Initial(): (v: ViewState)
    ensures Valid(v) && Settled(v)
  {
    ViewState(1.0, 0.0, 0.0, 0, false, 0.0, 0.0)
  }

  /**
   * `calculateZoomLevel`: the truncated base-2 logarithm of the scale,
   * clamped to [0, 7] (see ZoomLevelIsTruncatedLog2). Below 1 the logarithm
   * is negative, or undefined at and below 0 where Kotlin's toInt yields a
   * non-positive value or 0, so the clamp gives 0. From 1 on it is the
   * deepest level whose power of two does not exceed the scale.
   */
  function ZoomLevelOf(scale: real): (z: nat)
    ensures z <= MaxZoom
    ensures scale < 1.0 ==> z == 0
    ensures scale >= 1.0 ==> Pow2(z) as real <= scale
    ensures scale >= 1.0 && z < MaxZoom ==> scale < Pow2(z + 1) as real
  {
    if scale < 1.0 then 0 else DeepestLevel(scale, MaxZoom)
  }

  /** The largest z <= k with 2^z <= scale, for scale >= 1. */
  function DeepestLevel(scale: real, k: nat): (z: nat)
    requires scale >= 1.0
    ensures z <= k && Pow2(z) as real <= scale
    ensures z < k ==> scale < Pow2(z + 1) as real
  {
    if k == 0 || Pow2(k) as real <= scale then k else DeepestLevel(scale, k - 1)
  }

  /** The zoom level is `min(7, trunc(log2 scale))`, as `calculateZoomLevel` computes it. */
  lemma ZoomLevelIsTruncatedLog2(scale: real)
    requires scale >= 1.0
    ensures ZoomLevelOf(scale) == if FloorLog2(scale) < MaxZoom then FloorLog2(scale) else MaxZoom
  {
    var z, k := ZoomLevelOf(scale), FloorLog2(scale);
    Pow2Below(scale, k, z);
    if z < MaxZoom {
      Pow2Below(scale, z, k);
    }
  }

  /** For scale >= 1, the zoom level is the largest k <= 7 with 2^k <= scale. */
  lemma ZoomLevelIsLargestPower(scale: real, k: nat)
    requires scale >= 1.0 && k <= MaxZoom
    ensures Pow2(k) as real <= scale <==> k <= ZoomLevelOf(scale)
  {
    var z := ZoomLevelOf(scale);
    if k <= z {
      Pow2Monotone(k, z);
    } else {
      Pow2Monotone(z + 1, k);
    }
  }

  /** A snapped scale 2^z lies in [1, 128] and gives back z: the reason `updateMap` is idempotent. */
  lemma ZoomLevelOfPow2(z: nat)
    requires z <= MaxZoom
    ensures MinScale <= Pow2(z) as real <= MaxScale
    ensures ZoomLevelOf(Pow2(z) as real) == z
  {
    Pow2Monotone(z, MaxZoom);
    assert Pow2(MaxZoom) == 128;
    ZoomLevelIsLargestPower(Pow2(z) as real, z);
    var r := ZoomLevelOf(Pow2(z) as real);
    if r > z {
      Pow2StrictlyMonotone(z, r);
    }
  }

  /**
   * One axis of `constrainTranslation`: the lower bound is forced to be at
   * least 0 and the result is `max(lower, min(t, 0))`, which is always the
   * lower bound itself, whatever the prior translation.
   */
  function ConstrainAxis(t: real, size: int, scaledExtent: real): (r: real)
    ensures r == Max(size as real - scaledExtent, 0.0)
    ensures r >= 0.0
  {
    var minT := Max(size as real - scaledExtent, 0.0);
    Max(minT, Min(t, 0.0))
  }

  /** `constrainTranslation` on both axes, for a view of size w x h. */
  function Constrain(v: ViewState, w: int, h: int): (r: ViewState)
    ensures r == v.(tx := r.tx, ty := r.ty)
    ensures r.tx == Max(w as real - ScaledExtent(v.zoom, v.scale), 0.0)
    ensures r.ty == Max(h as real - ScaledExtent(v.zoom, v.scale), 0.0)
  {
    var scaledExtent := ScaledExtent(v.zoom, v.scale);
    v.(tx := ConstrainAxis(v.tx, w, scaledExtent), ty := ConstrainAxis(v.ty, h, scaledExtent))
  }

  /** Constraining twice is constraining once. */
  lemma ConstrainIdempotent(v: ViewState, w: int, h: int)
    ensures Constrain(Constrain(v, w, h), w, h) == Constrain(v, w, h)
  {
  }

  /** Two states that differ only in their translation are constrained to the same state. */
  lemma ConstrainIgnoresTranslation(v: ViewState, tx: real, ty: real, w: int, h: int)
    ensures Constrain(v.(tx := tx, ty := ty), w, h) == Constrain(v, w, h)
  {
  }

  /** Moves a translation so that the map point under `focus` stays there when the scale is multiplied by `ratio`. */
  function ZoomAbout(focus: real, t: real, ratio: real): real {
    focus - (focus - t) * ratio
  }

  lemma ZoomAboutKeepsFocus(focus: real, t: real, s: real, s': real)
    requires s > 0.0 && s' > 0.0
    ensures (focus - ZoomAbout(focus, t, s' / s)) / s' == (focus - t) / s
  {
    var d := focus - t;
    calc {
      (focus - ZoomAbout(focus, t, s' / s)) / s';
      (d * (s' / s)) / s';
      { assert d * (s' / s) == (d / s) * s'; }
      ((d / s) * s') / s';
      d / s;
    }
  }

  /**
   * `ScaleListener.onScale` before its call to `updateMap`: multiply the
   * scale by the detector's multiplier, clamp it to [1, 128], and keep the
   * map point under the focus where it is.
   */
  function ScaleAbout(v: ViewState, multiplier: real, focusX: real, focusY: real): (r: ViewState)
    requires Valid(v)
    ensures Valid(r)
    ensures r == v.(scale := r.scale, tx := r.tx, ty := r.ty)
    ensures MinScale <= v.scale * multiplier <= MaxScale ==> r.scale == v.scale * multiplier
    ensures v.scale * multiplier < MinScale ==> r.scale == MinScale
    ensures v.scale * multiplier > MaxScale ==> r.scale == MaxScale
    ensures (focusX - r.tx) / r.scale == (focusX - v.tx) / v.scale
    ensures (focusY - r.ty) / r.scale == (focusY - v.ty) / v.scale
  {
    var scale := Max(MinScale, Min(v.scale * multiplier, MaxScale));
    ZoomAboutKeepsFocus(focusX, v.tx, v.scale, scale);
    ZoomAboutKeepsFocus(focusY, v.ty, v.scale, scale);
    v.(scale := scale,
       tx := ZoomAbout(focusX, v.tx, scale / v.scale),
       ty := ZoomAbout(focusY, v.ty, scale / v.scale))
  }

  /**
   * The rebase step of `updateMap` for a newly derived zoom level: snap the
   * scale to 2^zoom and rescale the translation about the centre of the
   * w x h view, so that the map point at the centre stays there.
   */
  function Recentre(v: ViewState, zoom: nat, w: int, h: int): (r: ViewState)
    requires Valid(v)
    ensures r == v.(zoom := zoom, scale := Pow2(zoom) as real, tx := r.tx, ty := r.ty)
    ensures (w as real / 2.0 - r.tx) / r.scale == (w as real / 2.0 - v.tx) / v.scale
    ensures (h as real / 2.0 - r.ty) / r.scale == (h as real / 2.0 - v.ty) / v.scale
  {
    var scale := Pow2(zoom) as real;
    ZoomAboutKeepsFocus(w as real / 2.0, v.tx, v.scale, scale);
    ZoomAboutKeepsFocus(h as real / 2.0, v.ty, v.scale, scale);
    v.(zoom := zoom, scale := scale,
       tx := ZoomAbout(w as real / 2.0, v.tx, scale / v.scale),
       ty := ZoomAbout(h as real / 2.0, v.ty, scale / v.scale))
  }

  /**
   * The state part of `updateMap` for a view of size w x h: when the zoom
   * level derived from the scale differs from the current one, adopt it,
   * recentre and constrain; otherwise change nothing.
   */
  function SnapZoom(v: ViewState, w: int, h: int): (r: ViewState)
    requires Valid(v)
    ensures Valid(r) && Settled(r)
    ensures ZoomLevelOf(v.scale) == v.zoom ==> r == v
    ensures ZoomLevelOf(v.scale) != v.zoom ==>
      r.zoom == ZoomLevelOf(v.scale) && r.scale == Pow2(r.zoom) as real
      && r.tx == Max(w as real - ScaledExtent(r.zoom, r.scale), 0.0)
      && r.ty == Max(h as real - ScaledExtent(r.zoom, r.scale), 0.0)
    ensures r.dragging == v.dragging && r.lastX == v.lastX && r.lastY == v.lastY
  {
    var zoom := ZoomLevelOf(v.scale);
    if zoom != v.zoom then ZoomLevelOfPow2(zoom); Constrain(Recentre(v, zoom, w, h), w, h) else v
  }

  /** A second `updateMap` with nothing in between changes nothing. */
  lemma SnapZoomIdempotent(v: ViewState, w: int, h: int)
    requires Valid(v)
    ensures SnapZoom(SnapZoom(v, w, h), w, h) == SnapZoom(v, w, h)
  {
  }

  /** After a snap, scale and zoom are linked: the scale is 2^zoom or lies below 2^(zoom+1). */
  lemma SnappedScaleWithinLevel(v: ViewState, w: int, h: int)
    requires Valid(v)
    ensures var r := SnapZoom(v, w, h);
      Pow2(r.zoom) as real <= r.scale && (r.zoom < MaxZoom ==> r.scale < Pow2(r.zoom + 1) as real)
  {
  }

  /**
   * A complete `onScale`: scale about the focus, then `updateMap`. While the
   * clamped scale stays within the current level, the map point under the
   * focus stays there; once it crosses into another level, the scale snaps
   * to that level's power of two.
   */
  function Pinch(v: ViewState, multiplier: real, focusX: real, focusY: real, w: int, h: int): (r: ViewState)
    requires Valid(v)
    ensures Valid(r) && Settled(r)
    ensures var s := Max(MinScale, Min(v.scale * multiplier, MaxScale));
      ZoomLevelOf(s) == v.zoom ==>
        r.zoom == v.zoom && r.scale == s
        && (focusX - r.tx) / r.scale == (focusX - v.tx) / v.scale
        && (focusY - r.ty) / r.scale == (focusY - v.ty) / v.scale
    ensures var s := Max(MinScale, Min(v.scale * multiplier, MaxScale));
      ZoomLevelOf(s) != v.zoom ==>
        r.zoom == ZoomLevelOf(s) && r.scale == Pow2(r.zoom) as real
        && r.tx == Max(w as real - ScaledExtent(r.zoom, r.scale), 0.0)
        && r.ty == Max(h as real - ScaledExtent(r.zoom, r.scale), 0.0)
    ensures r.dragging == v.dragging && r.lastX == v.lastX && r.lastY == v.lastY
  {
    var scaled := ScaleAbout(v, multiplier, focusX, focusY);
    assert scaled.scale == Max(MinScale, Min(v.scale * multiplier, MaxScale));
    SnapZoom(scaled, w, h)
  }

  /**
   * `adjustInitialPosition`: for a laid-out view, centre the map at the
   * current zoom and scale; otherwise leave everything as it is.
   */
  function Centre(v: ViewState, w: int, h: int): (r: ViewState)
    ensures r == v.(tx := r.tx, ty := r.ty)
    ensures !(w > 0 && h > 0) ==> r == v
    ensures w > 0 && h > 0 ==>
      r.tx + ScaledExtent(v.zoom, v.scale) / 2.0 == w as real / 2.0
      && r.ty + ScaledExtent(v.zoom, v.scale) / 2.0 == h as real / 2.0
  {
    if w > 0 && h > 0 then
      var scaledExtent := ScaledExtent(v.zoom, v.scale);
      v.(tx := (w as real - scaledExtent) / 2.0, ty := (h as real - scaledExtent) / 2.0)
    else
      v
  }

  /**
   * The MOVE branch of `onTouchEvent` while dragging: pan by the pointer's
   * delta since the last event, constrain, record the pointer and run
   * `updateMap`. The result is settled, and its translation is pinned to
   * `max(size - scaled extent, 0)` on both axes whatever the pan was.
   */
  function Drag(v: ViewState, x: real, y: real, w: int, h: int): (r: ViewState)
    requires Valid(v)
    ensures Valid(r) && Settled(r)
    ensures r.dragging == v.dragging && r.lastX == x && r.lastY == y
    ensures Settled(v) ==> r.scale == v.scale && r.zoom == v.zoom
    ensures r.tx == Max(w as real - ScaledExtent(r.zoom, r.scale), 0.0)
    ensures r.ty == Max(h as real - ScaledExtent(r.zoom, r.scale), 0.0)
  {
    var panned := Constrain(v.(tx := v.tx + (x - v.lastX), ty := v.ty + (y - v.lastY)), w, h);
    SnapZoom(panned.(lastX := x, lastY := y), w, h)
  }

  /**
   * `onTouchEvent` on a view of size w x h: DOWN starts a drag at the
   * pointer, MOVE drags only while a drag is in progress, UP and CANCEL end
   * the drag, and every other action changes nothing.
   */
  function Touch(v: ViewState, ev: TouchEvent, w: int, h: int): (r: ViewState)
    requires Valid(v)
    ensures Valid(r)
    ensures ev.Down? ==> r == v.(dragging := true, lastX := ev.x, lastY := ev.y)
    ensures ev.Move? && !v.dragging ==> r == v
    ensures ev.Move? && v.dragging ==> r == Drag(v, ev.x, ev.y, w, h)
    ensures (ev.Up? || ev.Cancel?) ==> r == v.(dragging := false)
    ensures ev.Other? ==> r == v
  {
    match ev
    case Down(x, y) => v.(lastX := x, lastY := y, dragging := true)
    case Move(x, y) => if v.dragging then Drag(v, x, y, w, h) else v
    case Up => v.(dragging := false)
    case Cancel => v.(dragging := false)
    case Other => v
  }

  /** A pinch by 1.5 from the initial state leaves the zoom at 0 and keeps the unsnapped scale 1.5. */
  lemma SubThresholdPinchKeepsScale(w: int, h: int)
    ensures var r := Pinch(Initial(), 1.5, 150.0, 150.0, w, h);
      r.zoom == 0 && r.scale == 1.5
  {
  }
}
