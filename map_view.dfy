/**
 * MapView: the pannable, pinch-zoomable map widget. Its callbacks update the
 * viewport fields step by step, as the widget does; each method is specified
 * by the Viewport function for the same transition. Rendering is left
 * abstract: `updateMap` reports the arguments it hands to the tile provider.
 */
module MapView {
  import opened Wrappers
  import opened MapMath
  import opened Viewport

  /** The arguments of one `getTile` call made by `updateMap`. */
  datatype TileRequest = TileRequest(
    zoomLevel: int,
    translateX: real,
    translateY: real,
    viewWidth: int,
    viewHeight: int,
    scaleFactor: real)

  /**
   * The call `updateMap` makes for a view in state v of size w x h: the
   * translation is divided by the scale, so the provider sees it in pixels
   * of the unscaled tile grid, and the provider's own scale is 1.
   */
  function RequestFor(v: ViewState, w: int, h: int): (req: TileRequest)
    requires Valid(v)
    ensures req.zoomLevel == v.zoom && req.viewWidth == w && req.viewHeight == h
    ensures req.translateX * v.scale == v.tx && req.translateY * v.scale == v.ty
    ensures req.scaleFactor == 1.0
  {
    TileRequest(v.zoom, v.tx / v.scale, v.ty / v.scale, w, h, 1.0)
  }

  class MapView {
    /** Whether `setTileProvider` has been called (the provider is nullable). */
    var hasTileProvider: bool
    var scaleFactor: real
    var translateX: real
    var translateY: real
    var currentZoomLevel: nat
    var lastTouchX: real
    var lastTouchY: real
    var isDragging: bool
    /** The view's size in pixels, owned by the host's layout pass. */
    var width: int
    var height: int

    /** The viewport fields as a value. */
    function State(): ViewState
      reads this
    {
      ViewState(scaleFactor, translateX, translateY, currentZoomLevel, isDragging, lastTouchX, lastTouchY)
    }

    predicate Valid()
      reads this
    {
      Viewport.Valid(State())
    }

    /**
     * Between callbacks the zoom level is the one the scale gives. The
     * helpers `updateMap` and `constrainTranslation`, and the MOVE branch,
     * also run from states where it does not hold yet, so they require
     * only Valid().
     */
    predicate Settled()
      reads this
    {
      Viewport.Settled(State())
    }

    /** The field initialisers: scale 1, no translation, zoom 0, not dragging, not yet laid out. */
    constructor ()
      ensures Valid() && Settled() && State() == Initial()
      ensures width == 0 && height == 0 && !hasTileProvider
    {
      hasTileProvider := false;
      scaleFactor := 1.0;
      translateX, translateY := 0.0, 0.0;
      currentZoomLevel := 0;
      lastTouchX, lastTouchY := 0.0, 0.0;
      isDragging := false;
      width, height := 0, 0;
    }

    /** `setTileProvider`: install a provider, then `updateMap`. */
    method SetTileProvider() returns (request: Option<TileRequest>)
      requires Valid() && Settled()
      modifies this`hasTileProvider, this`scaleFactor, this`currentZoomLevel, this`translateX, this`translateY
      ensures Valid() && Settled() && hasTileProvider
      ensures State() == SnapZoom(old(State()), width, height)
      ensures request == Some(RequestFor(State(), width, height))
    {
      hasTileProvider := true;
      request := UpdateMap();
    }

    /** `onSizeChanged`: adopt the new size, re-centre, then `updateMap`. */
    method OnSizeChanged(w: int, h: int) returns (request: Option<TileRequest>)
      requires Valid() && Settled()
      modifies this`width, this`height, this`scaleFactor, this`currentZoomLevel, this`translateX, this`translateY
      ensures Valid() && Settled() && width == w && height == h
      ensures State() == SnapZoom(Centre(old(State()), w, h), w, h)
      ensures request == if hasTileProvider then Some(RequestFor(State(), w, h)) else None
    {
      width, height := w, h;
      AdjustInitialPosition();
      request := UpdateMap();
    }

    /** The block the constructor posts to the UI thread: re-centre, then `updateMap`. */
    method OnPosted() returns (request: Option<TileRequest>)
      requires Valid() && Settled()
      modifies this`scaleFactor, this`currentZoomLevel, this`translateX, this`translateY
      ensures Valid() && Settled()
      ensures State() == SnapZoom(Centre(old(State()), width, height), width, height)
      ensures request == if hasTileProvider then Some(RequestFor(State(), width, height)) else None
    {
      AdjustInitialPosition();
      request := UpdateMap();
    }

    /** `onDraw`: every frame runs `updateMap`. */
    method OnDraw() returns (request: Option<TileRequest>)
      requires Valid() && Settled()
      modifies this`scaleFactor, this`currentZoomLevel, this`translateX, this`translateY
      ensures Valid() && Settled()
      ensures State() == SnapZoom(old(State()), width, height)
      ensures request == if hasTileProvider then Some(RequestFor(State(), width, height)) else None
    {
      request := UpdateMap();
    }

    /** `adjustInitialPosition`: centre the map once the view has a size. */
    method AdjustInitialPosition()
      requires Valid()
      modifies this`translateX, this`translateY
      ensures Valid()
      ensures State() == Centre(old(State()), width, height)
    {
      if width > 0 && height > 0 {
        // mapWidth * scaleFactor and mapHeight * scaleFactor
        var scaledWidth := ScaledExtent(currentZoomLevel, scaleFactor);
        var scaledHeight := ScaledExtent(currentZoomLevel, scaleFactor);
        translateX := (width as real - scaledWidth) / 2.0;
        translateY := (height as real - scaledHeight) / 2.0;
      }
    }

    /**
     * `onTouchEvent`, after the scale detector has seen the event (its pinch
     * callback is OnScale). The widget always reports the event as handled.
     */
    method OnTouchEvent(ev: TouchEvent) returns (handled: bool, request: Option<TileRequest>)
      requires Valid() && Settled()
      modifies this`scaleFactor, this`currentZoomLevel, this`translateX, this`translateY
      modifies this`lastTouchX, this`lastTouchY, this`isDragging
      ensures Valid() && Settled() && handled
      ensures State() == Touch(old(State()), ev, width, height)
      ensures scaleFactor == old(scaleFactor) && currentZoomLevel == old(currentZoomLevel)
      ensures request ==
        if ev.Move? && old(isDragging) && hasTileProvider then Some(RequestFor(State(), width, height)) else None
    {
      request := None;
      match ev {
        case Down(x, y) =>
          lastTouchX := x;
          lastTouchY := y;
          isDragging := true;
        case Move(x, y) =>
          if isDragging {
            request := DragTo(x, y);
          }
        case Up =>
          isDragging := false;
        case Cancel =>
          isDragging := false;
        case Other =>
      }
      handled := true;
    }

    /** The MOVE branch of `onTouchEvent` while a drag is in progress. */
    method DragTo(x: real, y: real) returns (request: Option<TileRequest>)
      requires Valid()
      modifies this`scaleFactor, this`currentZoomLevel, this`translateX, this`translateY
      modifies this`lastTouchX, this`lastTouchY
      ensures Valid()
      ensures State() == Drag(old(State()), x, y, width, height)
      ensures Viewport.Settled(old(State())) ==>
        scaleFactor == old(scaleFactor) && currentZoomLevel == old(currentZoomLevel)
      ensures request == if hasTileProvider then Some(RequestFor(State(), width, height)) else None
    {
      ghost var v := State();
      var dx := x - lastTouchX;
      var dy := y - lastTouchY;
      translateX := translateX + dx;
      translateY := translateY + dy;
      ConstrainTranslation();
      lastTouchX := x;
      lastTouchY := y;
      assert State() == Constrain(v.(tx := v.tx + (x - v.lastX), ty := v.ty + (y - v.lastY)), width, height).(lastX := x, lastY := y);
      request := UpdateMap();
    }

    /** `constrainTranslation`, at the current zoom level and scale. */
    method ConstrainTranslation()
      requires Valid()
      modifies this`translateX, this`translateY
      ensures Valid()
      ensures State() == Constrain(old(State()), width, height)
    {
      // mapWidth * scaleFactor and mapHeight * scaleFactor
      var scaledWidth := ScaledExtent(currentZoomLevel, scaleFactor);
      var scaledHeight := ScaledExtent(currentZoomLevel, scaleFactor);
      var minX := Max(width as real - scaledWidth, 0.0);
      var minY := Max(height as real - scaledHeight, 0.0);
      translateX := Max(minX, Min(translateX, 0.0));
      translateY := Max(minY, Min(translateY, 0.0));
    }

    /**
     * `updateMap`: re-derive the zoom level from the scale and, when it
     * changed, snap the scale and rebase the translation about the view
     * centre; then ask the provider, if any, for the composite.
     */
    method UpdateMap() returns (request: Option<TileRequest>)
      requires Valid()
      modifies this`scaleFactor, this`currentZoomLevel, this`translateX, this`translateY
      ensures Valid() && Settled()
      ensures State() == SnapZoom(old(State()), width, height)
      ensures request == if hasTileProvider then Some(RequestFor(State(), width, height)) else None
    {
      ghost var before := State();
      var newZoomLevel := ZoomLevelOf(scaleFactor);
      if newZoomLevel != currentZoomLevel {
        var previousScale := scaleFactor;
        ZoomLevelOfPow2(newZoomLevel);
        currentZoomLevel := newZoomLevel;
        scaleFactor := Pow2(currentZoomLevel) as real;
        var focusX := width as real / 2.0;
        var focusY := height as real / 2.0;
        translateX := ZoomAbout(focusX, translateX, scaleFactor / previousScale);
        translateY := ZoomAbout(focusY, translateY, scaleFactor / previousScale);
        assert State() == Recentre(before, newZoomLevel, width, height);
        ConstrainTranslation();
      }
      if hasTileProvider {
        request := Some(RequestFor(State(), width, height));
      } else {
        request := None;
      }
    }

    /**
     * `ScaleListener.onScale` for a detector reporting `multiplier` about
     * (focusX, focusY): rescale about the focus, clamp the scale to [1, 128],
     * then `updateMap`.
     */
    method OnScale(multiplier: real, focusX: real, focusY: real) returns (handled: bool, request: Option<TileRequest>)
      requires Valid()
      modifies this`scaleFactor, this`currentZoomLevel, this`translateX, this`translateY
      ensures Valid() && Settled() && handled
      ensures State() == Pinch(old(State()), multiplier, focusX, focusY, width, height)
      ensures request == if hasTileProvider then Some(RequestFor(State(), width, height)) else None
    {
      ghost var v := State();
      var previousScaleFactor := scaleFactor;
      scaleFactor := scaleFactor * multiplier;
      scaleFactor := Max(MinScale, Min(scaleFactor, MaxScale));
      translateX := ZoomAbout(focusX, translateX, scaleFactor / previousScaleFactor);
      translateY := ZoomAbout(focusY, translateY, scaleFactor / previousScaleFactor);
      assert State() == ScaleAbout(v, multiplier, focusX, focusY) by {
        assert State() == v.(scale := scaleFactor, tx := translateX, ty := translateY);
      }
      request := UpdateMap();
      handled := true;
    }
  }
}
