/**
 * The viewport placement of `Qgs3DAxisRenderView`: the axis is drawn in a square of
 * `axisViewportSize` pixels, expressed as a rectangle normalised to the window, anchored at the
 * beginning, the middle or the end of each direction. The ratios are floating-point quotients, so
 * a window of zero width or height gives infinite or NaN ratios rather than an error.
 */
module AxisRenderView {
  import opened AxisSettings

  /** A `float` as far as these quotients go: a finite value, an infinity, or NaN. */
  datatype Float = Finite(v: real) | PlusInf | MinusInf | NaN

  /** `(float) n / d`: the exact quotient, and for a zero divisor the IEEE infinity of n's sign, or NaN for 0 / 0. */
  function Divide(n: int, d: int): (q: Float)
    ensures d != 0 ==> q.Finite? && q.v * d as real == n as real
    ensures d == 0 ==> (q == PlusInf <==> n > 0) && (q == MinusInf <==> n < 0) && (q == NaN <==> n == 0)
  {
    if d != 0 then Finite(n as real / d as real)
    else if n > 0 then PlusInf
    else if n < 0 then MinusInf
    else NaN
  }

  /** `a - b` for a finite `a`. */
  function Minus(a: real, b: Float): (r: Float)
    ensures b.Finite? ==> r == Finite(a - b.v)
    ensures b == PlusInf <==> r == MinusInf
    ensures b == MinusInf <==> r == PlusInf
    ensures b == NaN <==> r == NaN
  {
    match b
    case Finite(x) => Finite(a - x)
    case PlusInf => MinusInf
    case MinusInf => PlusInf
    case NaN => NaN
  }

  /** `b / 2.0`. */
  function Half(b: Float): (r: Float)
    ensures b.Finite? ==> r == Finite(b.v / 2.0)
    ensures !b.Finite? ==> r == b
  {
    if b.Finite? then Finite(b.v / 2.0) else b
  }

  /** `QRectF(x, y, width, height)` in normalised window coordinates. */
  datatype RectF = RectF(x: Float, y: Float, width: Float, height: Float)

  /** Where the viewport starts along one direction, given its normalised extent `ratio`. */
  function Origin(position: AxisViewportPosition, ratio: Float): (origin: Float)
    ensures position == Begin ==> origin == Finite(0.0)
    ensures position == Middle && ratio.Finite? ==> origin.Finite? && origin.v + ratio.v / 2.0 == 0.5
    ensures position == End && ratio.Finite? ==> origin.Finite? && origin.v + ratio.v == 1.0
    ensures position != Begin && !ratio.Finite? ==>
      (origin == NaN <==> ratio == NaN) && (origin == MinusInf <==> ratio == PlusInf)
  {
    if position == Begin then Finite(0.0)
    else if position == Middle then Minus(0.5, Half(ratio))
    else Minus(1.0, ratio)
  }

  /** `onAxisViewportSizeUpdate`: the normalised rectangle for the stored size and anchors. */
  function ViewportRect(size: int, windowWidth: int, windowHeight: int,
                        vertical: AxisViewportPosition, horizontal: AxisViewportPosition): (r: RectF)
    ensures windowWidth != 0 ==> r.width.Finite? && r.width.v * windowWidth as real == size as real
    ensures windowHeight != 0 ==> r.height.Finite? && r.height.v * windowHeight as real == size as real
    ensures r.width == Divide(size, windowWidth) && r.height == Divide(size, windowHeight)
    ensures r.x == Origin(horizontal, r.width) && r.y == Origin(vertical, r.height)
  {
    var widthRatio := Divide(size, windowWidth);
    var heightRatio := Divide(size, windowHeight);
    RectF(Origin(horizontal, widthRatio), Origin(vertical, heightRatio), widthRatio, heightRatio)
  }

  /**
   * In a window of zero width, a positive size gives an infinite width ratio and, unless the
   * viewport is anchored at the beginning, an origin at minus infinity; a zero size gives NaN.
   */
  lemma ZeroWidthViewport(size: int, windowHeight: int, vertical: AxisViewportPosition, horizontal: AxisViewportPosition)
    ensures var r := ViewportRect(size, 0, windowHeight, vertical, horizontal);
      && (size > 0 ==> r.width == PlusInf && (horizontal != Begin ==> r.x == MinusInf))
      && (size == 0 ==> r.width == NaN && (horizontal != Begin ==> r.x == NaN))
      && (horizontal == Begin ==> r.x == Finite(0.0))
  {
  }

  /** A viewport no larger than the window lies inside it, whatever the anchors. */
  lemma ViewportInsideWindow(size: int, windowWidth: int, windowHeight: int,
                             vertical: AxisViewportPosition, horizontal: AxisViewportPosition)
    requires windowWidth > 0 && windowHeight > 0
    requires 0 <= size <= windowWidth && size <= windowHeight
    ensures var r := ViewportRect(size, windowWidth, windowHeight, vertical, horizontal);
      && r.x.Finite? && r.y.Finite? && r.width.Finite? && r.height.Finite?
      && 0.0 <= r.x.v && r.x.v + r.width.v <= 1.0 && 0.0 <= r.y.v && r.y.v + r.height.v <= 1.0
  {
    var r := ViewportRect(size, windowWidth, windowHeight, vertical, horizontal);
    RatioAtMostOne(size, windowWidth);
    RatioAtMostOne(size, windowHeight);
    assert 0.0 <= r.width.v <= 1.0 && 0.0 <= r.height.v <= 1.0;
  }

  lemma RatioAtMostOne(size: int, extent: int)
    requires 0 <= size <= extent && extent > 0
    ensures 0.0 <= size as real / extent as real <= 1.0
  {
  }

  /** The window the view lives in: only its size, which may be zero, matters here. */
  class Window {
    var width: int
    var height: int
    /** How many times `requestUpdate()` was called. */
    var updateRequests: nat

    constructor (width: int, height: int)
      ensures this.width == width && this.height == height && updateRequests == 0
    {
      this.width := width;
      this.height := height;
      updateRequests := 0;
    }
  }

  class Qgs3DAxisRenderView {
    const parentWindow: Window
    var axisViewportSize: int
    var vertPos: AxisViewportPosition
    var horizPos: AxisViewportPosition
    /** The normalised rectangle of `mAxisViewport`. */
    var viewportRect: RectF
    /** The axis settings held by the map settings the view was given. */
    var mapAxisSettings: AxisValues

    /**
     * The constructor places the viewport from the map's axis settings. The initial
     * `mAxisViewportSize` is declared in a header that is not part of this model, so it is a
     * parameter.
     */
    constructor (parentWindow: Window, settings: AxisValues, initialSize: int)
      modifies parentWindow
      ensures this.parentWindow == parentWindow
      ensures axisViewportSize == initialSize
      ensures vertPos == settings.vertical && horizPos == settings.horizontal
      ensures mapAxisSettings == settings
      ensures viewportRect == ViewportRect(initialSize, parentWindow.width, parentWindow.height,
                                           settings.vertical, settings.horizontal)
    {
      this.parentWindow := parentWindow;
      mapAxisSettings := settings;
      axisViewportSize := initialSize;
      vertPos := settings.vertical;
      horizPos := settings.horizontal;
      viewportRect := RectF(Finite(0.0), Finite(0.0), Finite(0.0), Finite(0.0));
      new;
      SetAxisViewportPosition(initialSize, settings.vertical, settings.horizontal);
    }

    /** `onAxisViewportSizeUpdate`: recomputes the rectangle from the stored size and anchors. */
    method OnAxisViewportSizeUpdate()
      modifies this`viewportRect
      ensures viewportRect == ViewportRect(axisViewportSize, parentWindow.width, parentWindow.height, vertPos, horizPos)
    {
      var widthRatio := Divide(axisViewportSize, parentWindow.width);
      var heightRatio := Divide(axisViewportSize, parentWindow.height);
      var xRatio: Float;
      var yRatio: Float;
      if horizPos == Begin {
        xRatio := Finite(0.0);
      } else if horizPos == Middle {
        xRatio := Minus(0.5, Half(widthRatio));
      } else {
        xRatio := Minus(1.0, widthRatio);
      }
      if vertPos == Begin {
        yRatio := Finite(0.0);
      } else if vertPos == Middle {
        yRatio := Minus(0.5, Half(heightRatio));
      } else {
        yRatio := Minus(1.0, heightRatio);
      }
      viewportRect := RectF(xRatio, yRatio, widthRatio, heightRatio);
    }

    /** `setAxisViewportPosition`: stores the three values, recomputes, requests a repaint. */
    method SetAxisViewportPosition(size: int, vertical: AxisViewportPosition, horizontal: AxisViewportPosition)
      modifies this, parentWindow`updateRequests
      ensures axisViewportSize == size && vertPos == vertical && horizPos == horizontal
      ensures mapAxisSettings == old(mapAxisSettings)
      ensures viewportRect == ViewportRect(size, parentWindow.width, parentWindow.height, vertical, horizontal)
      ensures parentWindow.updateRequests == old(parentWindow.updateRequests) + 1
    {
      axisViewportSize := size;
      vertPos := vertical;
      horizPos := horizontal;
      OnAxisViewportSizeUpdate();
      parentWindow.updateRequests := parentWindow.updateRequests + 1;
    }

    /** `onAxisHorizPositionChanged`: the size and vertical anchor stay; the map settings follow. */
    method OnAxisHorizPositionChanged(position: AxisViewportPosition)
      modifies this, parentWindow`updateRequests
      ensures axisViewportSize == old(axisViewportSize) && vertPos == old(vertPos) && horizPos == position
      ensures mapAxisSettings == old(mapAxisSettings).(horizontal := position)
      ensures viewportRect == ViewportRect(axisViewportSize, parentWindow.width, parentWindow.height, vertPos, position)
    {
      SetAxisViewportPosition(axisViewportSize, vertPos, position);
      var s := mapAxisSettings;
      s := s.(horizontal := position);
      mapAxisSettings := s;
    }

    /** `onAxisVertPositionChanged`: the size and horizontal anchor stay; the map settings follow. */
    method OnAxisVertPositionChanged(position: AxisViewportPosition)
      modifies this, parentWindow`updateRequests
      ensures axisViewportSize == old(axisViewportSize) && horizPos == old(horizPos) && vertPos == position
      ensures mapAxisSettings == old(mapAxisSettings).(vertical := position)
      ensures viewportRect == ViewportRect(axisViewportSize, parentWindow.width, parentWindow.height, position, horizPos)
    {
      SetAxisViewportPosition(axisViewportSize, position, horizPos);
      var s := mapAxisSettings;
      s := s.(vertical := position);
      mapAxisSettings := s;
    }
  }
}
