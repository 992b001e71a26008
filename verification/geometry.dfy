/** The last step of `getCursorPosition`: a pointer's client coordinates are
    mapped into the canvas's own pixel space through the canvas's
    border-exclusive bounding rectangle. Coordinates are exact reals. */
module Geometry {

  /** A point in canvas pixel space, the entries of a stroke buffer. */
  datatype Point = Point(x: real, y: real)

  /** A bounding rectangle in client (CSS) coordinates. */
  datatype Rect = Rect(left: real, top: real, width: real, height: real)

  /** The paintable interior of a visible canvas, borders already removed. */
  type InnerRect = r: Rect | r.width > 0.0 && r.height > 0.0 witness Rect(0.0, 0.0, 1.0, 1.0)

  /** Client coordinates to canvas pixels: the offset from the interior's
      top-left corner, scaled by canvas pixels per CSS pixel on each axis. */
  function CursorPosition(rect: InnerRect, canvasWidth: nat, canvasHeight: nat,
                          clientX: real, clientY: real): (p: Point)
    ensures p.x * rect.width == (clientX - rect.left) * canvasWidth as real
    ensures p.y * rect.height == (clientY - rect.top) * canvasHeight as real
  {
    Point((clientX - rect.left) * (canvasWidth as real / rect.width),
          (clientY - rect.top) * (canvasHeight as real / rect.height))
  }

  /** The client coordinates that land on canvas pixel `p`: the inverse of
      CursorPosition for a canvas of non-zero size. */
  function ClientPosition(rect: InnerRect, canvasWidth: nat, canvasHeight: nat, p: Point): (c: Point)
    requires canvasWidth > 0 && canvasHeight > 0
  {
    Point(rect.left + p.x * rect.width / canvasWidth as real,
          rect.top + p.y * rect.height / canvasHeight as real)
  }

  /** The interior's top-left corner maps to the canvas origin and its
      bottom-right corner to the canvas's far corner. */
  lemma CornersMap(rect: InnerRect, canvasWidth: nat, canvasHeight: nat)
    ensures CursorPosition(rect, canvasWidth, canvasHeight, rect.left, rect.top) == Point(0.0, 0.0)
    ensures CursorPosition(rect, canvasWidth, canvasHeight, rect.left + rect.width, rect.top + rect.height)
            == Point(canvasWidth as real, canvasHeight as real)
  {
  }

  /** Mapping a client point and mapping it back returns the client point. */
  lemma ClientRoundTrip(rect: InnerRect, canvasWidth: nat, canvasHeight: nat, clientX: real, clientY: real)
    requires canvasWidth > 0 && canvasHeight > 0
    ensures ClientPosition(rect, canvasWidth, canvasHeight,
                           CursorPosition(rect, canvasWidth, canvasHeight, clientX, clientY))
            == Point(clientX, clientY)
  {
    var p := CursorPosition(rect, canvasWidth, canvasHeight, clientX, clientY);
    assert p.x * rect.width / canvasWidth as real == clientX - rect.left;
    assert p.y * rect.height / canvasHeight as real == clientY - rect.top;
  }

  /** Every canvas pixel is reached from exactly the client point ClientPosition gives. */
  lemma CanvasRoundTrip(rect: InnerRect, canvasWidth: nat, canvasHeight: nat, p: Point)
    requires canvasWidth > 0 && canvasHeight > 0
    ensures var c := ClientPosition(rect, canvasWidth, canvasHeight, p);
            CursorPosition(rect, canvasWidth, canvasHeight, c.x, c.y) == p
  {
  }

  /** The mapping keeps the order of points along each axis. */
  lemma MappingMonotone(rect: InnerRect, canvasWidth: nat, canvasHeight: nat,
                        x1: real, y1: real, x2: real, y2: real)
    requires x1 <= x2 && y1 <= y2
    ensures CursorPosition(rect, canvasWidth, canvasHeight, x1, y1).x
            <= CursorPosition(rect, canvasWidth, canvasHeight, x2, y2).x
    ensures CursorPosition(rect, canvasWidth, canvasHeight, x1, y1).y
            <= CursorPosition(rect, canvasWidth, canvasHeight, x2, y2).y
  {
  }
}
