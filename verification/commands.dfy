/** The drawing commands the whiteboard issues to its 2D canvas context,
    recorded rather than painted, and the path `draw` builds from a buffer. */
module PathCommands {
  import opened Wrappers
  import opened JsValues
  import opened Geometry

  /** A coordinate handed to `moveTo`/`lineTo`: a number, or `NaN` when an
      offset did not parse. */
  datatype Coord = Finite(r: real) | NaN

  /** The five context attributes `setCanvasOptions` assigns. */
  datatype Style = Style(strokeStyle: Value, lineWidth: Value, fillStyle: Value,
                         lineCap: Value, lineJoin: Value)

  datatype Cmd =
    | ApplyStyle(style: Style)
    | BeginPath
    | MoveTo(x: Coord, y: Coord)
    | LineTo(x: Coord, y: Coord)
    | Stroke
    | ClosePath
    | ClearRect(width: nat, height: nat)

  /** `x + off`, where `off` is the result of `parseInt` (None is `NaN`). */
  function Shift(x: real, off: Option<int>): (c: Coord)
    ensures off.None? <==> c.NaN?
    ensures off.Some? ==> c.r - x == off.value as real
  {
    match off
    case Some(k) => Finite(x + k as real)
    case None => NaN
  }

  function MoveToPoint(p: Point, offX: Option<int>, offY: Option<int>): Cmd {
    MoveTo(Shift(p.x, offX), Shift(p.y, offY))
  }

  function LineToPoint(p: Point, offX: Option<int>, offY: Option<int>): Cmd {
    LineTo(Shift(p.x, offX), Shift(p.y, offY))
  }

  /** One `lineTo` and one `stroke` per point, in order. */
  function LineSegments(points: seq<Point>, offX: Option<int>, offY: Option<int>): seq<Cmd> {
    if |points| == 0 then []
    else [LineToPoint(points[0], offX, offY), Stroke] + LineSegments(points[1..], offX, offY)
  }

  /** What the loop in `draw` emits between `beginPath` and `closePath`:
      `moveTo` the first point, then `lineTo` + `stroke` for each later one. */
  function ReplayPath(buffer: seq<Point>, offX: Option<int>, offY: Option<int>): seq<Cmd> {
    if |buffer| == 0 then []
    else [MoveToPoint(buffer[0], offX, offY)] + LineSegments(buffer[1..], offX, offY)
  }

  lemma {:induction false} LineSegmentsShape(points: seq<Point>, offX: Option<int>, offY: Option<int>)
    ensures var cmds := LineSegments(points, offX, offY);
            && |cmds| == 2 * |points|
            && forall k :: 0 <= k < |points| ==>
                 cmds[2 * k] == LineToPoint(points[k], offX, offY) && cmds[2 * k + 1] == Stroke
  {
    if |points| > 0 {
      LineSegmentsShape(points[1..], offX, offY);
      var cmds := LineSegments(points, offX, offY);
      var rest := LineSegments(points[1..], offX, offY);
      assert cmds == [LineToPoint(points[0], offX, offY), Stroke] + rest;
      forall k | 1 <= k < |points|
        ensures cmds[2 * k] == LineToPoint(points[k], offX, offY) && cmds[2 * k + 1] == Stroke
      {
        assert cmds[2 * k] == rest[2 * (k - 1)];
        assert cmds[2 * k + 1] == rest[2 * (k - 1) + 1];
        assert points[1..][k - 1] == points[k];
      }
    }
  }

  /** `path` draws `buffer` shifted by the offsets: one `moveTo` for the
      first point and a `lineTo`/`stroke` pair for every later point, in
      buffer order; nothing at all for an empty buffer. */
  predicate IsReplayOf(path: seq<Cmd>, buffer: seq<Point>, offX: Option<int>, offY: Option<int>) {
    && (|buffer| == 0 ==> path == [])
    && (|buffer| > 0 ==>
          && |path| == 2 * |buffer| - 1
          && path[0] == MoveToPoint(buffer[0], offX, offY)
          && forall k :: 1 <= k < |buffer| ==>
               path[2 * k - 1] == LineToPoint(buffer[k], offX, offY) && path[2 * k] == Stroke)
  }

  /** The path `draw` builds is the replay of its buffer. */
  lemma ReplayPathShape(buffer: seq<Point>, offX: Option<int>, offY: Option<int>)
    ensures IsReplayOf(ReplayPath(buffer, offX, offY), buffer, offX, offY)
  {
    if |buffer| > 0 {
      var cmds := ReplayPath(buffer, offX, offY);
      var rest := LineSegments(buffer[1..], offX, offY);
      LineSegmentsShape(buffer[1..], offX, offY);
      forall k | 1 <= k < |buffer|
        ensures cmds[2 * k - 1] == LineToPoint(buffer[k], offX, offY) && cmds[2 * k] == Stroke
      {
        assert cmds[2 * k - 1] == rest[2 * (k - 1)];
        assert cmds[2 * k] == rest[2 * (k - 1) + 1];
        assert buffer[1..][k - 1] == buffer[k];
      }
    }
  }

  /** The path geometry of a command log: every command except the style
      assignments, which draw nothing. */
  function PathOnly(cmds: seq<Cmd>): (r: seq<Cmd>)
    ensures |r| <= |cmds|
    ensures forall i :: 0 <= i < |r| ==> !r[i].ApplyStyle?
  {
    if |cmds| == 0 then []
    else (if cmds[0].ApplyStyle? then [] else [cmds[0]]) + PathOnly(cmds[1..])
  }

  lemma {:induction false} PathOnlyConcat(a: seq<Cmd>, b: seq<Cmd>)
    ensures PathOnly(a + b) == PathOnly(a) + PathOnly(b)
  {
    if |a| > 0 {
      assert (a + b)[1..] == a[1..] + b;
      PathOnlyConcat(a[1..], b);
    } else {
      assert a + b == b;
    }
  }
}
