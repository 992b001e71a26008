/** The whiteboard as a functional state machine. A Board holds the merged
    options, the canvas's pixel size, whether mouse handlers are attached,
    the pointer-down flag, the live stroke buffer and the clean-timer
    bookkeeping. Each operation returns an Effect: the next board, the canvas
    commands it issued and the calls it made to the buffer handler. */
module Whiteboard {
  import opened Wrappers
  import opened JsValues
  import opened Geometry
  import opened PathCommands
  import opened CleanTimer

  /** An options object: absent keys read as `undefined`. */
  type Options = map<string, Value>

  function Get(o: Options, key: string): (v: Value)
    ensures key !in o ==> v == Undefined
  {
    if key in o then o[key] else Undefined
  }

  /** The options every whiteboard starts from before the caller's are merged in. */
  const Defaults: Options := map[
    "strokeStyle" := Str("#f00"),
    "lineWidth" := Str("10"),
    "fillStyle" := Str("solid"),
    "lineCap" := Str("round"),
    "lineJoin" := Str("round"),
    "timeout" := Number(20000.0),
    "drawOffsetX" := Number(0.0),
    "drawOffsetY" := Number(0.0),
    "width" := Null,
    "height" := Null
  ]

  /** `Object.assign({}, base, over)`: every key of `over` (even one whose
      value is `undefined`) takes its value from `over`, every other key keeps
      the value in `base`; `base` itself is a value and is not changed. */
  function Merge(base: Options, over: Options): (r: Options)
    ensures r.Keys == base.Keys + over.Keys
    ensures forall k :: k in over ==> Get(r, k) == over[k]
    ensures forall k :: k in base && k !in over ==> Get(r, k) == base[k]
  {
    base + over
  }

  /** What `setCanvasOptions(o)` assigns to the context. */
  function StyleOf(o: Options): Style {
    Style(Get(o, "strokeStyle"), Get(o, "lineWidth"), Get(o, "fillStyle"),
          Get(o, "lineCap"), Get(o, "lineJoin"))
  }

  /** The value of `key` after the draw options are merged over the base
      ones: the draw options' value when they name the key, the base value
      otherwise. */
  function Picked(base: Options, over: Options, key: string): Value {
    if key in over then over[key] else Get(base, key)
  }

  /** The style `draw` applies takes each of the five context properties
      from the draw options when they name it and from the board's options
      otherwise; a property neither names is `undefined`. */
  lemma DrawStyle(base: Options, over: Options)
    ensures var st := StyleOf(Merge(base, over));
            && st.strokeStyle == Picked(base, over, "strokeStyle")
            && st.lineWidth == Picked(base, over, "lineWidth")
            && st.fillStyle == Picked(base, over, "fillStyle")
            && st.lineCap == Picked(base, over, "lineCap")
            && st.lineJoin == Picked(base, over, "lineJoin")
  {
  }

  /** The record handed to the buffer handler with each stroke. */
  datatype Meta = Meta(width: nat, height: nat, strokeStyle: Value, lineWidth: Value, timeout: Value)

  /** One invocation of the buffer handler. */
  datatype HandlerCall = HandlerCall(points: seq<Point>, meta: Meta)

  datatype Board = Board(
    options: Options,
    width: nat,
    height: nat,
    hasHandler: bool,
    bound: bool,
    pointerDown: bool,
    buffer: seq<Point>,
    timers: Timers)

  /** A mouse event: its client coordinates and the canvas's border-exclusive
      rectangle at the time of the event. */
  datatype PointerEvent = PointerEvent(clientX: real, clientY: real, rect: InnerRect)

  datatype Effect = Effect(board: Board, commands: seq<Cmd>, calls: seq<HandlerCall>)

  /** No command, no handler call, board `s`. */
  function Quiet(s: Board): Effect {
    Effect(s, [], [])
  }

  /** What holds of every reachable board: the timer bookkeeping is valid, a
      pressed pointer always has a stroke under way, and a board without
      handlers has no stroke at all. */
  predicate Inv(s: Board) {
    && Valid(s.timers)
    && (s.pointerDown ==> |s.buffer| >= 1)
    && (!s.bound ==> !s.pointerDown && s.buffer == [])
  }

  /** A freshly constructed whiteboard: the caller's options over the
      defaults, handlers attached exactly when a buffer handler was given. */
  function New(userOptions: Options, hasHandler: bool, width: nat, height: nat): (s: Board)
    ensures Inv(s)
    ensures forall k :: k in userOptions ==> Get(s.options, k) == userOptions[k]
    ensures forall k :: k in Defaults && k !in userOptions ==> Get(s.options, k) == Defaults[k]
    ensures s.bound == hasHandler && !s.pointerDown && s.buffer == [] && s.timers.pending == {}
    ensures s.hasHandler == hasHandler && s.width == width && s.height == height
  {
    Board(Merge(Defaults, userOptions), width, height, hasHandler, hasHandler, false, [], Initial)
  }

  /** `getCursorPosition(e)` for this canvas. */
  function Position(s: Board, e: PointerEvent): Point {
    CursorPosition(e.rect, s.width, s.height, e.clientX, e.clientY)
  }

  /** `onmousedown`: a new stroke starts at the mapped point, replacing
      whatever the buffer held; the style is applied before the path begins. */
  function MouseDown(s: Board, e: PointerEvent): (r: Effect)
    ensures !s.bound ==> r == Quiet(s)
    ensures s.bound ==>
      && r.board.pointerDown
      && r.board.buffer == [Position(s, e)]
      && r.board == s.(pointerDown := true, buffer := r.board.buffer)
      && r.calls == []
      && r.commands == [ApplyStyle(StyleOf(s.options)), BeginPath,
                        MoveTo(Finite(Position(s, e).x), Finite(Position(s, e).y))]
    ensures Inv(s) ==> Inv(r.board)
  {
    if !s.bound then Quiet(s)
    else
      var p := Position(s, e);
      Effect(s.(pointerDown := true, buffer := [p]),
             [ApplyStyle(StyleOf(s.options)), BeginPath, MoveTo(Finite(p.x), Finite(p.y))],
             [])
  }

  /** `onmousemove`: while the pointer is down, exactly one mapped point is
      appended and earlier points stay as they were; otherwise nothing happens. */
  function MouseMove(s: Board, e: PointerEvent): (r: Effect)
    ensures !(s.bound && s.pointerDown) ==> r == Quiet(s)
    ensures s.bound && s.pointerDown ==>
      && |r.board.buffer| == |s.buffer| + 1
      && r.board.buffer[..|s.buffer|] == s.buffer
      && r.board.buffer[|s.buffer|] == Position(s, e)
      && r.board == s.(buffer := r.board.buffer)
      && r.calls == []
      && r.commands == [ApplyStyle(StyleOf(s.options)),
                        LineTo(Finite(Position(s, e).x), Finite(Position(s, e).y)), Stroke]
    ensures Inv(s) ==> Inv(r.board)
  {
    if !(s.bound && s.pointerDown) then Quiet(s)
    else
      var p := Position(s, e);
      Effect(s.(buffer := s.buffer + [p]),
             [ApplyStyle(StyleOf(s.options)), LineTo(Finite(p.x), Finite(p.y)), Stroke],
             [])
  }

  /** The metadata sent with a stroke: canvas size and three base options. */
  function MetaOf(s: Board): Meta {
    Meta(s.width, s.height, Get(s.options, "strokeStyle"), Get(s.options, "lineWidth"),
         Get(s.options, "timeout"))
  }

  /** `onmouseup`, also installed as `onmouseout`. A release of a stroke of
      at most one point only lifts the pointer: no `closePath`, no handler
      call, the timer and the buffer stay. A longer stroke is closed, handed
      to the handler (when there is one) exactly once with its points in
      order, the buffer is emptied and the clean timer re-armed from the
      base `timeout`. */
  function MouseUp(s: Board): (r: Effect)
    ensures !(s.bound && s.pointerDown) ==> r == Quiet(s)
    ensures s.bound && s.pointerDown && |s.buffer| <= 1 ==>
      r == Quiet(s.(pointerDown := false))
    ensures s.bound && s.pointerDown && |s.buffer| >= 2 ==>
      && !r.board.pointerDown
      && r.board.buffer == []
      && r.commands == [ClosePath]
      && (s.hasHandler ==> r.calls == [HandlerCall(s.buffer, MetaOf(s))])
      && (!s.hasHandler ==> r.calls == [])
      && r.board.timers == Rearm(s.timers, Get(s.options, "timeout"))
      && r.board == s.(pointerDown := false, buffer := [], timers := r.board.timers)
    ensures Inv(s) ==> Inv(r.board)
  {
    if !(s.bound && s.pointerDown) then Quiet(s)
    else if |s.buffer| <= 1 then Quiet(s.(pointerDown := false))
    else
      var calls := if s.hasHandler then [HandlerCall(s.buffer, MetaOf(s))] else [];
      Effect(s.(pointerDown := false, buffer := [],
                timers := Rearm(s.timers, Get(s.options, "timeout"))),
             [ClosePath], calls)
  }

  /** `bindMouseHandlers`: attaches the four handlers; the pointer flag and
      the buffer are left as they are. */
  function BindHandlers(s: Board): (r: Effect)
    ensures r.board.bound && r.commands == [] && r.calls == []
    ensures r.board == s.(bound := true)
    ensures Inv(s) ==> Inv(r.board)
  {
    Quiet(s.(bound := true))
  }

  /** `unbindMouseHandlers`, from any state: abandons a stroke in progress
      without calling the handler, lifts the pointer and detaches the handlers.
      The buffer handler, the canvas size, the options and the timer stay. */
  function UnbindHandlers(s: Board): (r: Effect)
    ensures !r.board.bound && !r.board.pointerDown && r.board.buffer == []
    ensures r.commands == [] && r.calls == []
    ensures r.board == s.(bound := false, pointerDown := false, buffer := [])
    ensures Inv(s) ==> Inv(r.board)
  {
    Quiet(s.(bound := false, pointerDown := false, buffer := []))
  }

  /** The offset `draw` applies: 0 for a falsy option, otherwise
      `parseInt(v, 10)` (None is `NaN`). */
  function Offset(v: Value): (r: Option<int>)
    ensures !Truthy(v) ==> r == Some(0)
    ensures Truthy(v) ==> r == ParseInt(v)
    ensures v.Number? ==> r.Some?
  {
    if Truthy(v) then ParseInt(v) else Some(0)
  }

  /** An integral number offset is applied as it is. */
  lemma OffsetOfNumber(n: int)
    ensures Offset(Number(n as real)) == Some(n)
  {
  }

  /** An offset given as the decimal text of an integer is that integer. */
  lemma OffsetOfText(n: int)
    ensures Offset(Str(Decimal(n))) == Some(n)
  {
    var text := Decimal(n);
    assert Truthy(Str(text));
    ParseDecimalRoundTrip(n);
  }

  /** `draw(buffer, drawOptions)`: with the draw options merged over the base
      options, applies the merged style, then `beginPath`, `moveTo` the first
      point plus offset, a `lineTo` plus offset and a `stroke` for each later
      point in order, and `closePath`; an empty buffer gives `beginPath` and
      `closePath` only. The timer is re-armed from the merged `timeout`.
      Nothing else on the board changes: not the base options, not the live
      stroke. */
  function Draw(s: Board, buffer: seq<Point>, drawOptions: Options): (r: Effect)
    ensures var o := Merge(s.options, drawOptions);
            var offX := Offset(Get(o, "drawOffsetX"));
            var offY := Offset(Get(o, "drawOffsetY"));
            var cmds := r.commands;
            && r.board == s.(timers := Rearm(s.timers, Get(o, "timeout")))
            && r.calls == []
            && |cmds| >= 3
            && cmds[0] == ApplyStyle(StyleOf(o))
            && cmds[1] == BeginPath
            && cmds[|cmds| - 1] == ClosePath
            && IsReplayOf(cmds[2..|cmds| - 1], buffer, offX, offY)
    ensures Inv(s) ==> Inv(r.board)
  {
    var o := Merge(s.options, drawOptions);
    var offX := Offset(Get(o, "drawOffsetX"));
    var offY := Offset(Get(o, "drawOffsetY"));
    var path := ReplayPath(buffer, offX, offY);
    ReplayPathShape(buffer, offX, offY);
    Effect(s.(timers := Rearm(s.timers, Get(o, "timeout"))),
           [ApplyStyle(StyleOf(o)), BeginPath] + path + [ClosePath],
           [])
  }

  /** `clean`: the whole canvas is cleared and no clean timer is left
      pending or remembered. */
  function Clean(s: Board): (r: Effect)
    ensures r.commands == [ClearRect(s.width, s.height)] && r.calls == []
    ensures r.board == s.(timers := r.board.timers) && r.board.timers.handle.None?
    ensures Inv(s) ==> Inv(r.board) && r.board.timers.pending == {}
  {
    Effect(s.(timers := Clear(s.timers)), [ClearRect(s.width, s.height)], [])
  }

  /** The callback of a pending clean timer runs `clean`, which touches only
      the canvas and the timer: a stroke in progress, the handlers and the
      options survive it. A cancelled or already fired handle does nothing. */
  function TimerFires(s: Board, h: nat): (r: Effect)
    ensures h !in s.timers.pending ==> r == Quiet(s)
    ensures h in s.timers.pending ==>
      && r.commands == [ClearRect(s.width, s.height)] && r.calls == []
      && r.board.timers.handle.None?
      && r.board == s.(timers := r.board.timers)
      && (Inv(s) ==> r.board.timers.pending == {})
    ensures Inv(s) ==> Inv(r.board)
  {
    if h in s.timers.pending then Clean(s.(timers := Fired(s.timers, h))) else Quiet(s)
  }
}
