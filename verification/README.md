# Canvas whiteboard: stroke capture, replay and auto-clear

This project models the core of `whiteboard.js`, a browser widget for free-hand drawing on an HTML canvas, and proves properties of that model in Dafny 4.11. The widget turns mouse events into strokes, which are ordered buffers of canvas points. A finished stroke is handed to an external buffer handler together with a small metadata record. The `draw` method replays a buffer onto the canvas, and a single clean timer erases the canvas some time after the last stroke or replay.

The model is a functional state machine. A `Board` holds:
- the merged options;
- the canvas's pixel size;
- whether the mouse handlers are attached;
- the pointer-down flag;
- the live stroke buffer;
- the clean-timer bookkeeping.

Each operation (`MouseDown`, `MouseMove`, `MouseUp`, which also serves as mouse-out, `BindHandlers`, `UnbindHandlers`, `Draw`, `Clean` and `TimerFires`) returns an `Effect`. An `Effect` holds the next board, the 2D-context commands issued (`ApplyStyle`, `BeginPath`, `MoveTo`, `LineTo`, `Stroke`, `ClosePath`, `ClearRect`) and the handler calls made. `Session.Run` processes a sequence of events in arrival order.

Modules:
- `wrappers.dfy` (`Wrappers`): `Option`.
- `values.dfy` (`JsValues`): JavaScript option values, truthiness, and `parseInt(v, 10)`. A `None` result stands for `NaN`.
- `geometry.dfy` (`Geometry`): the mapping from client coordinates to canvas pixels at the end of `getCursorPosition`.
- `commands.dfy` (`PathCommands`): the command vocabulary and the path `draw` builds.
- `timers.dfy` (`CleanTimer`): the `cleanTimer` bookkeeping.
  - The remembered handle may be stale, because `clearTimeout` does not null it.
  - The set of pending timers is tracked separately.
  - Handles are issued from 1 upward, so a remembered handle is always truthy.
- `whiteboard.dfy` (`Whiteboard`): the board and its operations.
- `session.dfy` (`Session`): events, `Step`, `Run`, and the properties of event sequences.
- `stroke_properties.dfy` (`StrokeProperties`): whole-stroke properties (capture, release, replay round trip).

Three behaviours of the code are easy to miss; the model follows the code:
- `draw` with an empty buffer is not a no-op. It still emits `beginPath`/`closePath` and re-arms the timer.
- The handler receives the live buffer array, not a copy. The model records the buffer's value at the moment of the call.
- `draw` never resizes the canvas.

The minimum stroke length that reaches the handler is 2.

## Model

| member | source | states |
|---|---|---|
| Geometry.CursorPosition | whiteboard.js:208-211 | the mapped point times the interior's CSS size equals the client offset from the interior's top-left corner times the canvas's pixel size, on each axis |
| Geometry.CornersMap | whiteboard.js:208-211 | the interior's top-left corner maps to (0, 0) and its bottom-right corner to (canvas width, canvas height) |
| Geometry.ClientRoundTrip | whiteboard.js:208-211 | for a canvas of non-zero size, mapping a client point and inverting the mapping returns the client point |
| Geometry.CanvasRoundTrip | whiteboard.js:208-211 | every canvas pixel is the image of exactly the client point the inverse gives |
| Geometry.MappingMonotone | whiteboard.js:208-211 | the mapping preserves order along each axis |
| JsValues.Truthy | whiteboard.js:148-149 | JavaScript truthiness as `draw` and the release handler test it: `undefined`, `null`, `false`, `0` and the empty string are falsy, everything else truthy |
| Whiteboard.StyleOf | whiteboard.js:64-70 | the five context properties `setCanvasOptions` assigns, each read from the options |
| JsValues.Trunc | whiteboard.js:148-149 | `parseInt` of a number rounds toward zero: the result is within one of the number, on the side of zero |
| JsValues.ParseDecimalRoundTrip | whiteboard.js:148-149 | `parseInt(String(n), 10)` gives back every integer `n`, negative ones included |
| JsValues.ParseInt | whiteboard.js:148-149 | a number never parses to `NaN`; `undefined`, `null`, the booleans and the empty string always do |
| JsValues.ParsePrefix | whiteboard.js:148-149 | the decimal text of any integer, followed by text that does not start with a digit (such as `px`), parses to that integer |
| JsValues.ParseSkipsWhiteSpace | whiteboard.js:148-149 | a leading white-space character does not change the result |
| JsValues.ParseNoLeadingDigit | whiteboard.js:148-149 | text starting with a character that is neither white space, a sign nor a digit gives `NaN` |
| JsValues.ParseSignWithoutDigit | whiteboard.js:148-149 | a sign not followed by a digit gives `NaN` |
| Whiteboard.Offset | whiteboard.js:148-149 | a falsy offset option gives offset 0; a truthy one gives `parseInt(v, 10)`, which for a numeric option is always a number, never `NaN` |
| Whiteboard.OffsetOfNumber | whiteboard.js:148-149 | an integral number offset is applied unchanged |
| Whiteboard.OffsetOfText | whiteboard.js:148-149 | an offset given as the decimal text of an integer is that integer |
| PathCommands.Shift | whiteboard.js:155-159 | a shifted coordinate is `NaN` exactly when the offset did not parse, and otherwise differs from the point by the offset |
| PathCommands.ReplayPathShape | whiteboard.js:151-161 | the loop emits a `moveTo` for the first point, then a `lineTo`/`stroke` pair for each later point, in buffer order; an empty buffer emits no path command |
| Whiteboard.DrawStyle | whiteboard.js:64-70 | the five context properties `draw` sets each come from the draw options when they name it, and from the board's options otherwise |
| Whiteboard.Merge | whiteboard.js:144 | every key of the draw options overrides, even one set to `undefined`; other keys keep their base value; the keys are the union of both |
| Whiteboard.New | whiteboard.js:13-30 | the caller's options override the defaults key by key; handlers are attached exactly when a handler was given; the handler and the canvas size are kept as given; no stroke and no timer is pending; the board invariant holds |
| Whiteboard.MouseDown | whiteboard.js:74-86 | on an attached board, the pointer goes down and the buffer becomes exactly the one mapped point; the style is applied before `beginPath`/`moveTo`; nothing else changes; a detached board ignores the event |
| Whiteboard.MouseMove | whiteboard.js:88-102 | with the pointer down, exactly one mapped point is appended and the earlier points are unchanged, with one `lineTo`/`stroke`; otherwise neither the board nor the command log changes |
| Whiteboard.MouseUp | whiteboard.js:104-128 | a release of at most one point only lifts the pointer: no `closePath`, no handler call, timer and buffer untouched. A longer stroke is closed and delivered once with its points and metadata; the buffer is emptied and the timer re-armed from the base timeout |
| Whiteboard.BindHandlers | whiteboard.js:72-131 | attaching the handlers changes nothing else and emits nothing |
| Whiteboard.UnbindHandlers | whiteboard.js:133-141 | from any state, the buffer is emptied, the pointer lifted and the handlers detached, with no handler call and no command; everything else (handler, canvas size, options, timer) is untouched |
| Whiteboard.Draw | whiteboard.js:143-169 | the merged style is applied, then `beginPath`, the replay path of the buffer shifted by the merged offsets, and `closePath`; the timer is re-armed from the merged timeout; base options and live stroke are unchanged; no handler call |
| Whiteboard.Clean | whiteboard.js:171-176 | the whole canvas is cleared; afterwards no timer is pending or remembered; nothing else changes |
| Whiteboard.TimerFires | whiteboard.js:126 | a pending timer's callback clears the canvas and leaves no timer pending, and changes nothing else on the board, so a stroke in progress survives it; a cancelled or already fired handle does nothing |
| CleanTimer.Cancel | whiteboard.js:164 | `clearTimeout` removes the remembered timer from the pending set and keeps the remembered handle |
| CleanTimer.Rearm | whiteboard.js:164-168 | after re-arming, exactly the new timer is pending when the timeout is truthy, and none otherwise |
| CleanTimer.Clear | whiteboard.js:174-175 | after `clean`, no timer is pending and none is remembered |
| CleanTimer.Fired | whiteboard.js:126 | a timer that went off is no longer pending |
| CleanTimer.AtMostOnePending | whiteboard.js:125-126 | the timer invariant allows at most one pending timer |
| CleanTimer.Debounce | whiteboard.js:164-168 | re-arming twice leaves only the second timer pending, so the first can never fire |
| CleanTimer.ClearIdempotent | whiteboard.js:171-176 | clearing the timer twice is clearing it once |
| Session.Step | whiteboard.js:130 | every event, mouse-out included (it runs the mouse-up handler), preserves the board invariant |
| Session.Run | whiteboard.js:72-176 | every board reachable by any event sequence satisfies the invariant: a valid timer state, a pressed pointer always has a stroke, a detached board has none |
| Session.OneTimerPending | whiteboard.js:125-126 | whatever events arrive, at most one clean timer is ever pending |
| Session.DetachedIgnoresMouse | whiteboard.js:137-140 | on a detached board, any sequence of mouse events changes nothing and emits nothing |
| Session.UnbindThenMouse | whiteboard.js:133-141 | after unbinding, even mid-stroke, the stroke is abandoned undelivered and no later mouse event has any effect |
| StrokeProperties.MovesExtend | whiteboard.js:88-101 | moves with the pointer down append their mapped points in order and paint one segment each; no handler call, nothing else changes |
| StrokeProperties.Pressed | whiteboard.js:74-101 | a press followed by moves leaves the pointer down and the buffer holding all mapped points in input order |
| StrokeProperties.CapturedStroke | whiteboard.js:104-128 | a press, at least one move and a release deliver exactly one handler call: all mapped points in order, plus canvas size, base stroke style, line width and timeout. Then the pointer is up, the buffer empty and the timer re-armed |
| StrokeProperties.RebindThenStroke | whiteboard.js:72-141 | unbinding and binding again only lifts the pointer and empties the buffer; the next stroke reaches the same handler with the same points and metadata as on the original board |
| StrokeProperties.SinglePointRelease | whiteboard.js:106-109 | press then release (mouse-up or mouse-out) calls no handler, emits no `closePath`, leaves the timer alone and keeps the point in the buffer |
| StrokeProperties.LiveLog | whiteboard.js:81-111 | the commands a captured stroke emits from press to release: style, `beginPath`, `moveTo`, one styled `lineTo`/`stroke` per move, `closePath` |
| StrokeProperties.ReplayRoundTrip | whiteboard.js:151-162 | replaying with zero offsets the points as they stood when the handler was called reproduces the live path point for point, with the same style applied once up front |
| StrokeProperties.DrawZero | whiteboard.js:148-162 | zero offsets replay every point at its own coordinates |
| StrokeProperties.ReplayCancelsPendingTimer | whiteboard.js:164-168 | a timer pending before a replay can no longer clean the canvas after it |
| StrokeProperties.CleanIdempotent | whiteboard.js:171-176 | calling `clean` twice has exactly the effect of calling it once |

## Left out

- Construction and `init` (whiteboard.js:10-62) are left out: DOM lookup, canvas creation, context creation and the resize to the `width`/`height` options. `New` takes the canvas's pixel size as given. The guard at whiteboard.js:36 joins its tests with `||`, so a missing canvas raises a `TypeError` rather than the intended error. No fail-fast property is claimed.
- Border parsing and the `DOMRect` adjustments (whiteboard.js:179-200) are left out. The model takes the border-exclusive rectangle as an input, which is what the code computes. On the `DOMRect` that `getBoundingClientRect` returns, `x`, `y`, `width` and `height` are writable, so the assignments at whiteboard.js:191-192 and 199-200 take effect. `top`, `right`, `bottom` and `left` are getters derived from those. In this non-strict script the assignments at whiteboard.js:194-197 are silently ignored, `left -= leftBorder` included, and `left` and `top` read the updated `x` and `y`.
- `InnerRect` admits only rectangles of positive width and height. For a zero-size canvas the code divides by zero and pushes non-finite coordinates, and the model does not represent those.
- What `setCanvasOptions`, `stroke` and `clearRect` paint is left out. Only the commands are recorded.
- Real timers are left out. `setTimeout` delays, wall-clock deadlines and the coercion of the timeout to a delay are not modelled; only the handles and the pending set are kept.
- Numbers are exact reals. Floating-point rounding, `NaN` and infinities as option values are left out.
- JsValues.Trunc: for numbers whose text uses exponent notation (magnitude at least 1e21 or below 1e-6), `parseInt` reads that text instead. The model rounds toward zero throughout. Precision loss on very long digit strings is also not modelled.
- JsValues.ParseDecimal skips only the ASCII white-space characters, no-break space and the byte-order mark. It does not skip the other Unicode space separators or the line terminators U+2028 and U+2029, which `parseInt` also skips.
- Option values that are objects, arrays or functions are left out.
- The handler receives the live `drawBuffer` array, which is then truncated in place. The model records the buffer's value at the moment of the call. It does not claim the handler gets an independent copy.
- The handler's return value and any exception it throws are left out.
- The handler runs synchronously inside the release (whiteboard.js:114), before the buffer is truncated and the timer re-armed (whiteboard.js:123-126). A handler that calls `draw`, `clean` or `unbindMouseHandlers` from inside that call interleaves with the release. The model records the call as a single `HandlerCall` entry and cannot represent such re-entrant calls.
- StrokeProperties.ReplayRoundTrip: the lemma replays the points as they stood when the handler was called. A handler that keeps the array itself sees it emptied by the truncation at whiteboard.js:123, and replaying that array emits only `beginPath` and `closePath`.
- `console` logging, `preventDefault` and the `this`-binding of the event closures are left out.
