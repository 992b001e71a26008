/** What a whole stroke does: capture from pointer-down to release, the
    handler call it produces, and replaying the delivered points. */
module StrokeProperties {
  import opened Wrappers
  import opened JsValues
  import opened Geometry
  import opened PathCommands
  import opened CleanTimer
  import opened Whiteboard
  import opened Session

  /** The canvas points of a run of mouse events, in order. */
  function Positions(width: nat, height: nat, es: seq<PointerEvent>): (ps: seq<Point>)
    ensures |ps| == |es|
  {
    if |es| == 0 then []
    else [CursorPosition(es[0].rect, width, height, es[0].clientX, es[0].clientY)]
         + Positions(width, height, es[1..])
  }

  function MovesOf(es: seq<PointerEvent>): (evs: seq<Event>)
    ensures |evs| == |es|
  {
    if |es| == 0 then [] else [Move(es[0])] + MovesOf(es[1..])
  }

  /** What the mouse-move handler emits for each point of a stroke. */
  function LiveSegments(st: Style, ps: seq<Point>): seq<Cmd> {
    if |ps| == 0 then []
    else [ApplyStyle(st), LineTo(Finite(ps[0].x), Finite(ps[0].y)), Stroke] + LiveSegments(st, ps[1..])
  }

  /** A stroke: press, moves, and a release by mouse-up or by leaving the canvas. */
  function StrokeEvents(first: PointerEvent, es: seq<PointerEvent>, release: Event): seq<Event> {
    [Down(first)] + MovesOf(es) + [release]
  }

  /** Moves while the pointer is down append their mapped points, in order,
      to the live buffer and paint one segment each; nothing else changes. */
  lemma {:induction false} MovesExtend(s: Board, es: seq<PointerEvent>)
    requires s.bound && s.pointerDown
    ensures Run(s, MovesOf(es))
            == Effect(s.(buffer := s.buffer + Positions(s.width, s.height, es)),
                      LiveSegments(StyleOf(s.options), Positions(s.width, s.height, es)), [])
    decreases |es|
  {
    if |es| == 0 {
      assert s.buffer + [] == s.buffer;
    } else {
      var p := Position(s, es[0]);
      var s1 := s.(buffer := s.buffer + [p]);
      MovesOfCons(es);
      MoveStep(s, es[0]);
      RunUnfold(s, MovesOf(es));
      MovesExtend(s1, es[1..]);
      MovedPointsCons(s.buffer, StyleOf(s.options), s.width, s.height, es);
    }
  }

  lemma MovesOfCons(es: seq<PointerEvent>)
    requires |es| > 0
    ensures MovesOf(es)[0] == Move(es[0]) && MovesOf(es)[1..] == MovesOf(es[1..])
  {
  }

  /** Splitting off the first move's point and segment. */
  lemma MovedPointsCons(buffer: seq<Point>, st: Style, width: nat, height: nat, es: seq<PointerEvent>)
    requires |es| > 0
    ensures var p := CursorPosition(es[0].rect, width, height, es[0].clientX, es[0].clientY);
            var rest := Positions(width, height, es[1..]);
            && buffer + [p] + rest == buffer + Positions(width, height, es)
            && LiveSegments(st, Positions(width, height, es))
               == [ApplyStyle(st), LineTo(Finite(p.x), Finite(p.y)), Stroke] + LiveSegments(st, rest)
  {
    var all := Positions(width, height, es);
    assert all[1..] == Positions(width, height, es[1..]);
  }

  lemma MoveStep(s: Board, e: PointerEvent)
    requires s.bound && s.pointerDown
    ensures var p := Position(s, e);
            Step(s, Move(e))
            == Effect(s.(buffer := s.buffer + [p]),
                      [ApplyStyle(StyleOf(s.options)), LineTo(Finite(p.x), Finite(p.y)), Stroke], [])
  {
  }

  /** The opening of every stroke: mouse-down on an attached board. */
  lemma PressEffect(s: Board, first: PointerEvent)
    requires s.bound
    ensures var p := Position(s, first);
            Run(s, [Down(first)])
            == Effect(s.(pointerDown := true, buffer := [p]),
                      [ApplyStyle(StyleOf(s.options)), BeginPath, MoveTo(Finite(p.x), Finite(p.y))], [])
  {
    RunUnfold(s, [Down(first)]);
  }

  /** Everything a stroke does up to, but not including, its release. */
  lemma Pressed(s: Board, first: PointerEvent, es: seq<PointerEvent>)
    requires s.bound
    ensures var ps := [Position(s, first)] + Positions(s.width, s.height, es);
            var r := Run(s, [Down(first)] + MovesOf(es));
            && r.board == s.(pointerDown := true, buffer := ps)
            && r.calls == []
            && r.commands == [ApplyStyle(StyleOf(s.options)), BeginPath,
                              MoveTo(Finite(ps[0].x), Finite(ps[0].y))]
                             + LiveSegments(StyleOf(s.options), Positions(s.width, s.height, es))
  {
    var p := Position(s, first);
    RunConcat(s, [Down(first)], MovesOf(es));
    PressEffect(s, first);
    MovesExtend(s.(pointerDown := true, buffer := [p]), es);
  }

  /** A stroke of at least two points, released by mouse-up or mouse-out, is
      delivered to the handler exactly once: all its mapped points in input
      order, with the canvas size and the base stroke style, line width and
      timeout. Afterwards the pointer is up, the buffer empty, and the clean
      timer re-armed from the base timeout. */
  lemma CapturedStroke(s: Board, first: PointerEvent, es: seq<PointerEvent>, release: Event)
    requires s.bound && |es| >= 1
    requires release.Up? || release.Out?
    ensures var ps := [Position(s, first)] + Positions(s.width, s.height, es);
            var r := Run(s, StrokeEvents(first, es, release));
            && |ps| == |es| + 1
            && (s.hasHandler ==> r.calls == [HandlerCall(ps, MetaOf(s))])
            && (!s.hasHandler ==> r.calls == [])
            && r.board == s.(pointerDown := false, buffer := [],
                             timers := Rearm(s.timers, Get(s.options, "timeout")))
  {
    var pressed := [Down(first)] + MovesOf(es);
    RunConcat(s, pressed, [release]);
    Pressed(s, first, es);
    RunUnfold(Run(s, pressed).board, [release]);
  }

  /** Unbinding and binding again keeps the buffer handler, the canvas size
      and the options, so the next stroke is delivered to the same handler
      with the same metadata as on the original board. */
  lemma RebindThenStroke(s: Board, first: PointerEvent, es: seq<PointerEvent>, release: Event)
    requires |es| >= 1
    requires release.Up? || release.Out?
    ensures var b := Run(s, [Unbind, Bind]).board;
            var ps := [Position(s, first)] + Positions(s.width, s.height, es);
            && b == s.(pointerDown := false, buffer := [], bound := true)
            && (s.hasHandler ==>
                  Run(b, StrokeEvents(first, es, release)).calls == [HandlerCall(ps, MetaOf(s))])
  {
    var u := UnbindHandlers(s).board;
    var b := BindHandlers(u).board;
    assert [Unbind, Bind] == [Unbind] + [Bind];
    RunConcat(s, [Unbind], [Bind]);
    assert Run(s, [Unbind, Bind]).board == b;
    CapturedStroke(b, first, es, release);
    assert MetaOf(b) == MetaOf(s);
    assert Position(b, first) == Position(s, first);
  }

  /** Pressing and releasing without moving delivers nothing: the pointer is
      lifted, no path is closed, the timer is untouched and the single point
      stays in the buffer until the next press. */
  lemma SinglePointRelease(s: Board, first: PointerEvent, release: Event)
    requires s.bound
    requires release.Up? || release.Out?
    ensures var p := Position(s, first);
            var r := Run(s, [Down(first), release]);
            && r.calls == []
            && ClosePath !in r.commands
            && r.board == s.(pointerDown := false, buffer := [p])
  {
    var p := Position(s, first);
    var pressed := s.(pointerDown := true, buffer := [p]);
    assert [Down(first), release] == [Down(first)] + [release];
    RunConcat(s, [Down(first)], [release]);
    PressEffect(s, first);
    ShortRelease(pressed, release);
  }

  lemma ShortRelease(s: Board, release: Event)
    requires s.bound && s.pointerDown && |s.buffer| <= 1
    requires release.Up? || release.Out?
    ensures Run(s, [release]) == Quiet(s.(pointerDown := false))
  {
    RunUnfold(s, [release]);
  }

  lemma {:induction false} LiveSegmentsPath(st: Style, ps: seq<Point>)
    ensures PathOnly(LiveSegments(st, ps)) == LineSegments(ps, Some(0), Some(0))
    decreases |ps|
  {
    if |ps| > 0 {
      var head := [ApplyStyle(st), LineTo(Finite(ps[0].x), Finite(ps[0].y)), Stroke];
      PathOnlyConcat(head, LiveSegments(st, ps[1..]));
      PathOnlyOfThree(ApplyStyle(st), LineTo(Finite(ps[0].x), Finite(ps[0].y)), Stroke);
      LiveSegmentsPath(st, ps[1..]);
    }
  }

  lemma PathOnlyOfOne(c: Cmd)
    ensures PathOnly([c]) == if c.ApplyStyle? then [] else [c]
  {
    assert [c][1..] == [];
  }

  lemma PathOnlyOfThree(a: Cmd, b: Cmd, c: Cmd)
    requires a.ApplyStyle? && !b.ApplyStyle? && !c.ApplyStyle?
    ensures PathOnly([a, b, c]) == [b, c]
  {
    assert [a, b, c] == [a] + [b] + [c];
    PathOnlyConcat([a] + [b], [c]);
    PathOnlyConcat([a], [b]);
    PathOnlyOfOne(a);
    PathOnlyOfOne(b);
    PathOnlyOfOne(c);
  }

  /** Draw options that only ask for a zero offset. */
  const ZeroOffsets: Options := map["drawOffsetX" := Number(0.0), "drawOffsetY" := Number(0.0)]

  /** Replaying, with zero offsets right after capture, the points of a
      stroke as they stood when the handler was called draws exactly the live
      path, point for point: the same `beginPath`, `moveTo`, `lineTo`/`stroke`
      pairs and `closePath`, with the same style applied once up front instead
      of before every segment. */
  lemma ReplayRoundTrip(s: Board, first: PointerEvent, es: seq<PointerEvent>, release: Event)
    requires s.bound && s.hasHandler && |es| >= 1
    requires release.Up? || release.Out?
    ensures var live := Run(s, StrokeEvents(first, es, release));
            |live.calls| == 1
            && Draw(live.board, live.calls[0].points, ZeroOffsets).commands
               == [ApplyStyle(StyleOf(s.options))] + PathOnly(live.commands)
  {
    var st := StyleOf(s.options);
    var p := Position(s, first);
    var rest := Positions(s.width, s.height, es);
    CapturedStroke(s, first, es, release);
    LiveLog(s, first, es, release);
    LivePath(st, p, rest);
    var live := Run(s, StrokeEvents(first, es, release));
    var ps := [p] + rest;
    assert ps[0] == p && ps[1..] == rest;
    DrawZero(live.board, ps);
    PrependStyle(ApplyStyle(st), BeginPath, MoveTo(Finite(p.x), Finite(p.y)),
                 LineSegments(rest, Some(0), Some(0)), ClosePath);
  }

  lemma PrependStyle(a: Cmd, b: Cmd, c: Cmd, lines: seq<Cmd>, d: Cmd)
    ensures [a, b, c] + lines + [d] == [a] + ([b, c] + lines + [d])
  {
  }

  /** The commands a stroke of two or more points emits, press to release. */
  lemma LiveLog(s: Board, first: PointerEvent, es: seq<PointerEvent>, release: Event)
    requires s.bound && |es| >= 1
    requires release.Up? || release.Out?
    ensures var p := Position(s, first);
            Run(s, StrokeEvents(first, es, release)).commands
            == [ApplyStyle(StyleOf(s.options)), BeginPath, MoveTo(Finite(p.x), Finite(p.y))]
               + LiveSegments(StyleOf(s.options), Positions(s.width, s.height, es)) + [ClosePath]
  {
    var pressed := [Down(first)] + MovesOf(es);
    RunConcat(s, pressed, [release]);
    Pressed(s, first, es);
    RunUnfold(Run(s, pressed).board, [release]);
  }

  /** The geometry of the live commands of a stroke. */
  lemma LivePath(st: Style, p: Point, rest: seq<Point>)
    ensures PathOnly([ApplyStyle(st), BeginPath, MoveTo(Finite(p.x), Finite(p.y))]
                     + LiveSegments(st, rest) + [ClosePath])
            == [BeginPath, MoveTo(Finite(p.x), Finite(p.y))]
               + LineSegments(rest, Some(0), Some(0)) + [ClosePath]
  {
    var down := [ApplyStyle(st), BeginPath, MoveTo(Finite(p.x), Finite(p.y))];
    var segs := LiveSegments(st, rest);
    PathOnlyConcat(down + segs, [ClosePath]);
    PathOnlyConcat(down, segs);
    PathOnlyOfThree(ApplyStyle(st), BeginPath, MoveTo(Finite(p.x), Finite(p.y)));
    PathOnlyOfOne(ClosePath);
    LiveSegmentsPath(st, rest);
  }

  /** What `draw` with zero offsets emits for a non-empty buffer. */
  lemma DrawZero(s: Board, ps: seq<Point>)
    requires |ps| > 0
    ensures Draw(s, ps, ZeroOffsets).commands
            == [ApplyStyle(StyleOf(s.options)), BeginPath, MoveTo(Finite(ps[0].x), Finite(ps[0].y))]
               + LineSegments(ps[1..], Some(0), Some(0)) + [ClosePath]
  {
    ZeroOffsetsMerge(s.options);
    var path := ReplayPath(ps, Some(0), Some(0));
    assert path == [MoveTo(Finite(ps[0].x), Finite(ps[0].y))] + LineSegments(ps[1..], Some(0), Some(0));
    assert Draw(s, ps, ZeroOffsets).commands == [ApplyStyle(StyleOf(s.options)), BeginPath] + path + [ClosePath];
  }

  /** Merging in ZeroOffsets keeps the style and yields zero offsets. */
  lemma ZeroOffsetsMerge(o: Options)
    ensures var m := Merge(o, ZeroOffsets);
            && Offset(Get(m, "drawOffsetX")) == Some(0)
            && Offset(Get(m, "drawOffsetY")) == Some(0)
            && StyleOf(m) == StyleOf(o)
  {
    var m := Merge(o, ZeroOffsets);
    assert Get(m, "drawOffsetX") == Number(0.0) && Get(m, "drawOffsetY") == Number(0.0);
  }

  /** A timer pending before a replay can no longer clean the canvas after
      it: the replay cancelled it. */
  lemma ReplayCancelsPendingTimer(s: Board, points: seq<Point>, drawOptions: Options, h: nat)
    requires Inv(s) && h in s.timers.pending
    ensures var d := Draw(s, points, drawOptions).board;
            TimerFires(d, h) == Quiet(d)
  {
  }

  /** Calling `clean` twice has exactly the effect of calling it once. */
  lemma CleanIdempotent(s: Board)
    ensures Clean(Clean(s).board) == Clean(s)
  {
  }
}
