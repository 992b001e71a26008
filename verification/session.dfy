/** Sequences of events delivered to one whiteboard, in arrival order: the
    mouse events the attached handlers receive, calls of the public methods,
    and clean timers going off. */
module Session {
  import opened Geometry
  import opened PathCommands
  import opened CleanTimer
  import opened Whiteboard

  datatype Event =
    | Down(e: PointerEvent)
    | Move(e: PointerEvent)
    | Up
    | Out
    | Replay(points: seq<Point>, drawOptions: Options)
    | Wipe
    | Fire(handle: nat)
    | Bind
    | Unbind

  predicate IsMouse(ev: Event) {
    ev.Down? || ev.Move? || ev.Up? || ev.Out?
  }

  /** One event; `mouseout` runs the very same handler as `mouseup`. */
  function Step(s: Board, ev: Event): (r: Effect)
    ensures Inv(s) ==> Inv(r.board)
  {
    match ev
    case Down(e) => MouseDown(s, e)
    case Move(e) => MouseMove(s, e)
    case Up => MouseUp(s)
    case Out => MouseUp(s)
    case Replay(points, o) => Draw(s, points, o)
    case Wipe => Clean(s)
    case Fire(h) => TimerFires(s, h)
    case Bind => BindHandlers(s)
    case Unbind => UnbindHandlers(s)
  }

  /** The effect of `first` followed by the effect of `second` on its board. */
  function Then(first: Effect, second: Effect): Effect {
    Effect(second.board, first.commands + second.commands, first.calls + second.calls)
  }

  /** Events processed one after another; the logs are concatenated. Every
      board reachable from a board satisfying Inv satisfies it too. */
  function Run(s: Board, evs: seq<Event>): (r: Effect)
    ensures Inv(s) ==> Inv(r.board)
    decreases |evs|
  {
    if |evs| == 0 then Quiet(s)
    else
      var first := Step(s, evs[0]);
      Then(first, Run(first.board, evs[1..]))
  }

  lemma {:induction false} RunConcat(s: Board, a: seq<Event>, b: seq<Event>)
    ensures Run(s, a + b) == Then(Run(s, a), Run(Run(s, a).board, b))
    decreases |a|
  {
    if |a| == 0 {
      assert a + b == b;
    } else {
      var first := Step(s, a[0]);
      assert (a + b)[0] == a[0] && (a + b)[1..] == a[1..] + b;
      RunUnfold(s, a);
      RunUnfold(s, a + b);
      RunConcat(first.board, a[1..], b);
      var ra := Run(first.board, a[1..]);
      ThenAssoc(first, ra, Run(ra.board, b));
    }
  }

  lemma RunUnfold(s: Board, evs: seq<Event>)
    requires |evs| > 0
    ensures Run(s, evs) == Then(Step(s, evs[0]), Run(Step(s, evs[0]).board, evs[1..]))
  {
  }

  lemma ThenAssoc(x: Effect, y: Effect, z: Effect)
    ensures Then(x, Then(y, z)) == Then(Then(x, y), z)
  {
    assert x.commands + (y.commands + z.commands) == (x.commands + y.commands) + z.commands;
    assert x.calls + (y.calls + z.calls) == (x.calls + y.calls) + z.calls;
  }

  /** Whatever events arrive, at most one clean timer is ever pending. */
  lemma OneTimerPending(s: Board, evs: seq<Event>)
    requires Inv(s)
    ensures |Run(s, evs).board.timers.pending| <= 1
  {
    AtMostOnePending(Run(s, evs).board.timers);
  }

  /** Without attached handlers, mouse events change nothing and emit nothing. */
  lemma {:induction false} DetachedIgnoresMouse(s: Board, evs: seq<Event>)
    requires !s.bound
    requires forall i :: 0 <= i < |evs| ==> IsMouse(evs[i])
    ensures Run(s, evs) == Quiet(s)
    decreases |evs|
  {
    if |evs| > 0 {
      assert Step(s, evs[0]) == Quiet(s);
      DetachedIgnoresMouse(s, evs[1..]);
    }
  }

  /** After `unbindMouseHandlers`, from any state and even mid-stroke, the
      abandoned stroke is never delivered and no mouse event has any effect. */
  lemma UnbindThenMouse(s: Board, evs: seq<Event>)
    requires forall i :: 0 <= i < |evs| ==> IsMouse(evs[i])
    ensures var u := UnbindHandlers(s).board;
            && Run(s, [Unbind] + evs) == Quiet(u)
            && u.buffer == [] && !u.pointerDown
  {
    var u := UnbindHandlers(s).board;
    RunConcat(s, [Unbind], evs);
    assert Run(s, [Unbind]) == Quiet(u);
    DetachedIgnoresMouse(u, evs);
  }
}
