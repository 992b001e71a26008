/** The `cleanTimer` bookkeeping: the handle the whiteboard remembers, the
    set of timers the host still has scheduled, and the next handle the host
    will hand out. `clearTimeout` cancels a timer but the code does not always
    null the remembered handle, so the handle may name a timer that is no
    longer pending. Handles start at 1, so a remembered handle is truthy. */
module CleanTimer {
  import opened Wrappers
  import opened JsValues

  datatype Timers = Timers(handle: Option<nat>, pending: set<nat>, next: nat)

  /** The handles a remembered handle can account for. */
  function Remembered(handle: Option<nat>): set<nat> {
    match handle
    case Some(h) => {h}
    case None => {}
  }

  /** Every pending timer is the remembered one, and the remembered handle
      was already handed out. */
  predicate Valid(t: Timers) {
    && t.pending <= Remembered(t.handle)
    && t.next >= 1
    && (t.handle.Some? ==> 1 <= t.handle.value < t.next)
  }

  /** No timer scheduled, the state of a freshly constructed whiteboard. */
  const Initial: Timers := Timers(None, {}, 1)

  /** `if (cleanTimer) clearTimeout(cleanTimer)`: the remembered timer stops
      being pending; the handle itself is kept. */
  function Cancel(t: Timers): (r: Timers)
    ensures r.handle == t.handle && r.next == t.next
    ensures r.pending == t.pending - Remembered(t.handle)
  {
    match t.handle
    case Some(h) => t.(pending := t.pending - {h})
    case None => t
  }

  /** Cancels any pending timer, then schedules a new one exactly when the
      effective `timeout` is truthy; with a falsy timeout nothing is left
      pending. */
  function Rearm(t: Timers, timeout: Value): (r: Timers)
    ensures Valid(t) ==> Valid(r)
    ensures Valid(t) && Truthy(timeout) ==> r.handle == Some(t.next) && r.pending == {t.next}
    ensures Valid(t) && !Truthy(timeout) ==> r.pending == {}
  {
    var c := Cancel(t);
    if Truthy(timeout) then Timers(Some(c.next), c.pending + {c.next}, c.next + 1) else c
  }

  /** The timer-side part of `clean`: cancel and forget the remembered timer. */
  function Clear(t: Timers): (r: Timers)
    ensures Valid(t) ==> Valid(r) && r.pending == {}
    ensures r.handle.None?
  {
    Cancel(t).(handle := None)
  }

  /** Timer `h` goes off: it is no longer pending. */
  function Fired(t: Timers, h: nat): (r: Timers)
    ensures Valid(t) ==> Valid(r)
    ensures h !in r.pending && r.pending <= t.pending
  {
    t.(pending := t.pending - {h})
  }

  /** A valid timer state has at most one timer pending. */
  lemma AtMostOnePending(t: Timers)
    requires Valid(t)
    ensures |t.pending| <= 1
  {
    assert |Remembered(t.handle)| <= 1;
    SubsetSize(t.pending, Remembered(t.handle));
  }

  lemma SubsetSize(a: set<nat>, b: set<nat>)
    requires a <= b
    ensures |a| <= |b|
  {
    assert b == a + (b - a);
  }

  /** Re-arming before the first timer goes off leaves only the second one
      pending: the first handle can no longer fire, so the clean happens once,
      a full timeout after the later stroke or replay. */
  lemma Debounce(t: Timers, first: Value, second: Value)
    requires Valid(t) && Truthy(first) && Truthy(second)
    ensures var r := Rearm(Rearm(t, first), second);
            r.pending == {t.next + 1} && t.next !in r.pending
  {
  }

  /** Clearing twice is clearing once. */
  lemma ClearIdempotent(t: Timers)
    ensures Clear(Clear(t)) == Clear(t)
  {
  }
}
