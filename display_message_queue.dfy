/** The X11 display message queue: the per-thread registry of windows (`windows`,
    `windows_born`, `windows_died`), the mouse-capture window, the drain of the X
    event queue in `process_message`, the timeout arithmetic and return decision of
    `process`, and the memoised display connection and OpenGL library handle. The
    model covers one thread's registry; the X event queue is a sequence of events
    and XPutBackEvent puts an event back at its front. */
module X11MessageQueue {
  import opened Wrappers

  type XWindow = nat

  /** A registered `X11Window *`: the object's identity and the native window id its
      handle holds, fixed for the client (see README.md, Left out). */
  datatype Client = Client(object: nat, window: XWindow)

  /** A queued X event: its target (`event.xany.window`) and everything else about
      it, opaque here. */
  datatype Event = Event(target: XWindow, payload: nat)

  /** One call `window->process_event(event, mouse_capture_window)`. */
  datatype Dispatch = Dispatch(window: Client, event: Event, captureWindow: Client)

  // ---------------------------------------------------------------------------
  // Registry lookups
  // ---------------------------------------------------------------------------

  /** Some client of `ws` is the target `w` (`std::find_if` with `is_target`). */
  predicate HasTarget(ws: seq<Client>, w: XWindow) {
    exists i :: 0 <= i < |ws| && ws[i].window == w
  }

  /** The first client of `ws` whose window is `w`. */
  function Find(ws: seq<Client>, w: XWindow): (r: Option<Client>)
    ensures r.None? <==> !HasTarget(ws, w)
    ensures r.Some? ==> r.value.window == w
    ensures r.Some? ==>
      exists i :: 0 <= i < |ws| && ws[i] == r.value && forall j :: 0 <= j < i ==> ws[j].window != w
  {
    if ws == [] then None
    else if ws[0].window == w then Some(ws[0])
    else
      var r := Find(ws[1..], w);
      assert HasTarget(ws[1..], w) ==> HasTarget(ws, w) by {
        if HasTarget(ws[1..], w) {
          var i :| 0 <= i < |ws[1..]| && ws[1..][i].window == w;
          assert ws[i + 1].window == w;
        }
      }
      assert HasTarget(ws, w) ==> HasTarget(ws[1..], w) by {
        if HasTarget(ws, w) {
          var i :| 0 <= i < |ws| && ws[i].window == w;
          assert i != 0 && ws[1..][i - 1].window == w;
        }
      }
      if r.Some? then
        assert exists i :: 0 <= i < |ws| && ws[i] == r.value && forall j :: 0 <= j < i ==> ws[j].window != w by {
          var i :| 0 <= i < |ws[1..]| && ws[1..][i] == r.value && forall j :: 0 <= j < i ==> ws[1..][j].window != w;
          assert ws[i + 1] == r.value;
          assert forall j :: 0 <= j < i + 1 ==> ws[j].window != w by {
            forall j | 0 <= j < i + 1 ensures ws[j].window != w {
              if j > 0 { assert ws[j] == ws[1..][j - 1]; }
            }
          }
        }
        r
      else r
  }

  /** The window a dispatched event is told holds the mouse: the capture window if
      there is one, else the event's own window. */
  function CaptureFor(capture: Option<Client>, target: Client): (c: Client)
    ensures capture.Some? ==> c == capture.value
    ensures capture.None? ==> c == target
  {
    if capture.None? then target else capture.value
  }

  // ---------------------------------------------------------------------------
  // The drain of process_message
  // ---------------------------------------------------------------------------

  /** The dispatches a drain makes and the queue it leaves, given the registry and
      the capture window: events for dying windows are consumed first; an event for
      a newborn window stops the drain and stays at the queue front; events for
      unknown windows are consumed; the rest go to their window. */
  function Drain(queue: seq<Event>, windows: seq<Client>, born: seq<Client>, died: seq<Client>,
                 capture: Option<Client>): (r: (seq<Dispatch>, seq<Event>))
    ensures |r.0| + |r.1| <= |queue|
  {
    if queue == [] then ([], [])
    else
      var e := queue[0];
      if HasTarget(died, e.target) then Drain(queue[1..], windows, born, died, capture)
      else if HasTarget(born, e.target) then ([], queue)
      else
        var (ds, rest) := Drain(queue[1..], windows, born, died, capture);
        match Find(windows, e.target)
        case None => (ds, rest)
        case Some(c) => ([Dispatch(c, e, CaptureFor(capture, c))] + ds, rest)
  }

  /** An event that a drain hands to a window: not for a dying window, and for a
      registered one. */
  predicate Deliverable(e: Event, windows: seq<Client>, died: seq<Client>) {
    !HasTarget(died, e.target) && HasTarget(windows, e.target)
  }

  /** The deliverable events of `q`, in order. */
  function DeliverableEvents(q: seq<Event>, windows: seq<Client>, died: seq<Client>): seq<Event> {
    if q == [] then []
    else (if Deliverable(q[0], windows, died) then [q[0]] else [])
         + DeliverableEvents(q[1..], windows, died)
  }

  function EventsOf(ds: seq<Dispatch>): seq<Event> {
    if ds == [] then [] else [ds[0].event] + EventsOf(ds[1..])
  }

  /** Nothing is lost: the queue left behind is what follows the consumed events, it
      is empty or starts with an event for a newborn window that is not dying, and no
      consumed event was for a newborn window that is not dying (the drain stops at the
      first such event). */
  lemma {:induction false} DrainLeavesSuffix(queue: seq<Event>, windows: seq<Client>, born: seq<Client>,
                                             died: seq<Client>, capture: Option<Client>)
    ensures var rest := Drain(queue, windows, born, died, capture).1;
      && |rest| <= |queue| && rest == queue[|queue| - |rest|..]
      && (rest != [] ==> HasTarget(born, rest[0].target) && !HasTarget(died, rest[0].target))
      && forall i :: 0 <= i < |queue| - |rest| ==>
           HasTarget(died, queue[i].target) || !HasTarget(born, queue[i].target)
  {
    if queue != [] {
      DrainLeavesSuffix(queue[1..], windows, born, died, capture);
    }
  }

  /** Every dispatch goes to the first registered window of the event's target, for an
      event whose target is neither dying nor newborn, with the capture window as
      `CaptureFor` chooses it. */
  lemma {:induction false} DrainDispatchesOnlyLive(queue: seq<Event>, windows: seq<Client>, born: seq<Client>,
                                                   died: seq<Client>, capture: Option<Client>)
    ensures forall d :: d in Drain(queue, windows, born, died, capture).0 ==>
      && !HasTarget(died, d.event.target) && !HasTarget(born, d.event.target)
      && Find(windows, d.event.target) == Some(d.window)
      && d.captureWindow == CaptureFor(capture, d.window)
  {
    if queue != [] {
      DrainDispatchesOnlyLive(queue[1..], windows, born, died, capture);
    }
  }

  /** Every deliverable event before the stopping point is dispatched exactly once, in
      queue order, and no other event is. */
  lemma {:induction false} DrainDispatchesInOrder(queue: seq<Event>, windows: seq<Client>, born: seq<Client>,
                                                  died: seq<Client>, capture: Option<Client>)
    ensures var (ds, rest) := Drain(queue, windows, born, died, capture);
      |rest| <= |queue| && EventsOf(ds) == DeliverableEvents(queue[..|queue| - |rest|], windows, died)
  {
    if queue != [] {
      var (ds, rest) := Drain(queue, windows, born, died, capture);
      var e := queue[0];
      DrainDispatchesInOrder(queue[1..], windows, born, died, capture);
      var (ds', rest') := Drain(queue[1..], windows, born, died, capture);
      if HasTarget(died, e.target) {
        assert queue[..|queue| - |rest|][1..] == queue[1..][..|queue[1..]| - |rest'|];
      } else if HasTarget(born, e.target) {
        assert queue[..|queue| - |rest|] == [];
      } else {
        assert queue[..|queue| - |rest|][1..] == queue[1..][..|queue[1..]| - |rest'|];
        assert queue[..|queue| - |rest|][0] == e;
      }
    }
  }

  // ---------------------------------------------------------------------------
  // Removing dying windows (see Findings in README.md)
  // ---------------------------------------------------------------------------

  /** The clients of `w` that are not in `dead`, in order (erase-remove). */
  function Filter(w: seq<Client>, dead: seq<Client>): (r: seq<Client>)
    ensures |r| <= |w|
    ensures forall x :: x in r <==> x in w && x !in dead
  {
    if w == [] then []
    else (if w[0] in dead then [] else [w[0]]) + Filter(w[1..], dead)
  }

  /** Filtering by nothing keeps everything. */
  lemma {:induction false} FilterNothing(w: seq<Client>)
    ensures Filter(w, []) == w
  {
    if w != [] {
      FilterNothing(w[1..]);
    }
  }

  /** Filtering by one more client is filtering by the longer list. */
  lemma {:induction false} FilterSnoc(w: seq<Client>, dead: seq<Client>, x: Client)
    ensures Filter(Filter(w, dead), [x]) == Filter(w, dead + [x])
  {
    if w != [] {
      FilterSnoc(w[1..], dead, x);
      var head := if w[0] in dead then [] else [w[0]];
      assert Filter(w, dead) == head + Filter(w[1..], dead);
      FilterAppend(head, Filter(w[1..], dead), [x]);
    }
  }

  lemma {:induction false} FilterAppend(a: seq<Client>, b: seq<Client>, dead: seq<Client>)
    ensures Filter(a + b, dead) == Filter(a, dead) + Filter(b, dead)
  {
    if a != [] {
      assert (a + b)[1..] == a[1..] + b;
      FilterAppend(a[1..], b, dead);
    } else {
      assert a + b == b;
    }
  }

  /** `std::remove(w.begin(), w.end(), x)` without the `erase`: the kept clients move
      to the front and the tail keeps the values that were there; the length does
      not change. */
  function StdRemove(w: seq<Client>, x: Client): (r: seq<Client>)
    ensures |r| == |w|
    ensures r[..|Filter(w, [x])|] == Filter(w, [x])
  {
    var kept := Filter(w, [x]);
    kept + w[|kept|..]
  }

  /** The removal loop of `process_message` as written: one `std::remove` per dying
      client, no `erase`. */
  function RemoveDeadAsWritten(w: seq<Client>, died: seq<Client>): (r: seq<Client>)
    ensures |r| == |w|
    decreases |died|
  {
    if died == [] then w else RemoveDeadAsWritten(StdRemove(w, died[0]), died[1..])
  }

  /** As written, a dying window at the end of the list stays registered: with
      windows `[a, b]` and `b` dying the list is still `[a, b]`. */
  lemma RemoveDeadAsWrittenKeepsDead(a: Client, b: Client)
    requires a != b
    ensures b in RemoveDeadAsWritten([a, b], [b])
  {
    assert Filter([a, b], [b]) == [a] by {
      assert [a, b][1..] == [b];
      assert Filter([b], [b]) == [] by { assert [b][1..] == []; }
    }
    assert StdRemove([a, b], b) == [a, b];
  }

  /** As written, a live window can end up registered twice: with windows `[a, b]`
      and `a` dying the list becomes `[b, b]`. */
  lemma RemoveDeadAsWrittenDuplicates(a: Client, b: Client)
    requires a != b
    ensures RemoveDeadAsWritten([a, b], [a]) == [b, b]
  {
    assert Filter([a, b], [a]) == [b] by {
      assert [a, b][1..] == [b];
      assert Filter([b], [a]) == [b] by { assert [b][1..] == []; }
    }
  }

  // ---------------------------------------------------------------------------
  // Mouse capture and memoised handles
  // ---------------------------------------------------------------------------

  /** The capture window after `set_mouse_capture(w, state)`. */
  function CaptureAfter(capture: Option<Client>, w: Client, state: bool): (c: Option<Client>)
    ensures state ==> c == Some(w)
    ensures !state && capture == Some(w) ==> c == None
    ensures !state && capture != Some(w) ==> c == capture
  {
    if state then Some(w) else if capture == Some(w) then None else capture
  }

  /** Releasing restores "no capture" only for the window that holds it; a window that
      does not hold the capture cannot take it away. */
  lemma CaptureReleaseOwnOnly(capture: Option<Client>, w: Client, other: Client)
    requires w != other
    ensures CaptureAfter(CaptureAfter(capture, w, true), w, false) == None
    ensures CaptureAfter(CaptureAfter(capture, w, true), other, false) == Some(w)
  {
  }

  /** A memoised handle: the cached one if there is one, else the loaded result. */
  function Memoised<H>(cached: Option<H>, loaded: Option<H>): (h: Option<H>)
    ensures cached.Some? ==> h == cached
    ensures cached.None? ==> h == loaded
  {
    if cached.Some? then cached else loaded
  }

  /** Once a handle is cached, later calls return it whatever the loader says. */
  lemma MemoisedIdempotent<H>(cached: Option<H>, loaded1: Option<H>, loaded2: Option<H>)
    requires Memoised(cached, loaded1).Some?
    ensures Memoised(Memoised(cached, loaded1), loaded2) == Memoised(cached, loaded1)
  {
  }

  // ---------------------------------------------------------------------------
  // Timeout of process
  // ---------------------------------------------------------------------------

  const TwoTo31: int := 0x8000_0000
  const TwoTo32: int := 0x1_0000_0000

  /** Conversion to a 32-bit `int` (two's complement wrap-around). */
  function ToInt32(x: int): (r: int)
    ensures -TwoTo31 <= r < TwoTo31
    ensures (r - x) % TwoTo32 == 0
    ensures -TwoTo31 <= x < TwoTo31 ==> r == x
  {
    (x + TwoTo31) % TwoTo32 - TwoTo31
  }

  datatype TimeVal = TimeVal(sec: int, usec: int)

  /** The remaining milliseconds of `process`: the timeout minus the time since the
      start, computed in unsigned 64-bit and stored in an `int`. */
  function RemainingMs(timeoutMs: int, start: int, now: int): (ms: int)
    ensures -TwoTo31 <= ms < TwoTo31
    ensures (ms - (timeoutMs - (now - start))) % TwoTo32 == 0
    ensures -TwoTo31 <= timeoutMs - (now - start) < TwoTo31 ==> ms == timeoutMs - (now - start)
  {
    ToInt32(timeoutMs - (now - start))
  }

  /** The `timeval` handed to `select`: the remaining milliseconds when positive,
      zero otherwise. */
  function SplitTimeout(remainingMs: int): (tv: TimeVal)
    ensures remainingMs > 0 ==> 0 <= tv.usec < 1000000 && tv.sec * 1000000 + tv.usec == remainingMs * 1000
    ensures remainingMs <= 0 ==> tv == TimeVal(0, 0)
  {
    if remainingMs > 0 then TimeVal(remainingMs / 1000, (remainingMs % 1000) * 1000)
    else TimeVal(0, 0)
  }

  /** `run()` is `process(-1)`: the wait it passes to `select` is zero, not unbounded,
      while less than 2^31 - 1 milliseconds have passed. */
  lemma RunPollsWithoutBlocking(start: int, now: int)
    requires start <= now < start + TwoTo31
    ensures SplitTimeout(RemainingMs(-1, start, now)) == TimeVal(0, 0)
  {
  }

  /** What `select` reports in one round: the count of ready descriptors and whether
      the async-work and exit descriptors are among them. */
  datatype SelectOutcome = SelectOutcome(result: int, asyncWorkReady: bool, exitReady: bool)

  /** One round of `process`: the clock after `process_message`, and the select. */
  datatype Round = Round(now: int, select: SelectOutcome)

  /** A round after which `process` returns. */
  predicate RoundEnds(r: Round) {
    r.select.result <= 0 || r.select.exitReady
  }

  predicate EventuallyEnds(rounds: seq<Round>) {
    exists k :: 0 <= k < |rounds| && RoundEnds(rounds[k])
  }

  /** The index of the round after which `process` returns. */
  function LastRound(rounds: seq<Round>): (k: nat)
    requires EventuallyEnds(rounds)
    ensures k < |rounds| && RoundEnds(rounds[k])
    ensures forall j :: 0 <= j < k ==> !RoundEnds(rounds[j])
  {
    if RoundEnds(rounds[0]) then 0
    else
      assert EventuallyEnds(rounds[1..]) by {
        var k :| 0 <= k < |rounds| && RoundEnds(rounds[k]);
        assert k != 0 && RoundEnds(rounds[1..][k - 1]);
      }
      1 + LastRound(rounds[1..])
  }

  /** Rounds in which async work ran. */
  function AsyncRounds(rounds: seq<Round>): nat {
    if rounds == [] then 0
    else (if rounds[0].select.result > 0 && rounds[0].select.asyncWorkReady then 1 else 0)
         + AsyncRounds(rounds[1..])
  }

  /** The timeout and return logic of `process(timeout_ms)`, started at time `start`:
      every round passes the split remaining time to `select`; a round with ready
      descriptors runs async work when signalled and returns false when exit is
      signalled; a round with nothing ready returns true. */
  method Process(timeoutMs: int, start: int, rounds: seq<Round>)
    returns (keepRunning: bool, waits: seq<TimeVal>, asyncRuns: nat)
    requires EventuallyEnds(rounds)
    ensures |waits| == LastRound(rounds) + 1
    ensures forall i :: 0 <= i < |waits| ==> waits[i] == SplitTimeout(RemainingMs(timeoutMs, start, rounds[i].now))
    ensures keepRunning <==> rounds[|waits| - 1].select.result <= 0
    ensures !keepRunning ==> rounds[|waits| - 1].select.exitReady
    ensures asyncRuns == AsyncRounds(rounds[..|waits|])
  {
    ghost var k := LastRound(rounds);
    waits := [];
    asyncRuns := 0;
    keepRunning := true;
    var i := 0;
    while true
      invariant 0 <= i <= k
      invariant |waits| == i
      invariant forall j :: 0 <= j < i ==> waits[j] == SplitTimeout(RemainingMs(timeoutMs, start, rounds[j].now))
      invariant asyncRuns == AsyncRounds(rounds[..i])
      decreases k - i
    {
      var remaining := ToInt32(timeoutMs - (rounds[i].now - start));
      var tv := if remaining > 0 then TimeVal(remaining / 1000, (remaining % 1000) * 1000) else TimeVal(0, 0);
      waits := waits + [tv];
      var sel := rounds[i].select;
      AsyncRoundsSnoc(rounds, i);
      if sel.result > 0 {
        if sel.asyncWorkReady {
          asyncRuns := asyncRuns + 1;
        }
        if sel.exitReady {
          keepRunning := false;
          return;
        }
      } else {
        keepRunning := true;
        return;
      }
      i := i + 1;
    }
  }

  lemma {:induction false} AsyncRoundsSnoc(rounds: seq<Round>, i: nat)
    requires i < |rounds|
    ensures AsyncRounds(rounds[..i + 1]) ==
      AsyncRounds(rounds[..i]) + (if rounds[i].select.result > 0 && rounds[i].select.asyncWorkReady then 1 else 0)
  {
    if i == 0 {
      assert rounds[..1][1..] == [];
    } else {
      assert rounds[..i + 1][1..] == rounds[1..][..i];
      assert rounds[..i][1..] == rounds[1..][..i - 1];
      AsyncRoundsSnoc(rounds[1..], i - 1);
    }
  }

  // ---------------------------------------------------------------------------
  // The queue object
  // ---------------------------------------------------------------------------

  /** An opened `::Display *` or `dlopen` handle (the pointer value, opaque here). */
  type Handle = nat

  class DisplayMessageQueue {
    var display: Option<Handle>
    var dlopenLibHandle: Option<Handle>
    var currentMouseCaptureWindow: Option<Client>
    /** The calling thread's registry. */
    var windows: seq<Client>
    var windowsBorn: seq<Client>
    var windowsDied: seq<Client>

    constructor ()
      ensures display.None? && dlopenLibHandle.None? && currentMouseCaptureWindow.None?
      ensures windows == [] && windowsBorn == [] && windowsDied == []
    {
      display := None;
      dlopenLibHandle := None;
      currentMouseCaptureWindow := None;
      windows := [];
      windowsBorn := [];
      windowsDied := [];
    }

    /** `dlopen_opengl`: the first non-null handle `dlopen` returns (`loaded`) is kept
        and returned by every later call; a null result is retried on the next call. */
    method DlopenOpengl(loaded: Option<Handle>) returns (h: Option<Handle>)
      modifies this`dlopenLibHandle
      ensures dlopenLibHandle == Memoised(old(dlopenLibHandle), loaded)
      ensures h == dlopenLibHandle
    {
      if dlopenLibHandle.None? {
        dlopenLibHandle := loaded;
      }
      h := dlopenLibHandle;
    }

    /** `get_display`: opens the display on first use (`connection` is XOpenDisplay's
        result) and throws when that fails. */
    method GetDisplay(connection: Option<Handle>) returns (r: Result<Handle>)
      modifies this`display
      ensures display == Memoised(old(display), connection)
      ensures r.Success? <==> display.Some?
      ensures r.Success? ==> r.value == display.value
    {
      if display.None? {
        display := connection;
        if display.None? {
          return Failure("could not open X11 display");
        }
      }
      r := Success(display.value);
    }

    /** `add_client`: the window is registered as newborn. */
    method AddClient(w: Client)
      modifies this`windowsBorn
      ensures windowsBorn == old(windowsBorn) + [w]
    {
      windowsBorn := windowsBorn + [w];
    }

    /** `remove_client`: the window is registered as dying. */
    method RemoveClient(w: Client)
      modifies this`windowsDied
      ensures windowsDied == old(windowsDied) + [w]
    {
      windowsDied := windowsDied + [w];
    }

    /** `set_mouse_capture`. */
    method SetMouseCapture(w: Client, state: bool)
      modifies this`currentMouseCaptureWindow
      ensures currentMouseCaptureWindow == CaptureAfter(old(currentMouseCaptureWindow), w, state)
    {
      if state {
        currentMouseCaptureWindow := Some(w);
      } else {
        if currentMouseCaptureWindow == Some(w) {
          currentMouseCaptureWindow := None;
        }
      }
    }

    /** The event loop of `process_message`: takes events off the front of `queue`
        (XNextEvent) while any remain, skipping events for dying windows, putting an
        event for a newborn window back (XPutBackEvent) and stopping, dropping events
        for unknown windows and dispatching the rest. */
    method DrainQueue(queue: seq<Event>) returns (dispatched: seq<Dispatch>, rest: seq<Event>)
      ensures (dispatched, rest) == Drain(queue, windows, windowsBorn, windowsDied, currentMouseCaptureWindow)
    {
      ghost var spec := Drain(queue, windows, windowsBorn, windowsDied, currentMouseCaptureWindow);
      var q := queue;
      dispatched := [];
      assert spec.0 == dispatched + spec.0;
      while q != []
        invariant spec.0 == dispatched + Drain(q, windows, windowsBorn, windowsDied, currentMouseCaptureWindow).0
        invariant spec.1 == Drain(q, windows, windowsBorn, windowsDied, currentMouseCaptureWindow).1
        decreases |q|
      {
        var event := q[0];
        ghost var before := q;
        q := q[1..];
        assert [event] + q == before;
        if HasTarget(windowsDied, event.target) {
          continue;
        }
        if HasTarget(windowsBorn, event.target) {
          q := [event] + q;
          assert Drain(q, windows, windowsBorn, windowsDied, currentMouseCaptureWindow) == ([], q);
          assert dispatched + [] == dispatched;
          break;
        }
        var found := Find(windows, event.target);
        if found.None? {
          continue;
        }
        var window := found.value;
        var captureWindow := if currentMouseCaptureWindow.None? then window else currentMouseCaptureWindow.value;
        dispatched := dispatched + [Dispatch(window, event, captureWindow)];
      }
      assert dispatched + [] == dispatched;
      rest := q;
    }

    /** The end of `process_message`: the dying windows are removed (erase-remove, see
        Findings in README.md), the newborn ones appended in order, and both pending
        lists emptied. */
    method UpdateRegistry()
      modifies this`windows, this`windowsDied, this`windowsBorn
      ensures windows == Filter(old(windows), old(windowsDied)) + old(windowsBorn)
      ensures windowsDied == [] && windowsBorn == []
    {
      var w0, died, born := windows, windowsDied, windowsBorn;
      var live := w0;
      var i := 0;
      FilterNothing(w0);
      while i < |died|
        invariant 0 <= i <= |died|
        invariant live == Filter(w0, died[..i])
      {
        FilterSnoc(w0, died[..i], died[i]);
        assert died[..i + 1] == died[..i] + [died[i]];
        live := Filter(live, [died[i]]);
        i := i + 1;
      }
      assert died[..i] == died;
      assert live == Filter(w0, died);
      var j := 0;
      ghost var kept := live;
      while j < |born|
        invariant 0 <= j <= |born|
        invariant live == kept + born[..j]
      {
        live := live + [born[j]];
        assert born[..j + 1] == born[..j] + [born[j]];
        j := j + 1;
      }
      assert born[..j] == born;
      assert live == Filter(w0, died) + born;
      windows := live;
      windowsDied := [];
      windowsBorn := [];
    }

    /** `process_message`: opens the display if needed (`connection`), drains the queue,
        then removes the dying windows, appends the newborn ones in order and empties
        both pending lists. Dying windows are removed with erase-remove, not with the
        bare `std::remove` of the source (see Findings in README.md). */
    method ProcessMessage(connection: Option<Handle>, queue: seq<Event>)
      returns (r: Outcome, dispatched: seq<Dispatch>, rest: seq<Event>)
      modifies this
      ensures display == Memoised(old(display), connection)
      ensures dlopenLibHandle == old(dlopenLibHandle)
      ensures currentMouseCaptureWindow == old(currentMouseCaptureWindow)
      ensures r.Fail? <==> display.None?
      ensures r.Fail? ==>
        && dispatched == [] && rest == queue && windows == old(windows)
        && windowsBorn == old(windowsBorn) && windowsDied == old(windowsDied)
      ensures r.Pass? ==>
        && (dispatched, rest) == Drain(queue, old(windows), old(windowsBorn), old(windowsDied), old(currentMouseCaptureWindow))
        && windows == Filter(old(windows), old(windowsDied)) + old(windowsBorn)
        && windowsDied == [] && windowsBorn == []
    {
      var d := GetDisplay(connection);
      if d.Failure? {
        return Fail(d.error), [], queue;
      }
      dispatched, rest := DrainQueue(queue);
      UpdateRegistry();
      r := Pass;
    }
  }
}
