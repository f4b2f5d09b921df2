/**
 * The trackpad page script: six accumulator variables updated by the pan
 * handlers, a 30 Hz interval that drains them into at most one "move" or
 * "scroll" message, and `send`, which only writes to an open socket.
 *
 * `Deltas` is the value of the six variables; `StartStep`, `MoveStep`,
 * `EndStep` and `TickStep` say what each handler does to it. The class
 * `Accumulator` holds the six variables as fields and its methods update them
 * in place; each method's contract ties its new state to the step function.
 */
module Trackpad {
  import opened Wrappers
  import opened Protocol

  /** accumulatedDX/DY, accumulatedScrollDX/DY and lastX/lastY (null between gestures). */
  datatype Deltas = Deltas(
    dx: int, dy: int,
    scrollDX: int, scrollDY: int,
    lastX: Option<int>, lastY: Option<int>)

  /** The values the script starts with. */
  const INITIAL := Deltas(0, 0, 0, 0, None, None)

  datatype Point = Point(x: int, y: int)

  /** JavaScript's `n - null` converts null to 0. */
  function NumberOr0(v: Option<int>): int {
    match v
    case Some(n) => n
    case None => 0
  }

  /** "panstart": remember the gesture's centre. */
  function StartStep(d: Deltas, x: int, y: int): Deltas {
    d.(lastX := Some(x), lastY := Some(y))
  }

  /**
   * "panmove": the step from the last centre goes to the scroll pair when
   * exactly two pointers are down and to the move pair otherwise.
   */
  function MoveStep(d: Deltas, x: int, y: int, pointers: nat): Deltas {
    var stepX := x - NumberOr0(d.lastX);
    var stepY := y - NumberOr0(d.lastY);
    var added :=
      if pointers == 2 then d.(scrollDX := d.scrollDX + stepX, scrollDY := d.scrollDY + stepY)
      else d.(dx := d.dx + stepX, dy := d.dy + stepY);
    added.(lastX := Some(x), lastY := Some(y))
  }

  /** "panend": forget the last centre. */
  function EndStep(d: Deltas): Deltas {
    d.(lastX := None, lastY := None)
  }

  /** Both axes non-zero: the only deltas the interval forwards. */
  predicate BothAxes(dx: int, dy: int) {
    dx != 0 && dy != 0
  }

  /**
   * One firing of the 33 ms interval. A pending move pair is always cleared,
   * and sent only when both of its axes are non-zero; the scroll pair is looked
   * at only when the move pair is zero, with the same rule.
   */
  function TickStep(d: Deltas): (r: (Deltas, Option<Command>))
    // after every tick the move pair is zero
    ensures r.0.dx == 0 && r.0.dy == 0
    ensures r.0.lastX == d.lastX && r.0.lastY == d.lastY
    // move has priority: a pending move leaves the scroll pair alone
    ensures (d.dx != 0 || d.dy != 0) ==> r.0.scrollDX == d.scrollDX && r.0.scrollDY == d.scrollDY
    ensures (d.dx != 0 || d.dy != 0) ==> !(r.1.Some? && r.1.value.Scroll?)
    // otherwise the scroll pair is drained
    ensures d.dx == 0 && d.dy == 0 ==> r.0.scrollDX == 0 && r.0.scrollDY == 0
    // what is emitted, exactly
    ensures r.1.Some? ==> r.1 == Some(Move(d.dx, d.dy)) || r.1 == Some(Scroll(d.scrollDX, d.scrollDY))
    ensures r.1 == Some(Move(d.dx, d.dy)) <==> BothAxes(d.dx, d.dy)
    ensures r.1 == Some(Scroll(d.scrollDX, d.scrollDY)) <==>
              d.dx == 0 && d.dy == 0 && BothAxes(d.scrollDX, d.scrollDY)
    // nothing pending: nothing changes, nothing is sent
    ensures d.dx == 0 && d.dy == 0 && d.scrollDX == 0 && d.scrollDY == 0 ==> r == (d, None)
  {
    if d.dx != 0 || d.dy != 0 then
      var sent := if d.dx != 0 && d.dy != 0 then Some(Move(d.dx, d.dy)) else None;
      (d.(dx := 0, dy := 0), sent)
    else if d.scrollDY != 0 || d.scrollDX != 0 then
      var sent := if d.scrollDY != 0 && d.scrollDX != 0 then Some(Scroll(d.scrollDX, d.scrollDY)) else None;
      (d.(scrollDX := 0, scrollDY := 0), sent)
    else
      (d, None)
  }

  /** The page's variables, updated in place by the handlers. */
  class Accumulator {
    var accumulatedDX: int
    var accumulatedDY: int
    var accumulatedScrollDX: int
    var accumulatedScrollDY: int
    var lastX: Option<int>
    var lastY: Option<int>

    function Value(): Deltas
      reads this
    {
      Deltas(accumulatedDX, accumulatedDY, accumulatedScrollDX, accumulatedScrollDY, lastX, lastY)
    }

    constructor ()
      ensures Value() == INITIAL
    {
      accumulatedDX, accumulatedDY := 0, 0;
      accumulatedScrollDX, accumulatedScrollDY := 0, 0;
      lastX, lastY := None, None;
    }

    method PanStart(x: int, y: int)
      modifies this
      ensures Value() == StartStep(old(Value()), x, y)
    {
      lastX := Some(x);
      lastY := Some(y);
    }

    method PanMove(x: int, y: int, pointers: nat)
      modifies this
      ensures Value() == MoveStep(old(Value()), x, y, pointers)
    {
      var dx := x - NumberOr0(lastX);
      var dy := y - NumberOr0(lastY);
      if pointers == 2 {
        accumulatedScrollDX := accumulatedScrollDX + dx;
        accumulatedScrollDY := accumulatedScrollDY + dy;
      } else {
        accumulatedDX := accumulatedDX + dx;
        accumulatedDY := accumulatedDY + dy;
      }
      lastX := Some(x);
      lastY := Some(y);
    }

    method PanEnd()
      modifies this
      ensures Value() == EndStep(old(Value()))
    {
      lastX := None;
      lastY := None;
    }

    /** The body of the interval callback; `cmd` is what it passes to `send`. */
    method Tick() returns (cmd: Option<Command>)
      modifies this
      ensures (Value(), cmd) == TickStep(old(Value()))
    {
      cmd := None;
      if accumulatedDX != 0 || accumulatedDY != 0 {
        if accumulatedDX != 0 && accumulatedDY != 0 {
          cmd := Some(Move(accumulatedDX, accumulatedDY));
        }
        accumulatedDX := 0;
        accumulatedDY := 0;
      } else if accumulatedScrollDY != 0 || accumulatedScrollDX != 0 {
        if accumulatedScrollDY != 0 && accumulatedScrollDX != 0 {
          cmd := Some(Scroll(accumulatedScrollDX, accumulatedScrollDY));
        }
        accumulatedScrollDX := 0;
        accumulatedScrollDY := 0;
      }
    }
  }

  /** The browser WebSocket's `readyState`. */
  datatype ReadyState = Connecting | Open | Closing | Closed

  /** The page's socket: its state and every object it has written so far. */
  class Socket {
    var readyState: ReadyState
    var sent: seq<Request>

    constructor (state: ReadyState)
      ensures readyState == state && sent == []
    {
      readyState := state;
      sent := [];
    }

    /** `send`: writes the encoded command when the socket is open, otherwise does nothing. */
    method Send(c: Command)
      modifies this
      ensures readyState == old(readyState)
      ensures readyState == Open ==> sent == old(sent) + [Encode(c)]
      ensures readyState != Open ==> sent == old(sent)
    {
      if readyState == Open {
        sent := sent + [Encode(c)];
      }
    }
  }

  /** The "tap" handler. */
  method OnTap(ws: Socket)
    modifies ws
    ensures ws.readyState == old(ws.readyState)
    ensures ws.sent == old(ws.sent) + (if ws.readyState == Open then [Encode(Click)] else [])
  {
    ws.Send(Click);
  }

  /** The "press" handler. */
  method OnPress(ws: Socket)
    modifies ws
    ensures ws.readyState == old(ws.readyState)
    ensures ws.sent == old(ws.sent) + (if ws.readyState == Open then [Encode(LongPress)] else [])
  {
    ws.Send(LongPress);
  }

  /** One firing of the interval: drain the accumulators and send what they yield. */
  method OnInterval(acc: Accumulator, ws: Socket)
    modifies acc, ws
    ensures acc.Value() == TickStep(old(acc.Value())).0
    ensures ws.readyState == old(ws.readyState)
    ensures ws.sent == old(ws.sent) +
      (match TickStep(old(acc.Value())).1
       case Some(c) => if ws.readyState == Open then [Encode(c)] else []
       case None => [])
  {
    var cmd := acc.Tick();
    if cmd.Some? {
      ws.Send(cmd.value);
    }
  }

  /** The events the page reacts to, in the order they happen. */
  datatype Gesture =
    | Tap
    | Press
    | PanStart(x: int, y: int)
    | PanMove(x: int, y: int, pointers: nat)
    | PanEnd
    | Interval

  /** One event: the new variables and the commands passed to `send`. */
  function Step(d: Deltas, g: Gesture): (Deltas, seq<Command>) {
    match g
    case Tap => (d, [Click])
    case Press => (d, [LongPress])
    case PanStart(x, y) => (StartStep(d, x, y), [])
    case PanMove(x, y, n) => (MoveStep(d, x, y, n), [])
    case PanEnd => (EndStep(d), [])
    case Interval =>
      var (d', sent) := TickStep(d);
      (d', match sent case Some(c) => [c] case None => [])
  }

  /**
   * A run of the page script: the final variables and every command passed to
   * `send`, in order (the socket writes only those sent while it is open).
   */
  function Run(d: Deltas, gs: seq<Gesture>): (r: (Deltas, seq<Command>))
    decreases |gs|
  {
    if gs == [] then (d, [])
    else
      var (d', out) := Step(d, gs[0]);
      var (final, rest) := Run(d', gs[1..]);
      (final, out + rest)
  }

  /** A pan through the points `ps` with a fixed pointer count. */
  function Moves(ps: seq<Point>, pointers: nat): seq<Gesture> {
    if ps == [] then [] else [PanMove(ps[0].x, ps[0].y, pointers)] + Moves(ps[1..], pointers)
  }

  /** A command that carries motion. */
  predicate IsMotion(c: Command) {
    c.Move? || c.Scroll?
  }

  function CountMotion(cs: seq<Command>): nat {
    if cs == [] then 0 else (if IsMotion(cs[0]) then 1 else 0) + CountMotion(cs[1..])
  }

  function CountIntervals(gs: seq<Gesture>): nat {
    if gs == [] then 0 else (if gs[0].Interval? then 1 else 0) + CountIntervals(gs[1..])
  }

  // ---- properties of the handlers ----

  /**
   * panmove routes the step from the last centre to exactly one pair and
   * records the new centre; a panmove with no panstart before it measures from 0.
   */
  lemma PanMoveRoutes(d: Deltas, x: int, y: int, pointers: nat)
    ensures var r := MoveStep(d, x, y, pointers);
      && r.lastX == Some(x) && r.lastY == Some(y)
      && (pointers == 2 ==>
            && r.scrollDX == d.scrollDX + (x - NumberOr0(d.lastX))
            && r.scrollDY == d.scrollDY + (y - NumberOr0(d.lastY))
            && r.dx == d.dx && r.dy == d.dy)
      && (pointers != 2 ==>
            && r.dx == d.dx + (x - NumberOr0(d.lastX))
            && r.dy == d.dy + (y - NumberOr0(d.lastY))
            && r.scrollDX == d.scrollDX && r.scrollDY == d.scrollDY)
  {
  }

  /** panend clears the last centre and touches no accumulator. */
  lemma PanEndClearsOnly(d: Deltas)
    ensures var r := EndStep(d);
      r.lastX == None && r.lastY == None &&
      r.dx == d.dx && r.dy == d.dy && r.scrollDX == d.scrollDX && r.scrollDY == d.scrollDY
  {
  }

  /** Single-axis motion is discarded by the tick, not kept for the next one. */
  lemma SingleAxisDropped(d: Deltas)
    requires (d.dx == 0) != (d.dy == 0)
    ensures TickStep(d).1 == None
    ensures TickStep(d).0 == d.(dx := 0, dy := 0)
  {
  }

  /** Two ticks with nothing in between drain all four accumulators; a third sends nothing. */
  lemma TwoTicksDrain(d: Deltas)
    ensures var d2 := TickStep(TickStep(d).0).0;
      d2.dx == 0 && d2.dy == 0 && d2.scrollDX == 0 && d2.scrollDY == 0 &&
      TickStep(d2) == (d2, None)
  {
  }

  /**
   * A pan from a known centre through the points `ps` sends nothing and adds
   * the displacement from that centre to the last point to one pair.
   */
  lemma {:induction false} MovesTelescope(d: Deltas, ps: seq<Point>, pointers: nat)
    requires d.lastX.Some? && d.lastY.Some?
    requires ps != []
    ensures var r := Run(d, Moves(ps, pointers));
      var last := ps[|ps| - 1];
      && r.1 == []
      && r.0 == (if pointers == 2
                 then d.(scrollDX := d.scrollDX + (last.x - d.lastX.value),
                         scrollDY := d.scrollDY + (last.y - d.lastY.value))
                 else d.(dx := d.dx + (last.x - d.lastX.value),
                         dy := d.dy + (last.y - d.lastY.value)))
               .(lastX := Some(last.x), lastY := Some(last.y))
    decreases |ps|
  {
    var gs := Moves(ps, pointers);
    assert gs[0] == PanMove(ps[0].x, ps[0].y, pointers);
    assert gs[1..] == Moves(ps[1..], pointers);
    var d1 := MoveStep(d, ps[0].x, ps[0].y, pointers);
    if |ps| > 1 {
      MovesTelescope(d1, ps[1..], pointers);
    }
  }

  /**
   * Telescoping: a panstart at `p0` followed by panmoves to `ps` (all with the
   * same pointer count) adds exactly last(ps) - p0 to that pair, leaves the
   * other pair alone and sends nothing.
   */
  lemma {:induction false} Telescoping(d: Deltas, p0: Point, ps: seq<Point>, pointers: nat)
    requires ps != []
    ensures var r := Run(d, [PanStart(p0.x, p0.y)] + Moves(ps, pointers));
      var last := ps[|ps| - 1];
      && r.1 == []
      && r.0.lastX == Some(last.x) && r.0.lastY == Some(last.y)
      && (pointers == 2 ==>
            && r.0.scrollDX == d.scrollDX + (last.x - p0.x)
            && r.0.scrollDY == d.scrollDY + (last.y - p0.y)
            && r.0.dx == d.dx && r.0.dy == d.dy)
      && (pointers != 2 ==>
            && r.0.dx == d.dx + (last.x - p0.x)
            && r.0.dy == d.dy + (last.y - p0.y)
            && r.0.scrollDX == d.scrollDX && r.0.scrollDY == d.scrollDY)
  {
    var gs := [PanStart(p0.x, p0.y)] + Moves(ps, pointers);
    assert gs[0] == PanStart(p0.x, p0.y);
    assert gs[1..] == Moves(ps, pointers);
    MovesTelescope(StartStep(d, p0.x, p0.y), ps, pointers);
  }

  /**
   * Over any run, every "move" or "scroll" passed to `send` carries two non-zero axes, and
   * at most one of them is passed per interval.
   */
  lemma {:induction false} MotionSentOnlyByTicks(d: Deltas, gs: seq<Gesture>)
    ensures forall c :: c in Run(d, gs).1 && IsMotion(c) ==> BothAxes(c.dx, c.dy)
    ensures CountMotion(Run(d, gs).1) <= CountIntervals(gs)
    decreases |gs|
  {
    if gs != [] {
      var (d', out) := Step(d, gs[0]);
      MotionSentOnlyByTicks(d', gs[1..]);
      var rest := Run(d', gs[1..]).1;
      assert Run(d, gs).1 == out + rest;
      CountMotionAppend(out, rest);
      if gs[0].Interval? {
        assert |out| <= 1;
      } else {
        assert CountMotion(out) == 0;
      }
    }
  }

  lemma {:induction false} CountMotionAppend(a: seq<Command>, b: seq<Command>)
    ensures CountMotion(a + b) == CountMotion(a) + CountMotion(b)
    decreases |a|
  {
    if a != [] {
      assert (a + b)[1..] == a[1..] + b;
      CountMotionAppend(a[1..], b);
    } else {
      assert a + b == b;
    }
  }
}
