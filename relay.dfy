/**
 * The relay's WebSocket handler: it reports "Connecting to TV...", registers
 * the state callback, connects the TV session, reports "Connected to TV",
 * turns each text frame into at most one session operation, stops at a
 * CLOSED or ERROR frame, and disconnects the session.
 *
 * Frames arrive already decoded; the session and the socket are replaced by
 * the trace of `Event`s the handler performs, in order.
 */
module Relay {
  import Protocol

  /** The message types the handler tells apart; every other type is `Other`. */
  datatype Frame = Text(request: Protocol.Request) | Closed | Error | Other

  /** What the handler does: socket writes and TV session operations. */
  datatype Event =
    | SendStatus(text: string)
    | Subscribe
    | Connect
    | Move(dx: int, dy: int)
    | Scroll(dx: int, dy: int)
    | Click
    | Disconnect

  /** How the handler ends: it returns, or the exception of a failed connect escapes it. */
  datatype Outcome = Returned | Raised

  const CONNECTING := "Connecting to TV..."
  const CONNECTED := "Connected to TV"

  predicate IsStop(f: Frame) {
    f.Closed? || f.Error?
  }

  /** A session operation that a client command causes. */
  predicate IsCommandOp(e: Event) {
    e.Move? || e.Scroll? || e.Click?
  }

  /** No frame of `fs` ends the loop. */
  predicate NoStop(fs: seq<Frame>) {
    forall i :: 0 <= i < |fs| ==> !IsStop(fs[i])
  }

  /**
   * The session operation for one text frame: "move", "scroll" and "click"
   * cause exactly one operation each, every other type (including "longpress")
   * causes none.
   */
  function Operation(r: Protocol.Request): (ops: seq<Event>)
    ensures |ops| <= 1
    ensures forall e :: e in ops ==> IsCommandOp(e)
    ensures ops == [Move(r.dx, r.dy)] <==> r.kind == "move"
    ensures ops == [Scroll(r.dx, r.dy)] <==> r.kind == "scroll"
    ensures ops == [Click] <==> r.kind == "click"
    ensures ops == [] <==> r.kind != "move" && r.kind != "scroll" && r.kind != "click"
  {
    if r.kind == "move" then [Move(r.dx, r.dy)]
    else if r.kind == "scroll" then [Scroll(r.dx, r.dy)]
    else if r.kind == "click" then [Click]
    else []
  }

  /** The session operations of the loop over `fs`, up to the first CLOSED or ERROR. */
  function Dispatch(fs: seq<Frame>): (ops: seq<Event>)
    ensures forall e :: e in ops ==> IsCommandOp(e)
    decreases |fs|
  {
    if fs == [] then []
    else match fs[0]
      case Text(r) => Operation(r) + Dispatch(fs[1..])
      case Other => Dispatch(fs[1..])
      case Closed => []
      case Error => []
  }

  /** What the handler does before the loop, up to and including `connect`. */
  const PRELUDE: seq<Event> := [SendStatus(CONNECTING), Subscribe, Connect]

  /** The whole trace of one handler run; `connectOk` says whether `connect` returned. */
  function HandlerTrace(fs: seq<Frame>, connectOk: bool): seq<Event> {
    if connectOk then PRELUDE + [SendStatus(CONNECTED)] + Dispatch(fs) + [Disconnect]
    else PRELUDE
  }

  /** The handler, frame by frame. */
  method Handle(fs: seq<Frame>, connectOk: bool) returns (trace: seq<Event>, outcome: Outcome)
    ensures trace == HandlerTrace(fs, connectOk)
    ensures outcome == Raised <==> !connectOk
  {
    trace := [SendStatus(CONNECTING)];
    trace := trace + [Subscribe];
    trace := trace + [Connect];
    if !connectOk {
      return trace, Raised;
    }
    trace := trace + [SendStatus(CONNECTED)];
    var i := 0;
    while i < |fs|
      invariant 0 <= i <= |fs|
      invariant trace + Dispatch(fs[i..]) == PRELUDE + [SendStatus(CONNECTED)] + Dispatch(fs)
    {
      match fs[i] {
        case Text(r) =>
          if r.kind == "move" {
            trace := trace + [Move(r.dx, r.dy)];
          } else if r.kind == "scroll" {
            trace := trace + [Scroll(r.dx, r.dy)];
          } else if r.kind == "click" {
            trace := trace + [Click];
          }
        case Closed =>
          break;
        case Error =>
          break;
        case Other =>
      }
      assert fs[i..][1..] == fs[i + 1..];
      i := i + 1;
    }
    trace := trace + [Disconnect];
    outcome := Returned;
  }

  // ---- properties of the dispatch loop ----

  /** Frames before any stop are dispatched in order: dispatch distributes over concatenation. */
  lemma {:induction false} DispatchAppend(a: seq<Frame>, b: seq<Frame>)
    requires NoStop(a)
    ensures Dispatch(a + b) == Dispatch(a) + Dispatch(b)
    decreases |a|
  {
    if a == [] {
      assert a + b == b;
    } else {
      assert (a + b)[0] == a[0];
      assert (a + b)[1..] == a[1..] + b;
      DispatchAppend(a[1..], b);
    }
  }

  /** A CLOSED or ERROR frame ends processing: no later frame is dispatched. */
  lemma {:induction false} StopIgnoresLater(before: seq<Frame>, stop: Frame, after: seq<Frame>)
    requires NoStop(before) && IsStop(stop)
    ensures Dispatch(before + [stop] + after) == Dispatch(before)
  {
    assert before + [stop] + after == before + ([stop] + after);
    DispatchAppend(before, [stop] + after);
    assert ([stop] + after)[0] == stop;
  }

  /** A message type the handler does not test falls through the loop with no effect. */
  lemma OtherSkipped(fs: seq<Frame>)
    ensures Dispatch([Other] + fs) == Dispatch(fs)
  {
    assert ([Other] + fs)[1..] == fs;
  }

  /** One text frame causes exactly the operation its type names. */
  lemma OneText(r: Protocol.Request)
    ensures Dispatch([Text(r)]) == Operation(r)
  {
    assert [Text(r)][1..] == [];
  }

  /** The order and position of the lifecycle events in a run whose connect succeeds. */
  lemma {:induction false} Lifecycle(fs: seq<Frame>)
    ensures var t := HandlerTrace(fs, true);
      && |t| >= 5
      && t[0] == SendStatus(CONNECTING) && t[2] == Connect && t[3] == SendStatus(CONNECTED)
      && t[|t| - 1] == Disconnect
      // connect and disconnect happen once each
      && (forall i :: 0 <= i < |t| && t[i] == Connect ==> i == 2)
      && (forall i :: 0 <= i < |t| && t[i] == Disconnect ==> i == |t| - 1)
      // every command operation comes after "Connected to TV" and before disconnect
      && (forall i :: 0 <= i < |t| && IsCommandOp(t[i]) ==> 3 < i < |t| - 1)
      // status is sent only before the loop
      && (forall i :: 0 <= i < |t| && t[i].SendStatus? ==> i == 0 || i == 3)
      // the operations in between are exactly the dispatched ones
      && t[4..|t| - 1] == Dispatch(fs)
  {
    var t := HandlerTrace(fs, true);
    var ops := Dispatch(fs);
    assert t == [SendStatus(CONNECTING), Subscribe, Connect, SendStatus(CONNECTED)] + ops + [Disconnect];
    forall i | 4 <= i < |t| - 1
      ensures IsCommandOp(t[i])
    {
      assert t[i] == ops[i - 4];
      assert ops[i - 4] in ops;
    }
  }

  /** A failed connect ends the handler: no "Connected to TV", no command, no disconnect. */
  lemma ConnectFailure(fs: seq<Frame>)
    ensures var t := HandlerTrace(fs, false);
      && t == [SendStatus(CONNECTING), Subscribe, Connect]
      && SendStatus(CONNECTED) !in t && Disconnect !in t
      && (forall e :: e in t ==> !IsCommandOp(e))
  {
  }

  // ---- from the page to the TV ----

  /** The text frames that carry the commands a page sent. */
  function Frames(cs: seq<Protocol.Command>): (fs: seq<Frame>)
    ensures |fs| == |cs| && NoStop(fs)
  {
    if cs == [] then [] else [Text(Protocol.Encode(cs[0]))] + Frames(cs[1..])
  }

  /** The TV operation each page command should cause; a long press causes none. */
  function Relayed(cs: seq<Protocol.Command>): seq<Event> {
    if cs == [] then []
    else
      var op := match cs[0]
        case Move(dx, dy) => [Move(dx, dy)]
        case Scroll(dx, dy) => [Scroll(dx, dy)]
        case Click => [Click]
        case LongPress => [];
      op + Relayed(cs[1..])
  }

  /**
   * End to end: the commands a page sends reach the TV as the same moves,
   * scrolls and clicks in the same order, and long presses are dropped.
   */
  lemma {:induction false} PageToTv(cs: seq<Protocol.Command>)
    ensures Dispatch(Frames(cs)) == Relayed(cs)
    decreases |cs|
  {
    if cs != [] {
      var fs := Frames(cs);
      assert fs[0] == Text(Protocol.Encode(cs[0]));
      assert fs[1..] == Frames(cs[1..]);
      PageToTv(cs[1..]);
    }
  }
}
