/**
 * The messages the trackpad page sends to the relay over the WebSocket.
 * The page builds `{type, ...payload}` and the relay reads `data["type"]`,
 * `data["dx"]` and `data["dy"]` from the decoded object.
 */
module Protocol {

  /** What the page script passes to `send(type, payload)`. */
  datatype Command =
    | Move(dx: int, dy: int)
    | Scroll(dx: int, dy: int)
    | Click
    | LongPress

  /**
   * A decoded client-to-server object as the relay reads it. For "click" and
   * "longpress" the page sends no dx/dy (only `button: "left"`, which the relay
   * never reads); those carry 0 here and the relay does not look at them.
   */
  datatype Request = Request(kind: string, dx: int, dy: int)

  /** The object `send` serialises for a command. */
  function Encode(c: Command): (r: Request)
    ensures r.kind == "move" <==> c.Move?
    ensures r.kind == "scroll" <==> c.Scroll?
    ensures r.kind == "click" <==> c.Click?
    ensures r.kind == "longpress" <==> c.LongPress?
    ensures (c.Move? || c.Scroll?) ==> r.dx == c.dx && r.dy == c.dy
  {
    match c
    case Move(dx, dy) => Request("move", dx, dy)
    case Scroll(dx, dy) => Request("scroll", dx, dy)
    case Click => Request("click", 0, 0)
    case LongPress => Request("longpress", 0, 0)
  }
}
