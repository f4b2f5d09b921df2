# lg_remote_mouse — gesture-to-command model

lg_remote_mouse turns a phone browser into a trackpad for an LG webOS TV. A page script collects
pan gestures and sends `move`, `scroll`, `click` and `longpress` messages over a WebSocket. A
Python relay turns those messages into pointer operations on a TV session. This project models
that path in Dafny and proves its rules.

- `Trackpad` (trackpad.dfy) models the page script. Its six accumulator variables are the fields
  of class `Accumulator`. The pan handlers and the 30 Hz tick are its methods. The tick drains the
  variables into at most one `move` or `scroll`. `Socket.Send` writes only while the socket is
  open. The pure step functions (`StartStep`, `MoveStep`, `EndStep`, `TickStep`) give each
  handler's effect on the value `Deltas`. `Run` replays a sequence of gestures, and the lemmas
  about gesture sequences are stated over it.
- `Relay` (relay.dfy) models `websocket_handler`. `Handle` is the frame loop and returns the
  trace of events it performs: status writes, callback registration, connect, move, scroll,
  click and disconnect. It is proved equal to `HandlerTrace`. The lifecycle lemmas are stated about `HandlerTrace`,
  and the dispatch lemmas about `Dispatch`, which it contains.
- `TvState` (tvstate.dfy) models `on_state_change`, the record update that empties `apps` and
  `inputs`.
- `Protocol` (protocol.dfy) holds the messages the page sends and the decoded object the relay
  reads. `Wrappers` (wrappers.dfy) holds `Option`, which stands for JavaScript's `null`.

In these places the code does something easy to misread, and the model follows the code:

- If only one axis of the pair a tick examines is non-zero, the tick clears that pair and sends
  nothing; it does not keep it for the next tick. The tick examines the move pair first, and the
  scroll pair only when the move pair is zero, so a one-axis scroll delta stays pending while a
  move is pending (lg_remote_mouse.py:119-133).
- The relay ignores `longpress`, like any other unknown type. It does not turn it into a click
  (lg_remote_mouse.py:162-167).
- A failed `client.connect()` sends no error status. Its exception leaves the handler without
  `disconnect` (lg_remote_mouse.py:156-157). `Handle` takes this as the `connectOk` parameter.
- A `panmove` with no `panstart` before it takes its step from 0, because JavaScript reads `x - null`
  as `x`. `NumberOr0` models this.

## Model

| member | source | states |
|---|---|---|
| `Protocol.Encode` | lg_remote_mouse.py:55-59 | each command gets its own `type` string; move and scroll carry their dx and dy |
| `Trackpad.TickStep` | lg_remote_mouse.py:118-135 | after a tick the move pair is zero; a pending move leaves the scroll pair alone; a move (or a scroll when no move is pending) is emitted iff both of its axes are non-zero, carrying exactly those values; at most one command is emitted; with all four accumulators zero, nothing changes and nothing is emitted |
| `Trackpad.Accumulator.constructor` | lg_remote_mouse.py:80-85 | all four accumulators start at 0 and lastX/lastY start as null |
| `Trackpad.Accumulator.PanStart` | lg_remote_mouse.py:88-91 | updates the fields in place to `StartStep` of the old state: the centre is recorded |
| `Trackpad.Accumulator.PanMove` | lg_remote_mouse.py:93-109 | updates the fields in place to `MoveStep` of the old state (see `PanMoveRoutes`) |
| `Trackpad.Accumulator.PanEnd` | lg_remote_mouse.py:111-114 | updates the fields in place to `EndStep` of the old state (see `PanEndClearsOnly`) |
| `Trackpad.Accumulator.Tick` | lg_remote_mouse.py:118-133 | the new fields and the returned command are exactly `TickStep` of the old fields |
| `Trackpad.Socket.Send` | lg_remote_mouse.py:55-59 | appends the encoded command when the socket is open; any other ready state leaves the socket unchanged |
| `Trackpad.OnTap` | lg_remote_mouse.py:70-72 | a tap sends `click` if the socket is open, and nothing otherwise |
| `Trackpad.OnPress` | lg_remote_mouse.py:75-77 | a press sends `longpress` if the socket is open, and nothing otherwise |
| `Trackpad.OnInterval` | lg_remote_mouse.py:118-135 | one interval firing drains the accumulators as `TickStep` does and passes its command, if any, to `send` |
| `Trackpad.PanMoveRoutes` | lg_remote_mouse.py:93-109 | with exactly 2 pointers the step from the last centre is added to the scroll pair and the move pair is unchanged; with any other count it is added to the move pair only; afterwards lastX/lastY are the event's centre |
| `Trackpad.PanEndClearsOnly` | lg_remote_mouse.py:111-114 | panend sets lastX/lastY to null and changes no accumulator |
| `Trackpad.SingleAxisDropped` | lg_remote_mouse.py:119-125 | a move pair with exactly one non-zero axis is cleared and nothing is sent |
| `Trackpad.TwoTicksDrain` | lg_remote_mouse.py:118-133 | two ticks with no gesture between them leave all four accumulators at zero, and a further tick sends nothing |
| `Trackpad.MovesTelescope` | lg_remote_mouse.py:93-109 | panmoves from a known centre through points p1..pn send nothing and add pn minus that centre to one pair |
| `Trackpad.Telescoping` | lg_remote_mouse.py:88-109 | panstart at p0, then panmoves to p1..pn with one pointer count, adds exactly pn - p0 to that count's pair, leaves the other pair unchanged and ends with the centre at pn |
| `Trackpad.MotionSentOnlyByTicks` | lg_remote_mouse.py:118-135 | in any gesture sequence, every move or scroll passed to `send` has two non-zero axes, and no more are passed than there were interval firings |
| `Relay.Operation` | lg_remote_mouse.py:162-167 | "move", "scroll" and "click" each cause exactly one matching session operation, carrying the frame's dx/dy; any other type, "longpress" included, causes none |
| `Relay.Dispatch` | lg_remote_mouse.py:159-173 | the loop performs only move/scroll/click operations |
| `Relay.Handle` | lg_remote_mouse.py:148-177 | the imperative frame loop yields exactly `HandlerTrace`; it ends by exception exactly when connect fails |
| `Relay.DispatchAppend` | lg_remote_mouse.py:159-167 | frames before a stop are dispatched in frame order: dispatching a + b is dispatching a, then b |
| `Relay.StopIgnoresLater` | lg_remote_mouse.py:168-173 | a CLOSED or ERROR frame ends processing; no frame after it is dispatched |
| `Relay.OtherSkipped` | lg_remote_mouse.py:160-173 | a frame whose type the handler does not test has no effect: dispatch carries on from the next frame |
| `Relay.OneText` | lg_remote_mouse.py:160-167 | a single text frame causes exactly `Operation` of its payload |
| `Relay.Lifecycle` | lg_remote_mouse.py:152-175 | "Connecting to TV..." comes first and precedes connect; "Connected to TV" follows connect and precedes every command operation; connect and disconnect occur once each; disconnect is the last event; between "Connected to TV" and disconnect come exactly the dispatched operations |
| `Relay.ConnectFailure` | lg_remote_mouse.py:152-157 | if connect raises, the trace ends at connect, with no "Connected to TV", no command and no disconnect |
| `Relay.PageToTv` | lg_remote_mouse.py:159-167 | the commands a page sends reach the TV as the same moves, scrolls and clicks in the same order; long presses are dropped |
| `TvState.OnStateChange` | lg_remote_mouse.py:142-146 | the result has empty `apps` and `inputs`; every other field is the input's |
| `TvState.FilterForgetsOnlyLists` | lg_remote_mouse.py:145 | two states filter to the same result iff they agree on every field except `apps` and `inputs` |
| `TvState.FilterIdempotent` | lg_remote_mouse.py:145 | filtering an already filtered state changes nothing |

## Left out

- The HTML, the CSS and the status-text DOM updates (lg_remote_mouse.py:8-53): these are user interface only.
- Hammer.js gesture recognition: tap count, the 600 ms press threshold and pan detection (lg_remote_mouse.py:62-67). The library's internals are not part of this model. Its recognised gestures are inputs (`Gesture`), and tap and press only call `send`.
- The `setInterval` timer and the asyncio event loop: ticks and frames are explicit sequential events.
- The browser socket's open/close transitions and the `onopen`/`onclose`/`onmessage` handlers: `readyState` is set when the socket is constructed.
- The `button: "left"` field of click and longpress messages: the relay never reads it.
- JSON encoding and decoding, and malformed frames. A frame that fails `json.loads`, that is not a JSON object, that lacks `type`, or that is a `move`/`scroll` frame lacking `dx` or `dy`, makes the handler raise. The model assumes decoded, well-formed frames.
- Exceptions raised by `move`, `scroll` or `click` on the TV session: these are foreign calls.
- aiohttp's iterator over the socket, which can also end by itself (for example at a close frame): the frame sequence ends where that iterator ends, and every message type that the handler does not test is `Other`.
- The `print` calls on CLOSED and ERROR frames, and `ws.prepare`: these are I/O.
- aiohttp's and aiowebostv's internals: the session is replaced by trace events. aiowebostv's state dataclass is not part of this model, so `TvState.State` has representative fields. The callback discards its filtered state, and the model returns it.
- Config loading, `WebOsClient` construction from `tv_ip`/`client_key`, server setup and `main` (lg_remote_mouse.py:179-190): these are file and network I/O.
- Floating-point coordinates: JavaScript numbers are floats, but the model uses integers so that sums and telescoping are exact.
