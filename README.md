# Twilio ↔ ElevenLabs media bridge, modelled in Dafny

This project models the per-call core of a voice bridge between Twilio's media streams and an ElevenLabs conversational-AI agent. It covers both of its variants:

- **outbound-calls.js**: the `/outbound-call` request gate, and the `/outbound-media-stream` session for calls the service places.
- **inbound-calls.js**: the `/media-stream` session for calls that ring in.

Each session is a small sequential state machine. Its state is:

- the stream id, plus the call id in the outbound variant;
- the ElevenLabs socket handle (`NoSocket | Connecting | Open | Closed`);
- how far the one signed-URL request has got (`Pending | Ready | Failed`);
- whether the Twilio socket is still open;
- two outboxes: everything `send` was called with, on the Twilio socket and on the ElevenLabs socket.

Node runs the socket callbacks one at a time. So each callback is one `Event`, and a call is a sequence of events.

The model has these parts:

- `Wire` (wire.dfy) holds the decoded frames, the outgoing messages and the socket events. A JSON value is `Js`, with JavaScript truthiness. This makes the source's `if (x)` and `x?.y` guards exact: an `event_id` of 0 and an empty chunk are falsy, and `error.code === 21408` matches only the number.
- `OutboundGate` (outbound_gate.dfy) holds the password and number checks and the mapping from a `calls.create` error to an HTTP reply.
- `OutboundBridge` (outbound_bridge.dfy) and `InboundBridge` (inbound_bridge.dfy) each have the following:
  - pure translation functions (`AiReaction`, `HandleElevenLabsMessage`, `TwilioReaction`);
  - `Step`, the meaning of one callback, and `Run`, a fold of `Step` over a trace;
  - a `Session` class whose fields are the closure variables. It has one method per socket handler, and each method is proved to perform `Step` and to keep the invariant `Consistent`;
  - lemmas over whole traces, proved by induction.
- `Scenarios` (scenarios.dfy) holds concrete traces: the relay round trips, and the points where the two variants differ.

The code does the following, which a symmetric bridge would not, and the model follows the code:

- **ElevenLabs closing or erroring.** Neither variant closes the Twilio socket when this happens. Those handlers only log (outbound-calls.js:139-140, inbound-calls.js:105-111).
- **Inbound audio before `start`.** The inbound variant does not drop audio or clears that arrive before `start`. It sends them with a null `streamSid` (`Scenarios.InterruptionBeforeStart`).
- **Outbound signed-URL failure.** A failed signed-URL request in the outbound variant is an unhandled promise rejection: no handler of the bridge closes either socket (`Scenarios.SignedUrlFailure`). What Node does with the rejection itself is outside the model (see "Left out").
- **Inbound `start` during setup.** In the inbound variant the Twilio handlers are attached only after the signed URL has arrived and the ElevenLabs socket exists. A `start` frame that arrives during that wait is lost, and later audio goes out with a null stream id (`Scenarios.StartDuringSetup`).
- **Twilio close during setup.** In both variants, a Twilio close that happens before the signed URL arrives does not stop the ElevenLabs socket from being created afterwards (`Scenarios.TwilioCloseDuringSetupLeavesAiSocket`).

## Model

| member | source | states |
|---|---|---|
| `Wire.CloseAi` | outbound-calls.js:162 | `ws?.close()`: an existing socket ends up neither OPEN nor CONNECTING; a missing socket stays missing; closing a closed socket changes nothing |
| `OutboundGate.CheckRequest` | outbound-calls.js:43-50 | 401 iff the password is falsy or differs from the configured one (so a bad password gets 401 whatever the number); 400 iff the password matches and the number is falsy; otherwise dial exactly the given number; the fixed error texts |
| `OutboundGate.CallFailureReply` | outbound-calls.js:64-78 | 403 iff the error code is the number 21408, with the fixed geo-permissions text; otherwise 500 with `error.message` when truthy, else "Failed to initiate call"; always `success: false` |
| `OutboundGate.HandleOutboundCall` | outbound-calls.js:42-79 | a missing or null body gets 500 and nothing is dialled; otherwise `calls.create` is invoked, with the request's number, iff the gate passes; a refused request gets exactly `CheckRequest`'s reply (401 for a bad password, else 400 for a missing number); 200 with the call sid iff the call was created; a thrown error gets `CallFailureReply` |
| `OutboundBridge.AiReaction` | outbound-calls.js:115-137 | at most one message per frame; nothing reaches Twilio unless `streamSid` is truthy; audio is forwarded as media iff `streamSid` and `audio.chunk` are truthy, with the chunk unchanged; an interruption gives one clear iff `streamSid` is truthy; a ping gets exactly one pong with its id iff the id is truthy; other frames send nothing |
| `OutboundBridge.TwilioReaction` | outbound-calls.js:145-168 | a readable `start` sets both ids and changes nothing else; other frames keep the ids; caller audio is appended to the ElevenLabs outbox iff the frame has `media` and the socket is OPEN, as exactly one `user_audio_chunk` with the payload unchanged; `stop` closes the ElevenLabs socket if it exists; nothing is sent to Twilio |
| `OutboundBridge.Step` | outbound-calls.js:99-173 | outboxes only grow, by at most one message per callback; ignored events change nothing; only a readable `start` changes the ids; a Twilio close closes the ElevenLabs socket and sends nothing; the socket is created only by the first successful signed URL and opened only from CONNECTING |
| `OutboundBridge.Session.constructor` | outbound-calls.js:99-101 | a new connection has null ids, no ElevenLabs socket and empty outboxes |
| `OutboundBridge.Session.OnTwilioMessage` | outbound-calls.js:145-168 | performs `Step` for a Twilio frame and keeps `Consistent` |
| `OutboundBridge.Session.OnTwilioClose` | outbound-calls.js:170-173 | performs `Step` for the Twilio close: the ElevenLabs socket is closed if it exists |
| `OutboundBridge.Session.OnTwilioError` | outbound-calls.js:103 | the Twilio error handler changes nothing |
| `OutboundBridge.Session.OnSignedUrl` | outbound-calls.js:105-107 | performs `Step` for the settled signed-URL request: success creates a connecting socket, failure creates none |
| `OutboundBridge.Session.OnAiOpen` | outbound-calls.js:109-113 | performs `Step` for `open`: the socket becomes OPEN and the initiation message is sent |
| `OutboundBridge.Session.OnAiMessage` | outbound-calls.js:115-137 | performs `Step` for an ElevenLabs frame, sending what `AiReaction` gives |
| `OutboundBridge.Session.OnAiError` | outbound-calls.js:139 | the ElevenLabs error handler changes nothing |
| `OutboundBridge.Session.OnAiClose` | outbound-calls.js:140 | performs `Step` for the ElevenLabs close: only the socket state changes |
| `OutboundBridge.RunConsistent` | outbound-calls.js:99-173 | in every reachable state, the socket exists iff the signed URL arrived; nothing was sent before that; every frame sent to Twilio has a truthy stream id |
| `OutboundBridge.OutputsComeFromInputs` | outbound-calls.js:115-168 | over any trace: every frame sent to Twilio is addressed to a stream id taken from a `start` frame; media to Twilio carries an ElevenLabs chunk; audio to ElevenLabs carries a Twilio payload; every pong echoes a truthy ping id |
| `OutboundBridge.NothingToTwilioBeforeStart` | outbound-calls.js:119-127 | if no `start` has carried a truthy stream id, nothing at all has been sent to Twilio: early audio is dropped, not queued |
| `OutboundBridge.PongsAnswerPings` | outbound-calls.js:128-132 | when ElevenLabs events come only from an existing socket (as the transport guarantees), the pong ids sent are exactly the truthy ping ids received, in order |
| `OutboundBridge.IgnoredEventsChangeNothing` | outbound-calls.js:115-168 | with the helper `Relevant` (the trace's non-ignored events, all of them and only them), removing every malformed or unknown frame and every error event from a trace leaves the final state unchanged: such frames never end the session or disturb later ones |
| `OutboundBridge.OutboxesOnlyGrow` | outbound-calls.js:115-173 | what was sent stays sent: each outbox after a prefix of a trace is a prefix of the outbox after the whole trace |
| `OutboundBridge.ClosedAiSocketStaysClosed` | outbound-calls.js:154-162 | once the ElevenLabs socket is closed it stays closed whatever follows, and only pongs are ever sent on it again (no caller audio, no initiation) |
| `InboundBridge.HandleElevenLabsMessage` | inbound-calls.js:54-86 | at most one message per frame; audio is forwarded as media iff `audio_event.audio_base_64` is truthy, with the payload unchanged and the current `streamSid`, even when it is null; an interruption always gives exactly one clear; a ping gets exactly one pong with its id iff the id is truthy; metadata and other frames send nothing |
| `InboundBridge.TwilioReaction` | inbound-calls.js:113-141 | a readable `start` sets `streamSid` and changes nothing else; caller audio is appended iff the frame has `media` and the socket exists and is OPEN, as one `user_audio_chunk` with the payload unchanged; `stop` closes the socket if it exists; nothing is sent to Twilio |
| `InboundBridge.Step` | inbound-calls.js:47-162 | outboxes only grow, by at most one message; ignored events change nothing; before setup succeeds no Twilio frame has any effect; once it has, stop, close and error close the ElevenLabs socket; a failed signed URL closes the Twilio socket; the socket is created only by the first successful signed URL |
| `InboundBridge.Session.constructor` | inbound-calls.js:50-51 | a new connection has a null stream id, no ElevenLabs socket and empty outboxes |
| `InboundBridge.Session.OnSignedUrl` | inbound-calls.js:88-162 | performs `Step` for the settled signed-URL request: success creates the socket and attaches the Twilio handlers; failure closes the ElevenLabs socket if it exists, and closes the Twilio socket |
| `InboundBridge.Session.OnTwilioMessage` | inbound-calls.js:113-141 | performs `Step` for a Twilio frame, which does nothing before setup has succeeded |
| `InboundBridge.Session.OnTwilioClose` | inbound-calls.js:143-148 | performs `Step` for the Twilio close |
| `InboundBridge.Session.OnTwilioError` | inbound-calls.js:150-155 | performs `Step` for the Twilio error: the ElevenLabs socket is closed if it exists |
| `InboundBridge.Session.OnAiOpen` | inbound-calls.js:92-94 | performs `Step` for `open`: the socket becomes OPEN and nothing is sent |
| `InboundBridge.Session.OnAiMessage` | inbound-calls.js:96-103 | performs `Step` for an ElevenLabs frame, sending what `HandleElevenLabsMessage` gives |
| `InboundBridge.Session.OnAiError` | inbound-calls.js:105-107 | the ElevenLabs error handler changes nothing |
| `InboundBridge.Session.OnAiClose` | inbound-calls.js:109-111 | performs `Step` for the ElevenLabs close: only the socket state changes |
| `InboundBridge.RunConsistent` | inbound-calls.js:88-162 | in every reachable state, the socket exists iff the signed URL arrived; before that nothing was sent and the stream id is null; after a failure the Twilio socket is closed |
| `InboundBridge.FailedSetupRelaysNothing` | inbound-calls.js:156-162 | after a failed signed-URL request, whatever frames still arrive: the Twilio socket is closed, no ElevenLabs socket exists, and both outboxes stay empty |
| `InboundBridge.OutputsComeFromInputs` | inbound-calls.js:54-141 | over any trace: frames to Twilio are addressed to null or to a stream id from a `start`; media to Twilio carries a truthy ElevenLabs base64 payload; audio to ElevenLabs carries a Twilio payload; every pong echoes a truthy ping id |
| `InboundBridge.PongsAnswerPings` | inbound-calls.js:74-82 | when ElevenLabs events come only from an existing socket, the pong ids sent are exactly the truthy ping ids received, in order |
| `InboundBridge.IgnoredEventsChangeNothing` | inbound-calls.js:54-141 | with the helper `Relevant` (the trace's non-ignored events, all of them and only them), removing every malformed, unknown or metadata frame and every ElevenLabs error from a trace leaves the final state unchanged |
| `InboundBridge.ClosedAiSocketStaysClosed` | inbound-calls.js:121-134 | once the ElevenLabs socket is closed it stays closed, and only pongs are sent on it again |
| `Scenarios.OutboundAudioRoundTrip` | outbound-calls.js:119-124 | `start` with stream id "SIDX", then ElevenLabs audio `p`: exactly `[media("SIDX", p)]` goes to Twilio |
| `Scenarios.OutboundCallerAudioRelayed` | outbound-calls.js:154-159 | caller audio `q` on an open socket goes to ElevenLabs as exactly one `user_audio_chunk` `q`, after the initiation message |
| `Scenarios.OutboundCallerAudioDroppedWhileConnecting` | outbound-calls.js:154-159 | caller audio that arrives while the socket is connecting is dropped, not queued |
| `Scenarios.InterruptionBeforeStart` | inbound-calls.js:71-73 | before any `start`, an interruption gives nothing in the outbound variant and a clear with a null stream id in the inbound one |
| `Scenarios.StartDuringSetup` | inbound-calls.js:88-120 | a `start` during the signed-URL wait is kept by the outbound variant and lost by the inbound one, whose later audio goes out with a null stream id |
| `Scenarios.TwilioCloseDuringSetupLeavesAiSocket` | outbound-calls.js:143-173 | a Twilio close before the signed URL arrives still leaves, in both variants, an ElevenLabs socket created and connecting |
| `Scenarios.SignedUrlFailure` | inbound-calls.js:156-162 | a failed signed URL closes the Twilio socket in the inbound variant; in the outbound one no handler closes it (assuming the process survives the unhandled rejection); neither creates an ElevenLabs socket |

## Left out

- **Unhandled rejection (outbound).** `setupElevenLabs()` is called without a `.catch`, so a failed signed-URL request is an unhandled promise rejection, which by default ends the Node process and with it every call. The model assumes the process survives it: the session simply never gets an ElevenLabs socket.
- **Request body (outbound).** A missing or null body makes the route throw, and fastify answers 500 with its default error payload. The model gives that reply its status only; the payload is not modelled.
- **Signed-URL fetch (both files).** An input event, `SignedUrl(UrlOk(url) | UrlErr)`. The HTTP request, its headers and its JSON body are not modelled. `UrlErr` also covers a `new WebSocket` that throws on a bad URL: in both cases no socket is ever assigned.
- **Twilio `calls.create` (outbound).** An input, `CallOutcome`. TwiML templating for both routes is a fixed string and is not modelled.
- **JSON parsing and serialisation.** Frames are decoded variants. Unreadable inputs are one `Malformed` case: a parse failure, or a body that throws when its properties are read. Objects and arrays are one `Js` case, and numbers are integers.
- **WebSocket library, fastify routing, promise scheduling.** Callbacks are atomic steps in an arbitrary order. The ws library's CLOSING state is folded into `Closed`. Whether the library delivers a `send` on a socket that is no longer open is not modelled: the outboxes record the calls to `send`.
- **Error events with no listener.** The model does not capture those raised before the inbound handlers are attached, or a thrown error that is null in the outbound catch block.
- **Logging.** `console.*` output is not modelled.
- **Configuration.** Environment variables and the startup check are process configuration and are not modelled. The gate takes the configured password as a parameter and accepts any string, `""` included; only one `CheckRequest` clause is stated for the non-empty password the startup check guarantees.
- **Initiation configuration override.** The initiation message carries no content beyond its type, as in the source.
- **Audio content and base64.** Payloads are opaque values passed through unchanged.
