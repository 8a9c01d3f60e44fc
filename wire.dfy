/** Values, frames and socket events shared by the inbound and the outbound
    Twilio <-> ElevenLabs media bridge. Frames are modelled already decoded:
    JSON parsing is outside the model, and a frame the handlers cannot read
    is the `Malformed` variant. */
module Wire {

  datatype Option<T> = None | Some(value: T)

  /** A JSON value as a handler sees it after parsing. Objects and arrays are
      not looked into by the handlers, so they are one case. */
  datatype Js = Undefined | Null | Bool(b: bool) | Num(n: int) | Str(s: string) | Composite

  /** JavaScript truthiness, as the `if (x)` and `x?.y` guards use it. */
  predicate Truthy(v: Js)
  {
    match v
    case Undefined => false
    case Null => false
    case Bool(b) => b
    case Num(n) => n != 0
    case Str(s) => s != ""
    case Composite => true
  }

  /** The `start` object of a Twilio `start` frame. */
  datatype StartBody = StartBody(streamSid: Js, callSid: Js)

  /** A frame on the Twilio media-stream socket, by its `event` field. */
  datatype TwilioFrame =
    | Start(start: Option<StartBody>)   // None: `start` is missing or null, so reading it throws
    | Media(media: Option<Js>)          // Some(payload): `media.payload`; None: `media` missing or null
    | Stop
    | OtherEvent                        // any other `event` value
    | Malformed                         // JSON.parse threw, or the value was null

  /** A frame on the ElevenLabs socket, by its `type` field. */
  datatype AiFrame =
    | Audio(chunk: Js, audioBase64: Js) // `audio?.chunk` and `audio_event?.audio_base_64`
    | Interruption
    | Ping(eventId: Js)                 // `ping_event?.event_id`
    | InitiationMetadata                // `conversation_initiation_metadata`
    | OtherType
    | Malformed

  /** Messages the bridge sends on the Twilio socket. */
  datatype TwilioOut =
    | MediaOut(streamSid: Js, payload: Js)   // {event: "media", streamSid, media: {payload}}
    | Clear(streamSid: Js)                   // {event: "clear", streamSid}

  /** Messages the bridge sends on the ElevenLabs socket. */
  datatype AiOut =
    | InitiationClientData                   // {type: "conversation_initiation_client_data"}
    | UserAudioChunk(chunk: Js)              // {user_audio_chunk: payload}
    | Pong(eventId: Js)                      // {type: "pong", event_id}

  /** The ElevenLabs socket handle: not yet created, or the socket's ready
      state. A socket whose close has begun (CLOSING) is `Closed` here: it
      fails the OPEN guard and a further close does nothing. */
  datatype AiSocket = NoSocket | Connecting | Open | Closed

  /** The outcome of asking ElevenLabs for a signed conversation URL and
      creating the socket for it. */
  datatype UrlOutcome = UrlOk(url: string) | UrlErr

  /** Where the one signed-URL request of a call stands. */
  datatype Setup = Pending | Ready | Failed

  /** One callback run by Node's event loop for one call. */
  datatype Event =
    | TwilioMessage(frame: TwilioFrame)
    | TwilioClose
    | TwilioError
    | SignedUrl(outcome: UrlOutcome)
    | AiOpen
    | AiMessage(aiFrame: AiFrame)
    | AiError
    | AiClose
  {
    /** Events raised by the ElevenLabs socket, which exist only once it does. */
    predicate FromAi()
    {
      AiOpen? || AiMessage? || AiError? || AiClose?
    }
  }

  /** What one handler sends on each socket. */
  datatype Reaction = Reaction(toTwilio: seq<TwilioOut>, toAI: seq<AiOut>)

  /** `elevenLabsWs?.close()`: a socket that exists ends up closed, closing it
      again changes nothing, and a missing socket stays missing. */
  function CloseAi(a: AiSocket): (r: AiSocket)
    ensures r == NoSocket <==> a == NoSocket
    ensures r != Open && r != Connecting
    ensures a == Closed ==> r == a
  {
    if a == NoSocket then NoSocket else Closed
  }

  /** The ids of the pongs in an outbox, in the order they were sent. */
  function PongIds(out: seq<AiOut>): seq<Js>
  {
    if out == [] then []
    else PongIds(out[..|out| - 1]) + (if out[|out| - 1].Pong? then [out[|out| - 1].eventId] else [])
  }

  lemma {:induction false} PongIdsAppend(a: seq<AiOut>, b: seq<AiOut>)
    ensures PongIds(a + b) == PongIds(a) + PongIds(b)
    decreases |b|
  {
    if b == [] {
      assert a + b == a;
    } else {
      var b' := b[..|b| - 1];
      assert (a + b)[..|a + b| - 1] == a + b';
      assert (a + b)[|a + b| - 1] == b[|b| - 1];
      PongIdsAppend(a, b');
    }
  }

  /** The ids of the ElevenLabs pings in a trace that carry a truthy id, in order. */
  function PingIds(evs: seq<Event>): seq<Js>
  {
    if evs == [] then []
    else
      PingIds(evs[..|evs| - 1]) +
      (match evs[|evs| - 1]
       case AiMessage(Ping(id)) => if Truthy(id) then [id] else []
       case _ => [])
  }

  /** The stream ids carried by the readable Twilio `start` frames of a trace. */
  function StartedSids(evs: seq<Event>): set<Js>
  {
    if evs == [] then {}
    else
      StartedSids(evs[..|evs| - 1]) +
      (match evs[|evs| - 1]
       case TwilioMessage(Start(Some(body))) => {body.streamSid}
       case _ => {})
  }

  /** The payloads of the readable Twilio `media` frames of a trace. */
  function TwilioPayloads(evs: seq<Event>): set<Js>
  {
    if evs == [] then {}
    else
      TwilioPayloads(evs[..|evs| - 1]) +
      (match evs[|evs| - 1]
       case TwilioMessage(Media(Some(p))) => {p}
       case _ => {})
  }

  /** `audio.chunk` of the ElevenLabs audio frames of a trace (outbound schema). */
  function AudioChunks(evs: seq<Event>): set<Js>
  {
    if evs == [] then {}
    else
      AudioChunks(evs[..|evs| - 1]) +
      (match evs[|evs| - 1]
       case AiMessage(Audio(c, _)) => {c}
       case _ => {})
  }

  /** `audio_event.audio_base_64` of the ElevenLabs audio frames of a trace
      (inbound schema). */
  function AudioBase64s(evs: seq<Event>): set<Js>
  {
    if evs == [] then {}
    else
      AudioBase64s(evs[..|evs| - 1]) +
      (match evs[|evs| - 1]
       case AiMessage(Audio(_, b)) => {b}
       case _ => {})
  }
}
