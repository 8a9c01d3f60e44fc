/** The `/media-stream` session for inbound calls. Unlike the outbound one,
    the connection handler first awaits the signed URL and creates the
    ElevenLabs socket, and only then attaches the Twilio handlers: until
    then Twilio frames, closes and errors reach no handler of the bridge.
    Audio and clears go to Twilio whether or not `streamSid` is known. */
module InboundBridge {
  import opened Wire

  /** The per-call state: the closure variables, where the signed-URL
      request stands, whether the Twilio socket is open, and everything
      sent so far on each socket. */
  datatype State = State(
    streamSid: Js,
    ai: AiSocket,
    setup: Setup,
    telephonyOpen: bool,
    toTwilio: seq<TwilioOut>,
    toAI: seq<AiOut>)

  /** A fresh connection: no stream id, signed-URL request in flight. */
  const Init := State(Null, NoSocket, Pending, true, [], [])

  /** `handleElevenLabsMessage`: what one ElevenLabs frame makes the bridge
      send. Audio with a base64 payload becomes a Twilio media frame and an
      interruption a clear, both addressed to the current `streamSid` even
      when it is still null; a ping with an id gets exactly one pong with that
      id; initiation metadata and every other frame send nothing. */
  function HandleElevenLabsMessage(f: AiFrame, streamSid: Js): (r: Reaction)
    ensures |r.toTwilio| + |r.toAI| <= 1
    ensures forall m :: m in r.toTwilio ==> m.streamSid == streamSid
    ensures r.toTwilio != [] <==> f.Interruption? || (f.Audio? && Truthy(f.audioBase64))
    ensures f.Audio? && r.toTwilio != [] ==> r.toTwilio[0] == MediaOut(streamSid, f.audioBase64)
    ensures f.Interruption? ==> r.toTwilio == [Clear(streamSid)]
    ensures r.toAI != [] <==> f.Ping? && Truthy(f.eventId)
    ensures f.Ping? && r.toAI != [] ==> r.toAI == [Pong(f.eventId)]
  {
    match f
    case InitiationMetadata => Reaction([], [])
    case Audio(_, b64) =>
      if Truthy(b64) then Reaction([MediaOut(streamSid, b64)], []) else Reaction([], [])
    case Interruption => Reaction([Clear(streamSid)], [])
    case Ping(id) =>
      if Truthy(id) then Reaction([], [Pong(id)]) else Reaction([], [])
    case _ => Reaction([], [])
  }

  /** The Twilio `message` handler for one frame, once attached. A readable
      `start` sets `streamSid`; a readable `media` is relayed unchanged only
      while the ElevenLabs socket exists and is OPEN, and dropped otherwise;
      `stop` closes the ElevenLabs socket if there is one; nothing ever goes
      back to Twilio. */
  function TwilioReaction(s: State, f: TwilioFrame): (t: State)
    ensures t.toTwilio == s.toTwilio && t.setup == s.setup && t.telephonyOpen == s.telephonyOpen
    ensures f.Start? && f.start.Some? ==> t == s.(streamSid := f.start.value.streamSid)
    ensures !(f.Start? && f.start.Some?) ==> t.streamSid == s.streamSid
    ensures t.toAI != s.toAI <==> f.Media? && f.media.Some? && s.ai == Open
    ensures t.toAI != s.toAI ==> t.toAI == s.toAI + [UserAudioChunk(f.media.value)]
    ensures t.ai == (if f.Stop? then CloseAi(s.ai) else s.ai)
  {
    match f
    case Start(Some(body)) => s.(streamSid := body.streamSid)
    case Media(Some(payload)) =>
      if s.ai != NoSocket && s.ai == Open then s.(toAI := s.toAI + [UserAudioChunk(payload)]) else s
    case Stop =>
      if s.ai != NoSocket then s.(ai := CloseAi(s.ai)) else s
    case _ => s
  }

  /** Events no handler of this file acts on: unknown and unreadable frames,
      initiation metadata, and the ElevenLabs error event, which is only
      logged. (A Twilio error is not among them: it closes the ElevenLabs
      socket.) */
  predicate Ignored(e: Event)
  {
    match e
    case TwilioMessage(f) => f.OtherEvent? || f.Malformed? || (f.Start? && f.start.None?) || (f.Media? && f.media.None?)
    case AiMessage(f) => f.OtherType? || f.Malformed? || f.InitiationMetadata?
    case AiError => true
    case _ => false
  }

  /** One callback. */
  function Step(s: State, e: Event): (t: State)
    ensures s.toTwilio <= t.toTwilio && s.toAI <= t.toAI
    ensures |t.toTwilio| + |t.toAI| <= |s.toTwilio| + |s.toAI| + 1
    ensures Ignored(e) ==> t == s
    ensures t.streamSid != s.streamSid ==> e.TwilioMessage? && e.frame.Start? && e.frame.start.Some? && s.setup == Ready
    // before setup has succeeded no Twilio frame is acted on
    ensures s.setup != Ready && e.TwilioMessage? ==> t == s
    // teardown: once the Twilio handlers are attached, stop, close and error close the ElevenLabs socket
    ensures s.setup == Ready && (e.TwilioClose? || e.TwilioError? || e == TwilioMessage(Stop)) ==>
      t.ai == CloseAi(s.ai) && t.toTwilio == s.toTwilio && t.toAI == s.toAI
    ensures e.TwilioClose? ==> !t.telephonyOpen
    // a failed signed-URL request closes the Twilio socket
    ensures s.setup == Pending && e == SignedUrl(UrlErr) ==> t.setup == Failed && !t.telephonyOpen && t.ai == CloseAi(s.ai)
    ensures t.ai != s.ai && t.ai != Closed ==>
      (s.setup == Pending && e.SignedUrl? && e.outcome.UrlOk? && t.ai == Connecting) ||
      (s.ai == Connecting && e.AiOpen? && t.ai == Open)
  {
    match e
    case TwilioMessage(f) => if s.setup == Ready then TwilioReaction(s, f) else s
    case TwilioClose =>
      var t := s.(telephonyOpen := false);
      if s.setup == Ready && s.ai != NoSocket then t.(ai := CloseAi(s.ai)) else t
    case TwilioError =>
      if s.setup == Ready && s.ai != NoSocket then s.(ai := CloseAi(s.ai)) else s
    case SignedUrl(o) =>
      if s.setup != Pending then s
      else if o.UrlOk? then s.(setup := Ready, ai := Connecting)
      else
        var t := if s.ai != NoSocket then s.(ai := CloseAi(s.ai)) else s;
        t.(setup := Failed, telephonyOpen := false)
    case AiOpen => if s.ai == Connecting then s.(ai := Open) else s
    case AiMessage(f) =>
      if s.ai == NoSocket then s
      else
        var r := HandleElevenLabsMessage(f, s.streamSid);
        s.(toTwilio := s.toTwilio + r.toTwilio, toAI := s.toAI + r.toAI)
    case AiError => s
    case AiClose => s.(ai := CloseAi(s.ai))
  }

  /** The state after a trace of callbacks, applied one at a time. */
  function Run(evs: seq<Event>): State
  {
    if evs == [] then Init else Step(Run(evs[..|evs| - 1]), evs[|evs| - 1])
  }

  /** What holds between callbacks: the ElevenLabs socket exists exactly once
      the signed URL has arrived; until then nothing has been sent; after a
      failed request the Twilio socket is closed. */
  predicate Consistent(s: State)
  {
    && (s.ai == NoSocket <==> s.setup != Ready)
    && (s.setup != Ready ==> s.toAI == [] && s.toTwilio == [] && s.streamSid == Null)
    && (s.setup == Failed ==> !s.telephonyOpen)
  }

  /** The media-stream connection's closure state, updated in place by the
      socket callbacks. */
  class Session {
    var streamSid: Js
    var ai: AiSocket
    var setup: Setup
    var telephonyOpen: bool
    var toTwilio: seq<TwilioOut>
    var toAI: seq<AiOut>

    function Snapshot(): State
      reads this
    {
      State(streamSid, ai, setup, telephonyOpen, toTwilio, toAI)
    }

    predicate Valid()
      reads this
    {
      Consistent(Snapshot())
    }

    constructor ()
      ensures Valid() && Snapshot() == Init
    {
      streamSid := Null;
      ai, setup, telephonyOpen := NoSocket, Pending, true;
      toTwilio, toAI := [], [];
    }

    /** The settled signed-URL request. On success the ElevenLabs socket is
        created and the Twilio handlers attached; on failure the ElevenLabs
        socket is closed if it was created, and the Twilio socket is closed. */
    method OnSignedUrl(o: UrlOutcome)
      requires Valid()
      modifies this
      ensures Valid() && Snapshot() == Step(old(Snapshot()), SignedUrl(o))
    {
      if setup == Pending {
        match o
        case UrlOk(_) =>
          setup := Ready;
          ai := Connecting;
        case UrlErr =>
          // `if (elevenLabsWs) elevenLabsWs.close()`: no socket was created yet
          ai := if ai != NoSocket then CloseAi(ai) else ai;
          setup := Failed;
          telephonyOpen := false;
      }
    }

    /** Twilio `message`; before setup succeeds no handler is attached. */
    method OnTwilioMessage(f: TwilioFrame)
      requires Valid()
      modifies this
      ensures Valid() && Snapshot() == Step(old(Snapshot()), TwilioMessage(f))
    {
      if setup != Ready {
        return;
      }
      match f
      case Start(Some(body)) =>
        streamSid := body.streamSid;
      case Media(Some(payload)) =>
        if ai != NoSocket && ai == Open {
          toAI := toAI + [UserAudioChunk(payload)];
        }
      case Stop =>
        if ai != NoSocket {
          ai := CloseAi(ai);
        }
      case _ =>
    }

    /** Twilio `close`: the socket is gone; the handler, once attached,
        closes the ElevenLabs socket. */
    method OnTwilioClose()
      requires Valid()
      modifies this
      ensures Valid() && Snapshot() == Step(old(Snapshot()), TwilioClose)
    {
      telephonyOpen := false;
      if setup == Ready && ai != NoSocket {
        ai := CloseAi(ai);
      }
    }

    /** Twilio `error`: the handler, once attached, closes the ElevenLabs socket. */
    method OnTwilioError()
      requires Valid()
      modifies this
      ensures Valid() && Snapshot() == Step(old(Snapshot()), TwilioError)
    {
      if setup == Ready && ai != NoSocket {
        ai := CloseAi(ai);
      }
    }

    /** ElevenLabs `open`: logged only; the socket is now OPEN. */
    method OnAiOpen()
      requires Valid()
      modifies this
      ensures Valid() && Snapshot() == Step(old(Snapshot()), AiOpen)
    {
      if ai == Connecting {
        ai := Open;
      }
    }

    /** ElevenLabs `message`: `handleElevenLabsMessage` applied to the frame. */
    method OnAiMessage(f: AiFrame)
      requires Valid()
      modifies this
      ensures Valid() && Snapshot() == Step(old(Snapshot()), AiMessage(f))
    {
      if ai != NoSocket {
        var r := HandleElevenLabsMessage(f, streamSid);
        toTwilio := toTwilio + r.toTwilio;
        toAI := toAI + r.toAI;
      }
    }

    /** ElevenLabs `error`: logged only. */
    method OnAiError()
      requires Valid()
      ensures Valid() && Snapshot() == Step(Snapshot(), AiError)
    {
    }

    /** ElevenLabs `close`: logged only; the socket is now closed. */
    method OnAiClose()
      requires Valid()
      modifies this
      ensures Valid() && Snapshot() == Step(old(Snapshot()), AiClose)
    {
      ai := CloseAi(ai);
    }
  }

  // ---------------------------------------------------------------------
  // Traces

  lemma RunAppend(evs: seq<Event>, e: Event)
    ensures Run(evs + [e]) == Step(Run(evs), e)
  {
    assert (evs + [e])[..|evs|] == evs;
  }

  /** Every state a trace reaches is consistent. */
  lemma {:induction false} RunConsistent(evs: seq<Event>)
    ensures Consistent(Run(evs))
  {
    if evs != [] {
      RunConsistent(evs[..|evs| - 1]);
    }
  }

  /** A failed signed-URL request ends the bridge: the Twilio socket is
      closed, no ElevenLabs socket exists, and nothing is ever relayed in
      either direction, whatever frames still arrive. */
  lemma {:induction false} FailedSetupRelaysNothing(a: seq<Event>, b: seq<Event>)
    requires Run(a).setup == Failed
    ensures Run(a + b).setup == Failed
    ensures Run(a + b).ai == NoSocket && !Run(a + b).telephonyOpen
    ensures Run(a + b).toTwilio == [] && Run(a + b).toAI == []
    decreases |b|
  {
    if b == [] {
      assert a + b == a;
      RunConsistent(a);
    } else {
      var b' := b[..|b| - 1];
      assert (a + b)[..|a + b| - 1] == a + b';
      FailedSetupRelaysNothing(a, b');
    }
  }

  /** Nothing is invented: media frames to Twilio carry an ElevenLabs base64
      payload, every frame to Twilio is addressed to null or to a stream id
      read from a `start` frame, audio to ElevenLabs carries a Twilio payload,
      and every pong echoes the truthy id of a ping. */
  lemma {:induction false} OutputsComeFromInputs(evs: seq<Event>)
    ensures Run(evs).streamSid == Null || Run(evs).streamSid in StartedSids(evs)
    ensures forall m :: m in Run(evs).toTwilio ==> m.streamSid == Null || m.streamSid in StartedSids(evs)
    ensures forall m :: m in Run(evs).toTwilio && m.MediaOut? ==> Truthy(m.payload) && m.payload in AudioBase64s(evs)
    ensures forall m :: m in Run(evs).toAI && m.UserAudioChunk? ==> m.chunk in TwilioPayloads(evs)
    ensures forall m :: m in Run(evs).toAI && m.Pong? ==> Truthy(m.eventId) && m.eventId in PingIds(evs)
  {
    if evs != [] {
      var p := evs[..|evs| - 1];
      var e := evs[|evs| - 1];
      OutputsComeFromInputs(p);
      var s := Run(p);
      var t := Run(evs);
      assert StartedSids(p) <= StartedSids(evs);
      assert AudioBase64s(p) <= AudioBase64s(evs);
      assert TwilioPayloads(p) <= TwilioPayloads(evs);
      assert forall x :: x in PingIds(p) ==> x in PingIds(evs);
      if e.AiMessage? && s.ai != NoSocket {
        var r := HandleElevenLabsMessage(e.aiFrame, s.streamSid);
        assert t.toTwilio == s.toTwilio + r.toTwilio && t.toAI == s.toAI + r.toAI;
        assert forall m :: m in t.toTwilio ==> m in s.toTwilio || m in r.toTwilio;
        assert forall m :: m in t.toAI ==> m in s.toAI || m in r.toAI;
        if e.aiFrame.Ping? && Truthy(e.aiFrame.eventId) {
          assert PingIds(evs) == PingIds(p) + [e.aiFrame.eventId];
        }
      }
    }
  }

  /** The transport raises ElevenLabs events only for a socket that exists. */
  ghost predicate AiEventsNeedSocket(evs: seq<Event>)
  {
    forall i :: 0 <= i < |evs| && evs[i].FromAi() ==> Run(evs[..i]).ai != NoSocket
  }

  /** Every ping with an id is answered by exactly one pong with that id, in
      the order the pings came, and there are no other pongs. */
  lemma {:induction false} PongsAnswerPings(evs: seq<Event>)
    requires AiEventsNeedSocket(evs)
    ensures PongIds(Run(evs).toAI) == PingIds(evs)
  {
    if evs != [] {
      var p := evs[..|evs| - 1];
      var e := evs[|evs| - 1];
      assert AiEventsNeedSocket(p) by {
        forall i | 0 <= i < |p| && p[i].FromAi() ensures Run(p[..i]).ai != NoSocket {
          assert p[..i] == evs[..i];
        }
      }
      PongsAnswerPings(p);
      var s := Run(p);
      match e
      case AiMessage(f) =>
        var r := HandleElevenLabsMessage(f, s.streamSid);
        PongIdsAppend(s.toAI, r.toAI);
        assert PongIds(r.toAI) == (if f.Ping? && Truthy(f.eventId) then [f.eventId] else []) by {
          if r.toAI != [] {
            assert r.toAI[..0] == [];
          }
        }
      case TwilioMessage(f) =>
        if s.setup == Ready && f.Media? && f.media.Some? && s.ai == Open {
          PongIdsAppend(s.toAI, [UserAudioChunk(f.media.value)]);
          assert [UserAudioChunk(f.media.value)][..0] == [];
        }
      case _ =>
    }
  }

  /** Dropping every event no handler acts on leaves the session exactly as
      it was: malformed or unknown frames never end the session, and the
      next frame is handled as if they had not come. */
  function Relevant(evs: seq<Event>): (r: seq<Event>)
    ensures forall e :: e in r ==> !Ignored(e)
    ensures forall e :: e in r ==> e in evs
    ensures forall e :: e in evs && !Ignored(e) ==> e in r
  {
    if evs == [] then []
    else Relevant(evs[..|evs| - 1]) + (if Ignored(evs[|evs| - 1]) then [] else [evs[|evs| - 1]])
  }

  lemma {:induction false} IgnoredEventsChangeNothing(evs: seq<Event>)
    ensures Run(Relevant(evs)) == Run(evs)
  {
    if evs != [] {
      var p := evs[..|evs| - 1];
      var e := evs[|evs| - 1];
      IgnoredEventsChangeNothing(p);
      if Ignored(e) {
        assert Relevant(evs) == Relevant(p) + [];
        assert Relevant(p) + [] == Relevant(p);
      } else {
        RunAppend(Relevant(p), e);
      }
    }
  }

  /** Once the ElevenLabs socket is closed it stays closed, and no caller
      audio is sent on it again; only pongs to pings still in flight can
      follow. */
  lemma {:induction false} ClosedAiSocketStaysClosed(a: seq<Event>, b: seq<Event>)
    requires Run(a).ai == Closed
    ensures Run(a + b).ai == Closed
    ensures Run(a).toAI <= Run(a + b).toAI
    ensures forall i :: |Run(a).toAI| <= i < |Run(a + b).toAI| ==> Run(a + b).toAI[i].Pong?
    decreases |b|
  {
    RunConsistent(a);
    if b == [] {
      assert a + b == a;
    } else {
      var b' := b[..|b| - 1];
      assert (a + b)[..|a + b| - 1] == a + b';
      ClosedAiSocketStaysClosed(a, b');
      RunConsistent(a + b');
    }
  }
}
