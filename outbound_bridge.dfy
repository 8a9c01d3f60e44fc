/** The `/outbound-media-stream` session: one Twilio media-stream socket,
    one ElevenLabs socket opened once a signed URL arrives, and the
    handlers that relay between them. `Step` is the meaning of one
    callback; `Session` is the per-connection object whose methods are
    proved to perform it; the lemmas speak of whole traces. */
module OutboundBridge {
  import opened Wire

  /** The per-call state: the closure variables, where the signed-URL
      request stands, whether the Twilio socket is open, and everything
      sent so far on each socket. */
  datatype State = State(
    streamSid: Js,
    callSid: Js,
    ai: AiSocket,
    setup: Setup,
    telephonyOpen: bool,
    toTwilio: seq<TwilioOut>,
    toAI: seq<AiOut>)

  /** A fresh connection: both ids null, signed-URL request in flight. */
  const Init := State(Null, Null, NoSocket, Pending, true, [], [])

  /** What the ElevenLabs `message` handler sends for one frame. Audio and
      interruptions reach Twilio only once `streamSid` is known; a ping with
      an id is answered by exactly one pong with that id; every other frame
      sends nothing. */
  function AiReaction(f: AiFrame, streamSid: Js): (r: Reaction)
    ensures |r.toTwilio| + |r.toAI| <= 1
    ensures forall m :: m in r.toTwilio ==> m.streamSid == streamSid && Truthy(streamSid)
    ensures r.toTwilio != [] <==> Truthy(streamSid) && (f.Interruption? || (f.Audio? && Truthy(f.chunk)))
    ensures f.Audio? && r.toTwilio != [] ==> r.toTwilio[0] == MediaOut(streamSid, f.chunk)
    ensures f.Interruption? && r.toTwilio != [] ==> r.toTwilio[0] == Clear(streamSid)
    ensures r.toAI != [] <==> f.Ping? && Truthy(f.eventId)
    ensures f.Ping? && r.toAI != [] ==> r.toAI == [Pong(f.eventId)]
  {
    match f
    case Audio(chunk, _) =>
      if Truthy(streamSid) && Truthy(chunk) then Reaction([MediaOut(streamSid, chunk)], []) else Reaction([], [])
    case Interruption =>
      if Truthy(streamSid) then Reaction([Clear(streamSid)], []) else Reaction([], [])
    case Ping(id) =>
      if Truthy(id) then Reaction([], [Pong(id)]) else Reaction([], [])
    case _ => Reaction([], [])
  }

  /** The Twilio `message` handler for one frame. A readable `start` takes
      both ids from the frame; a readable `media` is relayed unchanged only
      while the ElevenLabs socket is OPEN, and dropped otherwise; `stop`
      closes the ElevenLabs socket if there is one; nothing ever goes back
      to Twilio. */
  function TwilioReaction(s: State, f: TwilioFrame): (t: State)
    ensures t.toTwilio == s.toTwilio && t.setup == s.setup && t.telephonyOpen == s.telephonyOpen
    ensures f.Start? && f.start.Some? ==>
      t == s.(streamSid := f.start.value.streamSid, callSid := f.start.value.callSid)
    ensures !(f.Start? && f.start.Some?) ==> t.streamSid == s.streamSid && t.callSid == s.callSid
    ensures t.toAI != s.toAI <==> f.Media? && f.media.Some? && s.ai == Open
    ensures t.toAI != s.toAI ==> t.toAI == s.toAI + [UserAudioChunk(f.media.value)]
    ensures t.ai == (if f.Stop? then CloseAi(s.ai) else s.ai)
  {
    match f
    case Start(Some(body)) => s.(streamSid := body.streamSid, callSid := body.callSid)
    case Media(Some(payload)) =>
      if s.ai == Open then s.(toAI := s.toAI + [UserAudioChunk(payload)]) else s
    case Stop => s.(ai := CloseAi(s.ai))
    case _ => s
  }

  /** Events no handler of this file acts on: unknown and unreadable frames,
      an initiation-metadata frame (no case for it), and the two error
      events, which are only logged. */
  predicate Ignored(e: Event)
  {
    match e
    case TwilioMessage(f) => f.OtherEvent? || f.Malformed? || (f.Start? && f.start.None?) || (f.Media? && f.media.None?)
    case TwilioError => true
    case AiMessage(f) => f.OtherType? || f.Malformed? || f.InitiationMetadata?
    case AiError => true
    case _ => false
  }

  /** One callback. */
  function Step(s: State, e: Event): (t: State)
    ensures s.toTwilio <= t.toTwilio && s.toAI <= t.toAI
    ensures |t.toTwilio| + |t.toAI| <= |s.toTwilio| + |s.toAI| + 1
    ensures Ignored(e) ==> t == s
    ensures t.streamSid != s.streamSid || t.callSid != s.callSid ==>
      e.TwilioMessage? && e.frame.Start? && e.frame.start.Some?
    ensures e.TwilioClose? ==> t.ai == CloseAi(s.ai) && !t.telephonyOpen && t.toTwilio == s.toTwilio && t.toAI == s.toAI
    ensures t.ai != s.ai && t.ai != Closed ==>
      (s.setup == Pending && e.SignedUrl? && e.outcome.UrlOk? && t.ai == Connecting) ||
      (s.ai == Connecting && e.AiOpen? && t.ai == Open)
  {
    match e
    case TwilioMessage(f) => TwilioReaction(s, f)
    case TwilioClose => s.(ai := CloseAi(s.ai), telephonyOpen := false)
    case TwilioError => s
    case SignedUrl(o) =>
      if s.setup != Pending then s
      else if o.UrlOk? then s.(setup := Ready, ai := Connecting)
      else s.(setup := Failed)
    case AiOpen =>
      if s.ai == Connecting then s.(ai := Open, toAI := s.toAI + [InitiationClientData]) else s
    case AiMessage(f) =>
      if s.ai == NoSocket then s
      else
        var r := AiReaction(f, s.streamSid);
        s.(toTwilio := s.toTwilio + r.toTwilio, toAI := s.toAI + r.toAI)
    case AiError => s
    case AiClose => s.(ai := CloseAi(s.ai))
  }

  /** The state after a trace of callbacks, applied one at a time. */
  function Run(evs: seq<Event>): State
  {
    if evs == [] then Init else Step(Run(evs[..|evs| - 1]), evs[|evs| - 1])
  }

  /** What holds between callbacks: the ElevenLabs socket exists exactly once
      the signed URL has arrived, and nothing was sent to Twilio without a
      known stream id. */
  predicate Consistent(s: State)
  {
    && (s.ai == NoSocket <==> s.setup != Ready)
    && (forall m :: m in s.toTwilio ==> Truthy(m.streamSid))
    && (s.setup != Ready ==> s.toAI == [] && s.toTwilio == [])
  }

  /** The media-stream connection's closure state, updated in place by the
      socket callbacks. */
  class Session {
    var streamSid: Js
    var callSid: Js
    var ai: AiSocket
    var setup: Setup
    var telephonyOpen: bool
    var toTwilio: seq<TwilioOut>
    var toAI: seq<AiOut>

    function Snapshot(): State
      reads this
    {
      State(streamSid, callSid, ai, setup, telephonyOpen, toTwilio, toAI)
    }

    predicate Valid()
      reads this
    {
      Consistent(Snapshot())
    }

    constructor ()
      ensures Valid() && Snapshot() == Init
    {
      streamSid, callSid := Null, Null;
      ai, setup, telephonyOpen := NoSocket, Pending, true;
      toTwilio, toAI := [], [];
    }

    /** Twilio `message`. */
    method OnTwilioMessage(f: TwilioFrame)
      requires Valid()
      modifies this
      ensures Valid() && Snapshot() == Step(old(Snapshot()), TwilioMessage(f))
    {
      match f
      case Start(Some(body)) =>
        streamSid := body.streamSid;
        callSid := body.callSid;
      case Media(Some(payload)) =>
        if ai == Open {
          toAI := toAI + [UserAudioChunk(payload)];
        }
      case Stop =>
        ai := CloseAi(ai);
      case _ =>
    }

    /** Twilio `close`. */
    method OnTwilioClose()
      requires Valid()
      modifies this
      ensures Valid() && Snapshot() == Step(old(Snapshot()), TwilioClose)
    {
      telephonyOpen := false;
      ai := CloseAi(ai);
    }

    /** Twilio `error`: logged only. */
    method OnTwilioError()
      requires Valid()
      ensures Valid() && Snapshot() == Step(Snapshot(), TwilioError)
    {
    }

    /** The signed-URL request settles. On success the ElevenLabs socket is
        created; a failure is an unhandled rejection and changes nothing else. */
    method OnSignedUrl(o: UrlOutcome)
      requires Valid()
      modifies this
      ensures Valid() && Snapshot() == Step(old(Snapshot()), SignedUrl(o))
    {
      if setup == Pending {
        match o
        case UrlOk(_) =>
          setup := Ready;
          ai := Connecting;
        case UrlErr =>
          setup := Failed;
      }
    }

    /** ElevenLabs `open`: the initiation message goes out. */
    method OnAiOpen()
      requires Valid()
      modifies this
      ensures Valid() && Snapshot() == Step(old(Snapshot()), AiOpen)
    {
      if ai == Connecting {
        ai := Open;
        toAI := toAI + [InitiationClientData];
      }
    }

    /** ElevenLabs `message`. */
    method OnAiMessage(f: AiFrame)
      requires Valid()
      modifies this
      ensures Valid() && Snapshot() == Step(old(Snapshot()), AiMessage(f))
    {
      if ai != NoSocket {
        var r := AiReaction(f, streamSid);
        toTwilio := toTwilio + r.toTwilio;
        toAI := toAI + r.toAI;
      }
    }

    /** ElevenLabs `error`: logged only. */
    method OnAiError()
      requires Valid()
      ensures Valid() && Snapshot() == Step(Snapshot(), AiError)
    {
    }

    /** ElevenLabs `close`: logged only; the socket is now closed. */
    method OnAiClose()
      requires Valid()
      modifies this
      ensures Valid() && Snapshot() == Step(old(Snapshot()), AiClose)
    {
      ai := CloseAi(ai);
    }
  }

  // ---------------------------------------------------------------------
  // Traces

  lemma RunAppend(evs: seq<Event>, e: Event)
    ensures Run(evs + [e]) == Step(Run(evs), e)
  {
    assert (evs + [e])[..|evs|] == evs;
  }

  /** Every state a trace reaches is consistent. */
  lemma {:induction false} RunConsistent(evs: seq<Event>)
    ensures Consistent(Run(evs))
  {
    if evs != [] {
      var p := evs[..|evs| - 1];
      RunConsistent(p);
      var s := Run(p);
      var e := evs[|evs| - 1];
      if e.AiMessage? && s.ai != NoSocket {
        var r := AiReaction(e.aiFrame, s.streamSid);
        assert forall m :: m in s.toTwilio + r.toTwilio ==> m in s.toTwilio || m in r.toTwilio;
      }
    }
  }

  /** Nothing is invented: every message the bridge sent is built from a
      value some input frame carried. Audio and clears to Twilio use a stream
      id taken from a `start` frame, audio to Twilio carries an ElevenLabs
      chunk, audio to ElevenLabs carries a Twilio payload, and every pong
      echoes the truthy id of a ping. */
  lemma {:induction false} OutputsComeFromInputs(evs: seq<Event>)
    ensures Run(evs).streamSid == Null || Run(evs).streamSid in StartedSids(evs)
    ensures forall m :: m in Run(evs).toTwilio ==> Truthy(m.streamSid) && m.streamSid in StartedSids(evs)
    ensures forall m :: m in Run(evs).toTwilio && m.MediaOut? ==> m.payload in AudioChunks(evs)
    ensures forall m :: m in Run(evs).toAI && m.UserAudioChunk? ==> m.chunk in TwilioPayloads(evs)
    ensures forall m :: m in Run(evs).toAI && m.Pong? ==> Truthy(m.eventId) && m.eventId in PingIds(evs)
  {
    if evs != [] {
      var p := evs[..|evs| - 1];
      var e := evs[|evs| - 1];
      OutputsComeFromInputs(p);
      var s := Run(p);
      var t := Run(evs);
      assert StartedSids(p) <= StartedSids(evs);
      assert AudioChunks(p) <= AudioChunks(evs);
      assert TwilioPayloads(p) <= TwilioPayloads(evs);
      assert forall x :: x in PingIds(p) ==> x in PingIds(evs);
      if e.AiMessage? && s.ai != NoSocket {
        var r := AiReaction(e.aiFrame, s.streamSid);
        assert t.toTwilio == s.toTwilio + r.toTwilio && t.toAI == s.toAI + r.toAI;
        assert forall m :: m in t.toTwilio ==> m in s.toTwilio || m in r.toTwilio;
        assert forall m :: m in t.toAI ==> m in s.toAI || m in r.toAI;
        if e.aiFrame.Ping? && Truthy(e.aiFrame.eventId) {
          assert PingIds(evs) == PingIds(p) + [e.aiFrame.eventId];
        }
      }
    }
  }

  /** No audio and no clear reaches Twilio before a `start` frame carrying a
      stream id has been read: it is dropped, not queued. */
  lemma NothingToTwilioBeforeStart(evs: seq<Event>)
    requires forall x :: x in StartedSids(evs) ==> !Truthy(x)
    ensures Run(evs).toTwilio == []
  {
    OutputsComeFromInputs(evs);
    var out := Run(evs).toTwilio;
    assert forall i :: 0 <= i < |out| ==> out[i] in out;
  }

  /** The transport raises ElevenLabs events only for a socket that exists. */
  ghost predicate AiEventsNeedSocket(evs: seq<Event>)
  {
    forall i :: 0 <= i < |evs| && evs[i].FromAi() ==> Run(evs[..i]).ai != NoSocket
  }

  /** Every ping with an id is answered by exactly one pong with that id, in
      the order the pings came, and there are no other pongs. */
  lemma {:induction false} PongsAnswerPings(evs: seq<Event>)
    requires AiEventsNeedSocket(evs)
    ensures PongIds(Run(evs).toAI) == PingIds(evs)
  {
    if evs != [] {
      var p := evs[..|evs| - 1];
      var e := evs[|evs| - 1];
      assert AiEventsNeedSocket(p) by {
        forall i | 0 <= i < |p| && p[i].FromAi() ensures Run(p[..i]).ai != NoSocket {
          assert p[..i] == evs[..i];
        }
      }
      PongsAnswerPings(p);
      var s := Run(p);
      assert evs[..|evs| - 1] == p;
      match e
      case AiMessage(f) =>
        var r := AiReaction(f, s.streamSid);
        PongIdsAppend(s.toAI, r.toAI);
        assert PongIds(r.toAI) == (if f.Ping? && Truthy(f.eventId) then [f.eventId] else []) by {
          if r.toAI != [] {
            assert r.toAI[..0] == [];
          }
        }
      case AiOpen =>
        PongIdsAppend(s.toAI, [InitiationClientData]);
        assert [InitiationClientData][..0] == [];
      case TwilioMessage(f) =>
        if f.Media? && f.media.Some? && s.ai == Open {
          PongIdsAppend(s.toAI, [UserAudioChunk(f.media.value)]);
          assert [UserAudioChunk(f.media.value)][..0] == [];
        }
      case _ =>
    }
  }

  /** Dropping every event no handler acts on (malformed or unknown frames,
      error events) leaves the session exactly as it was: such frames never
      end the session and the next frame is handled as if they had not come. */
  function Relevant(evs: seq<Event>): (r: seq<Event>)
    ensures forall e :: e in r ==> !Ignored(e)
    ensures forall e :: e in r ==> e in evs
    ensures forall e :: e in evs && !Ignored(e) ==> e in r
  {
    if evs == [] then []
    else Relevant(evs[..|evs| - 1]) + (if Ignored(evs[|evs| - 1]) then [] else [evs[|evs| - 1]])
  }

  lemma {:induction false} IgnoredEventsChangeNothing(evs: seq<Event>)
    ensures Run(Relevant(evs)) == Run(evs)
  {
    if evs != [] {
      var p := evs[..|evs| - 1];
      var e := evs[|evs| - 1];
      IgnoredEventsChangeNothing(p);
      if Ignored(e) {
        assert Relevant(evs) == Relevant(p) + [];
        assert Relevant(p) + [] == Relevant(p);
      } else {
        RunAppend(Relevant(p), e);
      }
    }
  }

  /** The outboxes only grow: a later callback never retracts a send. */
  lemma {:induction false} OutboxesOnlyGrow(a: seq<Event>, b: seq<Event>)
    ensures Run(a).toTwilio <= Run(a + b).toTwilio
    ensures Run(a).toAI <= Run(a + b).toAI
    decreases |b|
  {
    if b == [] {
      assert a + b == a;
    } else {
      var b' := b[..|b| - 1];
      assert (a + b)[..|a + b| - 1] == a + b';
      OutboxesOnlyGrow(a, b');
    }
  }

  /** Once the ElevenLabs socket is closed it stays closed, and no caller
      audio and no initiation message is sent on it again; only pongs to
      pings still in flight can follow. */
  lemma {:induction false} ClosedAiSocketStaysClosed(a: seq<Event>, b: seq<Event>)
    requires Run(a).ai == Closed
    ensures Run(a + b).ai == Closed
    ensures Run(a).toAI <= Run(a + b).toAI
    ensures forall i :: |Run(a).toAI| <= i < |Run(a + b).toAI| ==> Run(a + b).toAI[i].Pong?
    decreases |b|
  {
    RunConsistent(a);
    if b == [] {
      assert a + b == a;
    } else {
      var b' := b[..|b| - 1];
      assert (a + b)[..|a + b| - 1] == a + b';
      ClosedAiSocketStaysClosed(a, b');
      RunConsistent(a + b');
    }
  }
}
