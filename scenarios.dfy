/** Concrete call traces: the relay round trips, and the places where the
    inbound and the outbound bridge behave differently. */
module Scenarios {
  import opened Wire
  import Out = OutboundBridge
  import In = InboundBridge

  /** Outbound: a `start` with stream id "SIDX" followed by ElevenLabs audio
      with chunk `p` sends exactly one media frame, addressed to "SIDX" and
      carrying `p` unchanged. */
  lemma OutboundAudioRoundTrip(url: string, callSid: Js, p: Js, b64: Js)
    requires Truthy(p)
    ensures Out.Run([SignedUrl(UrlOk(url)), AiOpen,
                     TwilioMessage(Start(Some(StartBody(Str("SIDX"), callSid)))),
                     AiMessage(Audio(p, b64))]).toTwilio
            == [MediaOut(Str("SIDX"), p)]
  {
    var e1, e2, e3, e4 := SignedUrl(UrlOk(url)), AiOpen,
      TwilioMessage(Start(Some(StartBody(Str("SIDX"), callSid)))), AiMessage(Audio(p, b64));
    Out.RunAppend([], e1);
    Out.RunAppend([e1], e2);
    Out.RunAppend([e1, e2], e3);
    Out.RunAppend([e1, e2, e3], e4);
    assert [e1, e2] == [e1] + [e2];
    assert [e1, e2, e3] == [e1, e2] + [e3];
    assert [e1, e2, e3, e4] == [e1, e2, e3] + [e4];
  }

  /** Outbound: caller audio `q` is relayed as exactly one `user_audio_chunk`
      once the ElevenLabs socket is open, after the initiation message. */
  lemma OutboundCallerAudioRelayed(url: string, q: Js)
    ensures Out.Run([SignedUrl(UrlOk(url)), AiOpen, TwilioMessage(Media(Some(q)))]).toAI
            == [InitiationClientData, UserAudioChunk(q)]
  {
    var e1, e2, e3 := SignedUrl(UrlOk(url)), AiOpen, TwilioMessage(Media(Some(q)));
    Out.RunAppend([], e1);
    Out.RunAppend([e1], e2);
    Out.RunAppend([e1, e2], e3);
    assert [e1, e2] == [e1] + [e2];
    assert [e1, e2, e3] == [e1, e2] + [e3];
  }

  /** Outbound: caller audio arriving while the ElevenLabs socket is still
      connecting is dropped, not queued: opening it later sends only the
      initiation message. */
  lemma OutboundCallerAudioDroppedWhileConnecting(url: string, q: Js)
    ensures Out.Run([SignedUrl(UrlOk(url)), TwilioMessage(Media(Some(q))), AiOpen]).toAI
            == [InitiationClientData]
  {
    var e1, e2, e3 := SignedUrl(UrlOk(url)), TwilioMessage(Media(Some(q))), AiOpen;
    Out.RunAppend([], e1);
    Out.RunAppend([e1], e2);
    Out.RunAppend([e1, e2], e3);
    assert [e1, e2] == [e1] + [e2];
    assert [e1, e2, e3] == [e1, e2] + [e3];
  }

  /** An interruption before any `start`: the outbound bridge sends nothing,
      the inbound one sends a clear addressed to a null stream id. */
  lemma InterruptionBeforeStart(url: string)
    ensures Out.Run([SignedUrl(UrlOk(url)), AiOpen, AiMessage(Interruption)]).toTwilio == []
    ensures In.Run([SignedUrl(UrlOk(url)), AiOpen, AiMessage(Interruption)]).toTwilio == [Clear(Null)]
  {
    var e1, e2, e3 := SignedUrl(UrlOk(url)), AiOpen, AiMessage(Interruption);
    Out.RunAppend([], e1);
    Out.RunAppend([e1], e2);
    Out.RunAppend([e1, e2], e3);
    In.RunAppend([], e1);
    In.RunAppend([e1], e2);
    In.RunAppend([e1, e2], e3);
    assert [e1, e2] == [e1] + [e2];
    assert [e1, e2, e3] == [e1, e2] + [e3];
  }

  /** A `start` that arrives while the signed URL is still being fetched:
      the outbound bridge records it and addresses later audio to it; the
      inbound bridge has no Twilio handler yet, loses it, and addresses
      later audio to a null stream id. */
  lemma StartDuringSetup(url: string, sid: Js, callSid: Js, audio: Js)
    requires Truthy(sid) && Truthy(audio)
    ensures Out.Run([TwilioMessage(Start(Some(StartBody(sid, callSid)))), SignedUrl(UrlOk(url)),
                     AiOpen, AiMessage(Audio(audio, audio))]).toTwilio
            == [MediaOut(sid, audio)]
    ensures In.Run([TwilioMessage(Start(Some(StartBody(sid, callSid)))), SignedUrl(UrlOk(url)),
                    AiOpen, AiMessage(Audio(audio, audio))]).toTwilio
            == [MediaOut(Null, audio)]
  {
    var e1, e2, e3, e4 := TwilioMessage(Start(Some(StartBody(sid, callSid)))), SignedUrl(UrlOk(url)),
      AiOpen, AiMessage(Audio(audio, audio));
    Out.RunAppend([], e1);
    Out.RunAppend([e1], e2);
    Out.RunAppend([e1, e2], e3);
    Out.RunAppend([e1, e2, e3], e4);
    In.RunAppend([], e1);
    In.RunAppend([e1], e2);
    In.RunAppend([e1, e2], e3);
    In.RunAppend([e1, e2, e3], e4);
    assert [e1, e2] == [e1] + [e2];
    assert [e1, e2, e3] == [e1, e2] + [e3];
    assert [e1, e2, e3, e4] == [e1, e2, e3] + [e4];
  }

  /** In both bridges, a Twilio socket that closes before the signed URL
      arrives does not stop the ElevenLabs socket from being created
      afterwards: it is left connecting with no Twilio side. */
  lemma TwilioCloseDuringSetupLeavesAiSocket(url: string)
    ensures Out.Run([TwilioClose, SignedUrl(UrlOk(url))]).ai == Connecting
    ensures !Out.Run([TwilioClose, SignedUrl(UrlOk(url))]).telephonyOpen
    ensures In.Run([TwilioClose, SignedUrl(UrlOk(url))]).ai == Connecting
    ensures !In.Run([TwilioClose, SignedUrl(UrlOk(url))]).telephonyOpen
  {
    var e1, e2 := TwilioClose, SignedUrl(UrlOk(url));
    Out.RunAppend([], e1);
    Out.RunAppend([e1], e2);
    In.RunAppend([], e1);
    In.RunAppend([e1], e2);
    assert [e1, e2] == [e1] + [e2];
  }

  /** A failed signed-URL request: the inbound bridge closes the Twilio
      socket; the outbound one leaves it open with no ElevenLabs side. */
  lemma SignedUrlFailure()
    ensures !In.Run([SignedUrl(UrlErr)]).telephonyOpen && In.Run([SignedUrl(UrlErr)]).ai == NoSocket
    ensures Out.Run([SignedUrl(UrlErr)]).telephonyOpen && Out.Run([SignedUrl(UrlErr)]).ai == NoSocket
  {
    Out.RunAppend([], SignedUrl(UrlErr));
    In.RunAppend([], SignedUrl(UrlErr));
  }
}
