/** The HTTP side of `/outbound-call`: the password and number checks in
    front of the Twilio REST call, and the reply built from that call's
    outcome. The REST call itself is an input (`CallOutcome`). */
module OutboundGate {
  import opened Wire

  const UnauthorizedMessage := "Unauthorized: invalid password"
  const NumberRequiredMessage := "Phone number is required"
  const GeoPermissionsMessage :=
    "Account not authorized to call this destination. Enable permissions at https://www.twilio.com/console/voice/calls/geo-permissions/low-risk"
  const DefaultFailureMessage := "Failed to initiate call"

  /** Twilio's error code for a destination outside the account's geographic permissions. */
  const GeoPermissionsCode := 21408

  /** The JSON body of a reply. */
  datatype ReplyBody =
    | ErrorOnly(error: Js)            // {error}
    | Initiated(callSid: Js)          // {success: true, message: "Call initiated", callSid}
    | Failure(error: Js)              // {success: false, error}

  datatype Reply = Reply(status: int, body: ReplyBody)

  /** The `code` and `message` properties of the error `calls.create` threw. */
  datatype CallError = CallError(code: Js, message: Js)

  /** What `calls.create` does when it is invoked. */
  datatype CallOutcome = Created(sid: Js) | Threw(err: CallError)

  /** The gate's verdict: dial this number, or answer at once. */
  datatype Gate = Dial(number: Js) | Refuse(reply: Reply)

  /** The checks on the request body `{number, password}`: the password is
      checked first, so a request with a bad password is refused with 401
      whatever its number; only then does a missing number get 400. */
  function CheckRequest(number: Js, password: Js, configured: string): (g: Gate)
    ensures g.Refuse? && g.reply.status == 401 <==> !Truthy(password) || password != Str(configured)
    ensures g.Refuse? && g.reply.status == 400 <==> password == Str(configured) && configured != "" && !Truthy(number)
    ensures g.Dial? <==> password == Str(configured) && configured != "" && Truthy(number)
    ensures g.Dial? ==> g.number == number
    ensures g.Refuse? && g.reply.status == 401 ==> g.reply.body == ErrorOnly(Str(UnauthorizedMessage))
    ensures g.Refuse? && g.reply.status == 400 ==> g.reply.body == ErrorOnly(Str(NumberRequiredMessage))
    // with the non-empty password the startup check demands, only an exact match passes
    ensures configured != "" ==> (g.Refuse? && g.reply.status == 401 <==> password != Str(configured))
  {
    if !Truthy(password) || password != Str(configured) then
      Refuse(Reply(401, ErrorOnly(Str(UnauthorizedMessage))))
    else if !Truthy(number) then
      Refuse(Reply(400, ErrorOnly(Str(NumberRequiredMessage))))
    else
      Dial(number)
  }

  /** The reply to a `calls.create` that threw: the geo-permissions code gets
      403 and a fixed explanation; anything else gets 500 with the error's own
      message, or a default text when the message is missing or empty. */
  function CallFailureReply(e: CallError): (r: Reply)
    ensures r.status == 403 <==> e.code == Num(GeoPermissionsCode)
    ensures r.status == 403 || r.status == 500
    ensures r.body.Failure?
    ensures r.status == 403 ==> r.body.error == Str(GeoPermissionsMessage)
    ensures r.status == 500 && Truthy(e.message) ==> r.body.error == e.message
    ensures r.status == 500 && !Truthy(e.message) ==> r.body.error == Str(DefaultFailureMessage)
  {
    if e.code == Num(GeoPermissionsCode) then
      Reply(403, Failure(Str(GeoPermissionsMessage)))
    else
      Reply(500, Failure(if Truthy(e.message) then e.message else Str(DefaultFailureMessage)))
  }

  /** The result of handling one `/outbound-call` request: the number
      `calls.create` was asked to dial, if it was invoked, and the reply. */
  datatype Handled = Handled(dialed: Option<Js>, reply: Reply)

  /** The parsed request body's `number` and `password` properties. */
  datatype RequestBody = RequestBody(number: Js, password: Js)

  /** The status fastify answers with when the route handler throws; its
      default error payload is not modelled. */
  const InternalErrorStatus := 500

  /** The whole `/outbound-call` handler. `body` is None when the request has
      no body (or a null one): destructuring it throws, and fastify answers
      500 without any check or call. `outcome` is what `calls.create` does if
      the gate lets the request through. */
  function HandleOutboundCall(body: Option<RequestBody>, configured: string, outcome: CallOutcome): (h: Handled)
    ensures body.None? ==> h.dialed.None? && h.reply.status == InternalErrorStatus
    ensures body.Some? ==>
      (h.dialed.Some? <==> body.value.password == Str(configured) && configured != "" && Truthy(body.value.number))
    ensures body.Some? && h.dialed.Some? ==> h.dialed.value == body.value.number
    ensures body.Some? && h.dialed.None? ==>
      h.reply == CheckRequest(body.value.number, body.value.password, configured).reply
    ensures body.Some? && h.dialed.None? ==> h.reply.status == 400 || h.reply.status == 401
    ensures h.reply.status == 200 <==> h.dialed.Some? && outcome.Created?
    ensures h.reply.status == 200 ==> h.reply.body == Initiated(outcome.sid)
    ensures h.dialed.Some? && outcome.Threw? ==> h.reply == CallFailureReply(outcome.err)
  {
    match body
    case None => Handled(None, Reply(InternalErrorStatus, Failure(Undefined)))
    case Some(RequestBody(number, password)) =>
      match CheckRequest(number, password, configured)
      case Refuse(reply) => Handled(None, reply)
      case Dial(to) =>
        match outcome
        case Created(sid) => Handled(Some(to), Reply(200, Initiated(sid)))
        case Threw(err) => Handled(Some(to), CallFailureReply(err))
  }
}
