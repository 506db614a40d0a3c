/**
 * One round trip to the Atmosphere service, as `AtmosphereClient.request`
 * sees it, and the classification of its outcome into a resolved body or a
 * rejected error.
 */
module Http {
  import opened Promise
  import opened Decimal

  datatype Method = Post | Delete

  /** What the client sends: an HTTP method (`verb`) and a path on the service endpoint. */
  datatype HttpRequest = HttpRequest(verb: Method, path: string)

  /**
   * A parsed JSON body. The client reads only its optional `message` field;
   * everything else is carried through untouched as `payload`.
   */
  datatype Body = Body(message: Option<string>, payload: string)

  /**
   * What one request comes back with: a complete response, or a failure
   * raised on the request itself (connection refused, DNS, ...).
   */
  datatype Reply =
    | Response(statusCode: nat, statusMessage: Option<string>, body: Body)
    | ConnectionFailure(reason: string)

  const StatusOk: nat := 200
  const StatusLocked: nat := 423
  const UnknownError: string := "Unknown error"

  /** How `${res.statusMessage}` renders: the text, or "undefined" when absent. */
  function RenderStatusMessage(statusMessage: Option<string>): string {
    match statusMessage
    case Some(text) => text
    case None => "undefined"
  }

  /** The text of a service error: `<status> (<statusMessage>): <detail>`. */
  function ErrorText(statusCode: nat, statusMessage: Option<string>, detail: string): string {
    NatToString(statusCode) + " (" + RenderStatusMessage(statusMessage) + "): " + detail
  }

  /** The fixed text around the minutes in the timeout error. */
  const TimeoutPrefix := "Failed to acquire environment within "
  const TimeoutSuffix := " minutes"

  /** The text of the error `acquire` raises when its budget runs out. */
  function TimeoutText(timeoutMinutes: int): string {
    TimeoutPrefix + IntToString(timeoutMinutes) + TimeoutSuffix
  }

  /**
   * Every way a call can reject. A service error is the `Error` that
   * `request` tags with `statusCode`; the other two carry no status code.
   */
  datatype Error =
    | ServiceError(statusCode: nat, statusMessage: Option<string>, detail: string)
    | TransportError(message: string)
    | AcquireTimeout(timeoutMinutes: int)
  {
    /** The `statusCode` property of the thrown object, if it has one. */
    function StatusCode(): Option<nat> {
      if ServiceError? then Some(statusCode) else None
    }

    /** The `message` property of the thrown object. */
    function Message(): string {
      match this
      case ServiceError(code, statusMessage, detail) => ErrorText(code, statusMessage, detail)
      case TransportError(message) => message
      case AcquireTimeout(minutes) => TimeoutText(minutes)
    }
  }

  /** A 423 ("Locked") response: the service has no environment to hand out yet. */
  predicate IsLocked(reply: Reply) {
    reply.Response? && reply.statusCode == StatusLocked
  }

  /**
   * `request`: a 200 resolves with the parsed body, any other status rejects
   * with a service error carrying that status, and a failure of the request
   * itself rejects with that failure unchanged.
   */
  function Classify(reply: Reply): (r: Settled<Body, Error>)
    ensures r.Resolved? <==> reply.Response? && reply.statusCode == StatusOk
    ensures r.Resolved? ==> r.value == reply.body
    ensures reply.Response? && reply.statusCode != StatusOk ==>
      && r.Rejected?
      && r.error.StatusCode() == Some(reply.statusCode)
      && r.error.Message() == ErrorText(reply.statusCode, reply.statusMessage,
                                        reply.body.message.GetOr(UnknownError))
    ensures reply.ConnectionFailure? ==>
      r.Rejected? && r.error.StatusCode().None? && r.error.Message() == reply.reason
    ensures r.Rejected? ==> !r.error.AcquireTimeout?
    ensures (r.Rejected? && r.error.StatusCode() == Some(StatusLocked)) <==> IsLocked(reply)
  {
    match reply
    case Response(code, statusMessage, body) =>
      if code == StatusOk then Resolved(body)
      else Rejected(ServiceError(code, statusMessage, body.message.GetOr(UnknownError)))
    case ConnectionFailure(reason) => Rejected(TransportError(reason))
  }

  /**
   * The status code can be read back from the front of a service error's
   * text, and the service's detail from its end.
   */
  lemma ErrorTextParts(statusCode: nat, statusMessage: Option<string>, detail: string)
    ensures ParseLeadingNat(ErrorText(statusCode, statusMessage, detail)) == statusCode
    ensures var t := ErrorText(statusCode, statusMessage, detail);
      |t| >= |detail| && t[|t| - |detail|..] == detail
  {
    var rest := " (" + RenderStatusMessage(statusMessage) + "): " + detail;
    assert ErrorText(statusCode, statusMessage, detail) == NatToString(statusCode) + rest;
    ParseLeadingNatOfNatToString(statusCode, rest);
  }

  /** For a fixed status message, the error text determines the status code and the detail. */
  lemma ErrorTextInjective(c1: nat, c2: nat, statusMessage: Option<string>, d1: string, d2: string)
    requires ErrorText(c1, statusMessage, d1) == ErrorText(c2, statusMessage, d2)
    ensures c1 == c2 && d1 == d2
  {
    ErrorTextParts(c1, statusMessage, d1);
    ErrorTextParts(c2, statusMessage, d2);
    var t := ErrorText(c1, statusMessage, d1);
    assert |t| == |NatToString(c1)| + |RenderStatusMessage(statusMessage)| + 5 + |d1|;
    assert t[|t| - |d1|..] == d1 && t[|t| - |d2|..] == d2;
  }

  /** The timeout error names the configured number of minutes, which can be read back from it. */
  lemma TimeoutTextNamesMinutes(timeoutMinutes: int)
    ensures var t := TimeoutText(timeoutMinutes);
      |t| > |TimeoutPrefix| + |TimeoutSuffix|
      && ParseInt(t[|TimeoutPrefix|..|t| - |TimeoutSuffix|]) == timeoutMinutes
  {
    var t := TimeoutText(timeoutMinutes);
    assert t[|TimeoutPrefix|..|t| - |TimeoutSuffix|] == IntToString(timeoutMinutes);
    IntToStringRoundTrip(timeoutMinutes);
  }

  /**
   * Two concrete rejections: a 400 whose body says "Invalid Input", and a
   * 400 whose body has no message at all.
   */
  lemma ClassifyBadRequest(payload: string)
    ensures Classify(Response(400, Some("BadRequest"), Body(Some("Invalid Input"), payload))).error.Message()
         == "400 (BadRequest): Invalid Input"
    ensures Classify(Response(400, Some("BadRequest"), Body(None, payload))).error.Message()
         == "400 (BadRequest): Unknown error"
  {
    BadRequestText("Invalid Input");
    BadRequestText(UnknownError);
  }

  lemma BadRequestText(detail: string)
    ensures ErrorText(400, Some("BadRequest"), detail) == "400 (BadRequest): " + detail
  {
  }
}
