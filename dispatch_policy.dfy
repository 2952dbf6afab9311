/**
 * The response policy of one dispatch exchange. The network is a script of
 * abstract exchanges, one consumed per request issued: a gateway status
 * (502, 503, 504) on the first response earns exactly one retry of the same
 * request; 429 becomes the distinct "busy" error; any other status but 200
 * becomes an HTTP error carrying that status; only a final 200 goes on to
 * decoding.
 */
module DispatchPolicy {
  import opened Wrappers
  import opened Text
  import opened PilotActions

  /** The decoded JSON envelope of a 200 reply (`BackendResponse`). */
  datatype BackendResponse = BackendResponse(
    transcript: string,
    reply: string,
    audioB64: Option<string>,
    audioMime: Option<string>,
    action: Option<PilotAction>)

  /** What `sendToBackend` hands back (`BackendResult`): the audio as bytes rather than base64. */
  datatype BackendResult = BackendResult(
    transcript: string,
    reply: string,
    audioData: Option<Bytes>,
    audioMime: Option<string>,
    action: Option<PilotAction>)

  /**
   * One request's fate. `Response` is an HTTP response with its status code,
   * its body as UTF-8 text (`None` when not valid UTF-8) and what the JSON
   * decoder makes of it; `NoResponse` is a thrown transport error, or a
   * response that is not an HTTP response.
   */
  datatype Exchange =
    | Response(statusCode: nat, bodyText: Option<string>, decoded: Result<BackendResponse, string>)
    | NoResponse(description: string)

  /** The errors a dispatch can end with. */
  datatype DispatchError =
    | AudioUnreadable(description: string)   // the recorded file could not be read
    | Transport(description: string)         // the request threw
    | Busy                                   // HTTP 429
    | HttpStatus(code: nat, bodyText: string) // any other status but 200
    | Undecodable(description: string)       // a 200 whose JSON did not decode

  /**
   * `localizedDescription` of each error. An HTTP error's message is
   * "HTTP ", the status in decimal, ": " and the body text, so the status
   * can be read back from the message.
   */
  function Description(e: DispatchError): (m: string)
    ensures e.HttpStatus? ==>
      var n := |Decimal(e.code)|;
      && 5 + n <= |m| && m[..5] == "HTTP "
      && (forall k :: 5 <= k < 5 + n ==> '0' <= m[k] <= '9')
      && DecimalValue(m[5..5 + n]) == e.code
      && m[5 + n..] == ": " + e.bodyText
  {
    match e
    case AudioUnreadable(d) => d
    case Transport(d) => d
    case Busy => "Dispatch is busy. Try again in a moment."
    case HttpStatus(code, text) =>
      HttpMessageReadsBack(code, text);
      "HTTP " + Decimal(code) + ": " + text
    case Undecodable(d) => d
  }

  /** The parts of an HTTP error's message: the prefix, the status digits, which read back as the status, and the body text. */
  lemma HttpMessageReadsBack(code: nat, text: string)
    ensures var m := "HTTP " + Decimal(code) + ": " + text;
      var n := |Decimal(code)|;
      && 5 + n <= |m| && m[..5] == "HTTP "
      && (forall k :: 5 <= k < 5 + n ==> '0' <= m[k] <= '9')
      && DecimalValue(m[5..5 + n]) == code
      && m[5 + n..] == ": " + text
  {
    DecimalRoundTrip(code);
    var digits := Decimal(code);
    var m := "HTTP " + digits + ": " + text;
    assert m[..5] == "HTTP ";
    assert m[5..5 + |digits|] == digits;
    assert m[5 + |digits|..] == ": " + text;
  }

  /** The gateway statuses that suggest a cold start: 502, 503, 504. */
  predicate IsGatewayStatus(code: nat) {
    code == 502 || code == 503 || code == 504
  }

  predicate IsGatewayResponse(x: Exchange) {
    x.Response? && IsGatewayStatus(x.statusCode)
  }

  /** The pause before the retry after a gateway status: 1.5 seconds, in nanoseconds. */
  const RetryPauseNanos: nat := 1_500_000_000

  /** The script answers every request the client issues: one, and a second after a gateway status. */
  predicate Answers(net: seq<Exchange>) {
    |net| >= 1 && (IsGatewayResponse(net[0]) ==> |net| >= 2)
  }

  /** How many requests one dispatch issues. */
  function RequestsIssued(net: seq<Exchange>): (n: nat)
    requires Answers(net)
    ensures n == 1 || n == 2
    ensures n <= |net|
    ensures n == 2 <==> IsGatewayResponse(net[0])
  {
    if IsGatewayResponse(net[0]) then 2 else 1
  }

  /** The exchange whose outcome decides the dispatch: the retry's when there was one. */
  function FinalExchange(net: seq<Exchange>): Exchange
    requires Answers(net)
  {
    net[RequestsIssued(net) - 1]
  }

  /**
   * What one final exchange becomes. `base64` is Foundation's
   * `Data(base64Encoded:)`, a decoding that may fail; a reply whose audio does
   * not decode is still a success, with no audio.
   */
  function Settle(x: Exchange, base64: string -> Option<Bytes>): (r: Result<BackendResult, DispatchError>)
    ensures r.Failure? && r.error.Transport? <==> x.NoResponse?
    ensures r == Failure(Busy) <==> x.Response? && x.statusCode == 429
    ensures r.Failure? && r.error.HttpStatus? <==> x.Response? && x.statusCode != 200 && x.statusCode != 429
    ensures r.Failure? && r.error.HttpStatus? ==>
      r.error.code == x.statusCode && r.error.bodyText == x.bodyText.GetOr("(no body)")
    ensures r.Failure? && r.error.Undecodable? <==> x.Response? && x.statusCode == 200 && x.decoded.Failure?
    ensures r.Success? <==> x.Response? && x.statusCode == 200 && x.decoded.Success?
    ensures r.Failure? ==> !r.error.AudioUnreadable?
  {
    match x
    case NoResponse(d) => Failure(Transport(d))
    case Response(code, text, decoded) =>
      if code == 429 then Failure(Busy)
      else if code != 200 then Failure(HttpStatus(code, text.GetOr("(no body)")))
      else
        match decoded
        case Failure(d) => Failure(Undecodable(d))
        case Success(r) =>
          var audio := match r.audioB64 case Some(b64) => base64(b64) case None => None;
          Success(BackendResult(r.transcript, r.reply, audio, r.audioMime, r.action))
  }

  /** The outcome of one dispatch over the script `net`. */
  function Outcome(net: seq<Exchange>, base64: string -> Option<Bytes>): (r: Result<BackendResult, DispatchError>)
    requires Answers(net)
    ensures !IsGatewayResponse(net[0]) ==> r == Settle(net[0], base64)
    ensures IsGatewayResponse(net[0]) ==> r == Settle(net[1], base64)
    ensures r.Failure? ==> !r.error.AudioUnreadable?
  {
    Settle(FinalExchange(net), base64)
  }

  // --------------------------------------------------------- Properties

  /** A first response of 502, 503 or 504 causes exactly one more request, and the second response decides. */
  lemma GatewayIsRetriedOnce(net: seq<Exchange>, base64: string -> Option<Bytes>)
    requires Answers(net) && IsGatewayResponse(net[0])
    ensures RequestsIssued(net) == 2
    ensures Outcome(net, base64) == Settle(net[1], base64)
  {
  }

  /** A second gateway failure is not retried: it surfaces as an HTTP error with its own status. */
  lemma SecondGatewayFailureSurfaces(net: seq<Exchange>, base64: string -> Option<Bytes>)
    requires Answers(net) && IsGatewayResponse(net[0]) && IsGatewayResponse(net[1])
    ensures RequestsIssued(net) == 2
    ensures Outcome(net, base64) == Failure(HttpStatus(net[1].statusCode, net[1].bodyText.GetOr("(no body)")))
  {
  }

  /** A 429 on the first request is never retried and is the busy error. */
  lemma RateLimitIsNotRetried(net: seq<Exchange>, base64: string -> Option<Bytes>)
    requires Answers(net) && net[0].Response? && net[0].statusCode == 429
    ensures RequestsIssued(net) == 1
    ensures Outcome(net, base64) == Failure(Busy)
  {
  }

  /** The busy error arises exactly when the deciding response is a 429, on either attempt. */
  lemma BusyIffFinal429(net: seq<Exchange>, base64: string -> Option<Bytes>)
    requires Answers(net)
    ensures Outcome(net, base64) == Failure(Busy)
        <==> FinalExchange(net).Response? && FinalExchange(net).statusCode == 429
  {
  }

  /** An HTTP error carries exactly the deciding status, which is neither 200 nor 429; every such status gives one. */
  lemma HttpErrorCarriesFinalStatus(net: seq<Exchange>, base64: string -> Option<Bytes>)
    requires Answers(net)
    ensures Outcome(net, base64).Failure? && Outcome(net, base64).error.HttpStatus?
        <==> FinalExchange(net).Response? && FinalExchange(net).statusCode !in {200, 429}
    ensures Outcome(net, base64).Failure? && Outcome(net, base64).error.HttpStatus?
        ==> Outcome(net, base64).error.code == FinalExchange(net).statusCode
  {
  }

  /** Only a final 200 whose body decodes is a success, and the success carries that body's fields. */
  lemma SuccessOnlyOnFinal200(net: seq<Exchange>, base64: string -> Option<Bytes>)
    requires Answers(net)
    ensures Outcome(net, base64).Success?
        <==> FinalExchange(net).Response? && FinalExchange(net).statusCode == 200 && FinalExchange(net).decoded.Success?
    ensures Outcome(net, base64).Success? ==>
      var r := FinalExchange(net).decoded.value;
      var s := Outcome(net, base64).value;
      s.transcript == r.transcript && s.reply == r.reply && s.audioMime == r.audioMime && s.action == r.action
      && (r.audioB64.None? ==> s.audioData.None?)
      && (r.audioB64.Some? ==> s.audioData == base64(r.audioB64.value))
  {
  }

  /** The cold-start scenario: 503 then 200 succeeds after exactly one retry. */
  lemma ColdStartScenario(r: BackendResponse, base64: string -> Option<Bytes>)
    ensures var net := [Response(503, Some("waking"), Failure("not JSON")), Response(200, None, Success(r))];
      && Answers(net) && RequestsIssued(net) == 2 && Outcome(net, base64).Success?
  {
  }
}
