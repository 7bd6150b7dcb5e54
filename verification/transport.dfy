/** The part of every AskAI after validation: the outbound request that is
    posted, the status check and the decoding of the body. The network exchange
    and the JSON decoder are not modelled; their results enter as the
    parameters `reply` and `decodes`. */
module Transport {
  import opened Wrappers
  import opened Types

  /** One HTTP header. */
  datatype Header = Header(name: string, value: string)

  /** The single POST a client issues: target endpoint, headers, client timeout
      and the (already normalised) request that is serialised into the body. */
  datatype Outbound = Outbound(endpoint: string, headers: seq<Header>, timeoutSeconds: nat, payload: Envelope)

  /** The headers of the two providers that authenticate with a bearer token. */
  function BearerHeaders(token: string): (h: seq<Header>)
    ensures Header("Authorization", "Bearer " + token) in h
    ensures Header("Content-Type", "application/json") in h
  {
    [Header("Content-Type", "application/json"), Header("Authorization", "Bearer " + token)]
  }

  /** What the transport delivered: the request could not be created or sent, the
      body could not be read, or a status code with the raw body. */
  datatype HttpReply = SendFailed | ReadFailed | Received(status: int, body: string)

  /** The response envelope: the provider whose response schema decoded the body,
      and the raw body it was decoded from. */
  datatype Answer = Answer(provider: Provider, raw: string)

  /** Everything one AskAI call leaves behind: the client and the caller's
      envelope after defaulting, the request that went on the wire (if any) and
      the result. */
  datatype Call = Call(client: Client, request: Option<Envelope>, sent: Option<Outbound>, result: Result<Answer, Error>)

  /** A status is accepted exactly when it lies in [200, 300); any other status
      fails carrying the code and the raw body. */
  function CheckStatus(code: int, body: string): (r: Outcome)
    ensures r.Pass? <==> 200 <= code <= 299
    ensures r.Fail? ==> r.error.UnexpectedStatus? && r.error.code == code && r.error.body == body
  {
    if code < 200 || code >= 300 then Fail(UnexpectedStatus(code, body)) else Pass
  }

  /** The accepted statuses are exactly the 2xx class, whose hundreds digit is 2. */
  lemma CheckStatusIsTwoHundredClass(code: int, body: string)
    ensures CheckStatus(code, body).Pass? <==> code / 100 == 2
  {
  }

  /** The result of a sent request: transport failures first, then the status
      check, then decoding into `provider`'s response schema. */
  function Receive(provider: Provider, reply: HttpReply, decodes: bool): (r: Result<Answer, Error>)
    ensures reply.SendFailed? ==> r == Failure(RequestFailed)
    ensures reply.ReadFailed? ==> r == Failure(ResponseUnreadable)
    ensures r.Success? <==> reply.Received? && 200 <= reply.status < 300 && decodes
    ensures r.Success? ==> r.value == Answer(provider, reply.body)
    ensures reply.Received? && !(200 <= reply.status < 300) ==>
              r == Failure(UnexpectedStatus(reply.status, reply.body))
    ensures reply.Received? && 200 <= reply.status < 300 && !decodes ==> r == Failure(DecodeFailed(provider))
  {
    match reply
    case SendFailed => Failure(RequestFailed)
    case ReadFailed => Failure(ResponseUnreadable)
    case Received(status, body) =>
      match CheckStatus(status, body)
      case Fail(e) => Failure(e)
      case Pass => if decodes then Success(Answer(provider, body)) else Failure(DecodeFailed(provider))
  }

  /** Completes an AskAI call after its validation step `p`: a failed step
      returns its error and sends nothing; a passed step posts its request to
      the client's endpoint with `headers` and `timeoutSeconds`, then receives. */
  function Finish(provider: Provider, p: Prepared, headers: seq<Header>, timeoutSeconds: nat, reply: HttpReply, decodes: bool): (r: Call)
    requires p.outcome.Pass? ==> p.request.Some?
    ensures r.client == p.client && r.request == p.request
    ensures r.sent.Some? <==> p.outcome.Pass?
    ensures p.outcome.Fail? ==> r.result == Failure(p.outcome.error)
    ensures r.sent.Some? ==> r.sent.value == Outbound(p.client.endpoint, headers, timeoutSeconds, p.request.value)
    ensures p.outcome.Pass? ==> r.result == Receive(provider, reply, decodes)
  {
    match p.outcome
    case Fail(e) => Call(p.client, p.request, None, Failure(e))
    case Pass =>
      var out := Outbound(p.client.endpoint, headers, timeoutSeconds, p.request.value);
      Call(p.client, p.request, Some(out), Receive(provider, reply, decodes))
  }
}
