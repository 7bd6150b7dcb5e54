/** The Claude client's AskAI: the DeepSeek steps plus a MaxTokens default, then
    one POST authenticated by an `x-api-key` header with a pinned API version and
    a 30-second timeout. Its endpoint default is the OpenAI responses URL. */
module ClaudeClient {
  import opened Wrappers
  import opened Types
  import opened Messages
  import opened Transport

  const TimeoutSeconds: nat := 30
  const ApiVersion: string := "2023-06-01"

  /** The token goes in `x-api-key`, next to the API version header. */
  function Headers(token: string): (h: seq<Header>)
    ensures Header("x-api-key", token) in h
    ensures Header("anthropic-version", ApiVersion) in h
    ensures Header("Content-Type", "application/json") in h
  {
    [Header("Content-Type", "application/json"), Header("x-api-key", token), Header("anthropic-version", ApiVersion)]
  }

  /** The zero token budget replaced by 100; any other value, negative ones
      included, is kept. */
  function DefaultMaxTokens(n: int): (r: int)
    ensures r != 0
    ensures n != 0 ==> r == n
    ensures n == 0 ==> r == ClaudeDefaultMaxTokens
  {
    if n == 0 then ClaudeDefaultMaxTokens else n
  }

  /** The validation-and-defaulting step at the top of AskAI, in source order. */
  function Prepare(c: Client, opts: Option<Envelope>): (p: Prepared)
    ensures p.client == DefaultEndpoint(c, DefaultUrl(Claude))
    ensures opts.None? ==> p == Prepared(p.client, None, Fail(NilOpts))
    ensures opts.Some? && !opts.value.ClaudeText? ==>
              p == Prepared(p.client, opts, Fail(TypeConversionFailed(Claude)))
    // model and token budget are defaulted before the messages are looked at
    ensures opts.Some? && opts.value.ClaudeText? ==>
              && p.request.Some? && p.request.value.ClaudeText?
              && p.request.value.claude.model == DefaultModel(opts.value.claude.model, ClaudeModelSonnet4)
              && p.request.value.claude.maxTokens == DefaultMaxTokens(opts.value.claude.maxTokens)
    ensures opts.Some? && opts.value.ClaudeText? && |opts.value.claude.messages| == 0 ==>
              p.outcome == Fail(MessagesRequired) && p.request.value.claude.messages == []
    ensures opts.Some? && opts.value.ClaudeText? && |opts.value.claude.messages| > 0 ==>
              var w := WalkMessages(opts.value.claude.messages);
              p.request.value.claude.messages == w.messages && p.outcome == w.outcome
    ensures p.outcome.Pass? <==>
              && opts.Some? && opts.value.ClaudeText?
              && |opts.value.claude.messages| > 0
              && AllHaveContent(opts.value.claude.messages)
  {
    var client := DefaultEndpoint(c, DefaultUrl(Claude));
    match opts
    case None => Prepared(client, None, Fail(NilOpts))
    case Some(env) =>
      if !env.ClaudeText? then Prepared(client, opts, Fail(TypeConversionFailed(Claude)))
      else
        var q := env.claude.(model := DefaultModel(env.claude.model, ClaudeModelSonnet4),
                             maxTokens := DefaultMaxTokens(env.claude.maxTokens));
        if |q.messages| == 0 then Prepared(client, Some(ClaudeText(q)), Fail(MessagesRequired))
        else
          var w := WalkMessages(q.messages);
          Prepared(client, Some(ClaudeText(q.(messages := w.messages))), w.outcome)
  }

  /** A passed step leaves a request with a model, a non-zero token budget, at
      least one message, and a role and content on every message. */
  lemma PreparedRequestIsComplete(c: Client, opts: Option<Envelope>)
    requires Prepare(c, opts).outcome.Pass?
    ensures var p := Prepare(c, opts);
      && p.request.Some? && p.request.value.ClaudeText?
      && p.client.endpoint != ""
      && p.request.value.claude.model != ""
      && p.request.value.claude.maxTokens != 0
      && |p.request.value.claude.messages| > 0
      && AllHaveRole(p.request.value.claude.messages)
      && AllHaveContent(p.request.value.claude.messages)
  {
  }

  /** Running the step again on what a passed step produced passes and changes nothing. */
  lemma PrepareIdempotent(c: Client, opts: Option<Envelope>)
    requires Prepare(c, opts).outcome.Pass?
    ensures var p := Prepare(c, opts);
      Prepare(p.client, p.request) == p
  {
    WalkIdempotent(opts.value.claude.messages);
  }

  /** AskAI: the step above, then the POST of the normalised request and the
      status check and decoding of the reply. */
  function AskAI(c: Client, opts: Option<Envelope>, reply: HttpReply, decodes: bool): (r: Call)
    ensures r.client == Prepare(c, opts).client && r.request == Prepare(c, opts).request
    ensures r.sent.Some? <==> Prepare(c, opts).outcome.Pass?
    ensures Prepare(c, opts).outcome.Fail? ==> r.sent == None && r.result == Failure(Prepare(c, opts).outcome.error)
    ensures Prepare(c, opts).outcome.Pass? ==> r.result == Receive(Claude, reply, decodes)
    ensures r.sent.Some? ==>
              && r.sent.value.endpoint == r.client.endpoint != ""
              && r.sent.value.timeoutSeconds == 30
              && Header("x-api-key", c.apiToken) in r.sent.value.headers
              && Header("anthropic-version", "2023-06-01") in r.sent.value.headers
              && r.sent.value.payload == r.request.value
    ensures r.result.Success? <==>
              Prepare(c, opts).outcome.Pass? && reply.Received? && 200 <= reply.status < 300 && decodes
    ensures r.result.Success? ==> r.result.value == Answer(Claude, reply.body)
  {
    var p := Prepare(c, opts);
    Finish(Claude, p, Headers(p.client.apiToken), TimeoutSeconds, reply, decodes)
  }
}
