/** The DeepSeek client's AskAI: endpoint default, envelope checks, model
    default, message-list check and the role/content walk, then one POST with a
    bearer token and a 30-second timeout. */
module DeepSeekClient {
  import opened Wrappers
  import opened Types
  import opened Messages
  import opened Transport

  const TimeoutSeconds: nat := 30

  /** The validation-and-defaulting step at the top of AskAI, in source order. */
  function Prepare(c: Client, opts: Option<Envelope>): (p: Prepared)
    // the endpoint is defaulted before anything is checked, so even a rejected call changes the client
    ensures p.client == DefaultEndpoint(c, DefaultUrl(DeepSeek))
    ensures opts.None? ==> p == Prepared(p.client, None, Fail(NilOpts))
    ensures opts.Some? && !opts.value.DeepSeekText? ==>
              p == Prepared(p.client, opts, Fail(TypeConversionFailed(DeepSeek)))
    // a DeepSeek request keeps its variant and pass-through fields; its model is
    // defaulted even when a later check fails
    ensures opts.Some? && opts.value.DeepSeekText? ==>
              && p.request.Some? && p.request.value.DeepSeekText?
              && p.request.value.deepSeek.model == DefaultModel(opts.value.deepSeek.model, DeepSeekModelChat)
              && p.request.value.deepSeek.maxTokens == opts.value.deepSeek.maxTokens
              && p.request.value.deepSeek.temperature == opts.value.deepSeek.temperature
    ensures opts.Some? && opts.value.DeepSeekText? && |opts.value.deepSeek.messages| == 0 ==>
              p.outcome == Fail(MessagesRequired) && p.request.value.deepSeek.messages == []
    ensures opts.Some? && opts.value.DeepSeekText? && |opts.value.deepSeek.messages| > 0 ==>
              var w := WalkMessages(opts.value.deepSeek.messages);
              p.request.value.deepSeek.messages == w.messages && p.outcome == w.outcome
    ensures p.outcome.Pass? <==>
              && opts.Some? && opts.value.DeepSeekText?
              && |opts.value.deepSeek.messages| > 0
              && AllHaveContent(opts.value.deepSeek.messages)
  {
    var client := DefaultEndpoint(c, DefaultUrl(DeepSeek));
    match opts
    case None => Prepared(client, None, Fail(NilOpts))
    case Some(env) =>
      if !env.DeepSeekText? then Prepared(client, opts, Fail(TypeConversionFailed(DeepSeek)))
      else
        var q := env.deepSeek.(model := DefaultModel(env.deepSeek.model, DeepSeekModelChat));
        if |q.messages| == 0 then Prepared(client, Some(DeepSeekText(q)), Fail(MessagesRequired))
        else
          var w := WalkMessages(q.messages);
          Prepared(client, Some(DeepSeekText(q.(messages := w.messages))), w.outcome)
  }

  /** A passed step leaves a request with a model, at least one message, and a
      role and content on every message. */
  lemma PreparedRequestIsComplete(c: Client, opts: Option<Envelope>)
    requires Prepare(c, opts).outcome.Pass?
    ensures var p := Prepare(c, opts);
      && p.request.Some? && p.request.value.DeepSeekText?
      && p.client.endpoint != ""
      && p.request.value.deepSeek.model != ""
      && |p.request.value.deepSeek.messages| > 0
      && AllHaveRole(p.request.value.deepSeek.messages)
      && AllHaveContent(p.request.value.deepSeek.messages)
  {
  }

  /** Running the step again on what a passed step produced passes and changes nothing. */
  lemma PrepareIdempotent(c: Client, opts: Option<Envelope>)
    requires Prepare(c, opts).outcome.Pass?
    ensures var p := Prepare(c, opts);
      Prepare(p.client, p.request) == p
  {
    WalkIdempotent(opts.value.deepSeek.messages);
  }

  /** AskAI: the step above, then the POST of the normalised request and the
      status check and decoding of the reply. */
  function AskAI(c: Client, opts: Option<Envelope>, reply: HttpReply, decodes: bool): (r: Call)
    ensures r.client == Prepare(c, opts).client && r.request == Prepare(c, opts).request
    ensures r.sent.Some? <==> Prepare(c, opts).outcome.Pass?
    ensures Prepare(c, opts).outcome.Fail? ==> r.sent == None && r.result == Failure(Prepare(c, opts).outcome.error)
    ensures Prepare(c, opts).outcome.Pass? ==> r.result == Receive(DeepSeek, reply, decodes)
    ensures r.sent.Some? ==>
              && r.sent.value.endpoint == r.client.endpoint != ""
              && r.sent.value.timeoutSeconds == 30
              && Header("Authorization", "Bearer " + c.apiToken) in r.sent.value.headers
              && r.sent.value.payload == r.request.value
    ensures r.result.Success? <==>
              Prepare(c, opts).outcome.Pass? && reply.Received? && 200 <= reply.status < 300 && decodes
    ensures r.result.Success? ==> r.result.value == Answer(DeepSeek, reply.body)
  {
    var p := Prepare(c, opts);
    Finish(DeepSeek, p, BearerHeaders(p.client.apiToken), TimeoutSeconds, reply, decodes)
  }
}
