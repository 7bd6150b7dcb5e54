/** The ChatGPT client's AskAI: endpoint default, envelope checks, the Input
    check and then the model default, then one POST with a bearer token and a
    300-second timeout. */
module ChatGptClient {
  import opened Wrappers
  import opened Types
  import opened Transport

  const TimeoutSeconds: nat := 300

  /** The validation-and-defaulting step at the top of AskAI, in source order.
      The Input check comes before the model default, so a rejected request
      keeps its empty model. */
  function Prepare(c: Client, opts: Option<Envelope>): (p: Prepared)
    ensures p.client == DefaultEndpoint(c, DefaultUrl(ChatGpt))
    ensures opts.None? ==> p == Prepared(p.client, None, Fail(NilOpts))
    ensures opts.Some? && !opts.value.ChatGptText? ==>
              p == Prepared(p.client, opts, Fail(TypeConversionFailed(ChatGpt)))
    ensures opts.Some? && opts.value.ChatGptText? && opts.value.chatGpt.input == "" ==>
              p == Prepared(p.client, opts, Fail(MessageRequired))
    ensures opts.Some? && opts.value.ChatGptText? && opts.value.chatGpt.input != "" ==>
              && p.outcome == Pass
              && p.request.Some? && p.request.value.ChatGptText?
              && p.request.value.chatGpt.input == opts.value.chatGpt.input
              && p.request.value.chatGpt.model == DefaultModel(opts.value.chatGpt.model, ChatGptModelGpt41)
    ensures p.outcome.Pass? <==> opts.Some? && opts.value.ChatGptText? && opts.value.chatGpt.input != ""
  {
    var client := DefaultEndpoint(c, DefaultUrl(ChatGpt));
    match opts
    case None => Prepared(client, None, Fail(NilOpts))
    case Some(env) =>
      if !env.ChatGptText? then Prepared(client, opts, Fail(TypeConversionFailed(ChatGpt)))
      else if env.chatGpt.input == "" then Prepared(client, opts, Fail(MessageRequired))
      else
        var q := env.chatGpt.(model := DefaultModel(env.chatGpt.model, ChatGptModelGpt41));
        Prepared(client, Some(ChatGptText(q)), Pass)
  }

  /** The step never changes the Input, whatever the outcome. */
  lemma PrepareKeepsInput(c: Client, opts: Option<Envelope>)
    requires opts.Some? && opts.value.ChatGptText?
    ensures var p := Prepare(c, opts);
      p.request.Some? && p.request.value.ChatGptText? && p.request.value.chatGpt.input == opts.value.chatGpt.input
  {
  }

  /** Running the step again on what a passed step produced passes and changes nothing. */
  lemma PrepareIdempotent(c: Client, opts: Option<Envelope>)
    requires Prepare(c, opts).outcome.Pass?
    ensures var p := Prepare(c, opts);
      Prepare(p.client, p.request) == p
  {
  }

  /** AskAI: the step above, then the POST of the normalised request and the
      status check and decoding of the reply. */
  function AskAI(c: Client, opts: Option<Envelope>, reply: HttpReply, decodes: bool): (r: Call)
    ensures r.client == Prepare(c, opts).client && r.request == Prepare(c, opts).request
    ensures r.sent.Some? <==> Prepare(c, opts).outcome.Pass?
    ensures Prepare(c, opts).outcome.Fail? ==> r.sent == None && r.result == Failure(Prepare(c, opts).outcome.error)
    ensures Prepare(c, opts).outcome.Pass? ==> r.result == Receive(ChatGpt, reply, decodes)
    ensures r.sent.Some? ==>
              && r.sent.value.endpoint == r.client.endpoint != ""
              && r.sent.value.timeoutSeconds == 300
              && Header("Authorization", "Bearer " + c.apiToken) in r.sent.value.headers
              && r.sent.value.payload == r.request.value
    ensures r.result.Success? <==>
              Prepare(c, opts).outcome.Pass? && reply.Received? && 200 <= reply.status < 300 && decodes
    ensures r.result.Success? ==> r.result.value == Answer(ChatGpt, reply.body)
  {
    var p := Prepare(c, opts);
    Finish(ChatGpt, p, BearerHeaders(p.client.apiToken), TimeoutSeconds, reply, decodes)
  }
}
