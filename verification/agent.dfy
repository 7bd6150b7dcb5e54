/** The agent factory and the common AskAI interface. The configuration file is
    replaced by an injected key/value map plus a flag saying whether reading it
    failed; a missing key reads as the empty string. */
module Agent {
  import opened Wrappers
  import opened Types
  import opened Transport
  import ChatGptClient
  import DeepSeekClient
  import ClaudeClient

  /** The configuration source as NewAIAgent sees it. */
  datatype Config = Config(readFailed: bool, values: map<string, string>)

  /** The string stored under `key`, or "" when the key is absent. */
  function GetString(cfg: Config, key: string): (v: string)
    ensures key in cfg.values ==> v == cfg.values[key]
    ensures key !in cfg.values ==> v == ""
  {
    if key in cfg.values then cfg.values[key] else ""
  }

  /** The selector string of each provider; distinct providers have distinct
      selectors. */
  function AgentName(p: Provider): (name: string)
    ensures name == "chatgpt" <==> p == ChatGpt
    ensures name == "deepseek" <==> p == DeepSeek
    ensures name == "claude" <==> p == Claude
  {
    match p
    case ChatGpt => "chatgpt"
    case DeepSeek => "deepseek"
    case Claude => "claude"
  }

  /** The provider a selector names, if any; the inverse of AgentName. */
  function ParseAgent(s: string): (r: Option<Provider>)
    ensures r.Some? ==> AgentName(r.value) == s
    ensures r.None? ==> forall p: Provider :: AgentName(p) != s
  {
    if s == "chatgpt" then Some(ChatGpt)
    else if s == "deepseek" then Some(DeepSeek)
    else if s == "claude" then Some(Claude)
    else None
  }

  /** Selectors and providers are in one-to-one correspondence. */
  lemma ParseAgentRoundTrip(p: Provider)
    ensures ParseAgent(AgentName(p)) == Some(p)
  {
  }

  /** The prefix of each provider's configuration keys: the selector, except
      "openai" for ChatGPT. */
  function ConfigPrefix(p: Provider): string
  {
    if p == ChatGpt then "openai" else AgentName(p)
  }

  /** The configuration key holding each provider's API token. */
  function TokenKey(p: Provider): (key: string)
    ensures key == ConfigPrefix(p) + "_api_token"
  {
    match p
    case ChatGpt =>
      assert "openai" + "_api_token" == "openai_api_token";
      "openai_api_token"
    case DeepSeek =>
      assert "deepseek" + "_api_token" == "deepseek_api_token";
      "deepseek_api_token"
    case Claude =>
      assert "claude" + "_api_token" == "claude_api_token";
      "claude_api_token"
  }

  /** The configuration key holding each provider's endpoint. */
  function EndpointKey(p: Provider): (key: string)
    ensures key == ConfigPrefix(p) + "_text_input_endpoint"
  {
    match p
    case ChatGpt =>
      assert "openai" + "_text_input_endpoint" == "openai_text_input_endpoint";
      "openai_text_input_endpoint"
    case DeepSeek =>
      assert "deepseek" + "_text_input_endpoint" == "deepseek_text_input_endpoint";
      "deepseek_text_input_endpoint"
    case Claude =>
      assert "claude" + "_text_input_endpoint" == "claude_text_input_endpoint";
      "claude_text_input_endpoint"
  }

  /** The token key is the selector followed by "_api_token", except for
      ChatGPT, whose key carries the prefix "openai". */
  lemma TokenKeyFollowsSelectorExceptChatGpt(p: Provider)
    ensures TokenKey(p) == AgentName(p) + "_api_token" <==> p != ChatGpt
  {
    match p
    case ChatGpt =>
      assert TokenKey(p)[0] != (AgentName(p) + "_api_token")[0];
    case DeepSeek =>
      assert "deepseek" + "_api_token" == "deepseek_api_token";
    case Claude =>
      assert "claude" + "_api_token" == "claude_api_token";
  }

  /** The endpoint key is the selector followed by "_text_input_endpoint",
      except for ChatGPT, whose key carries the prefix "openai". */
  lemma EndpointKeyFollowsSelectorExceptChatGpt(p: Provider)
    ensures EndpointKey(p) == AgentName(p) + "_text_input_endpoint" <==> p != ChatGpt
  {
    match p
    case ChatGpt =>
      assert EndpointKey(p)[0] != (AgentName(p) + "_text_input_endpoint")[0];
    case DeepSeek =>
      assert "deepseek" + "_text_input_endpoint" == "deepseek_text_input_endpoint";
    case Claude =>
      assert "claude" + "_text_input_endpoint" == "claude_text_input_endpoint";
  }

  /** A constructed client and the provider it talks to. */
  datatype AgentClient = AgentClient(provider: Provider, client: Client)

  /** NewAIAgent: a read failure wins over everything, then the selector picks the
      provider, whose token and endpoint are looked up; an empty token is refused
      and the endpoint is copied as it is, empty or not. */
  function NewAIAgent(selector: string, cfg: Config): (r: Result<AgentClient, Error>)
    ensures cfg.readFailed ==> r == Failure(ConfigUnreadable)
    ensures !cfg.readFailed && ParseAgent(selector).None? ==> r == Failure(UnknownAgent(selector))
    ensures !cfg.readFailed && ParseAgent(selector).Some? ==>
              var p := ParseAgent(selector).value;
              if GetString(cfg, TokenKey(p)) == "" then r == Failure(MissingToken(TokenKey(p)))
              else r.Success? && r.value.provider == p
    ensures r.Success? ==>
              && !cfg.readFailed
              && AgentName(r.value.provider) == selector
              && r.value.client.apiToken != ""
              && r.value.client.apiToken == GetString(cfg, TokenKey(r.value.provider))
              && r.value.client.endpoint == GetString(cfg, EndpointKey(r.value.provider))
  {
    if cfg.readFailed then Failure(ConfigUnreadable)
    else
      match ParseAgent(selector)
      case None => Failure(UnknownAgent(selector))
      case Some(p) =>
        var c := Client(GetString(cfg, TokenKey(p)), GetString(cfg, EndpointKey(p)));
        if c.apiToken == "" then Failure(MissingToken(TokenKey(p))) else Success(AgentClient(p, c))
  }

  /** The common AskAI interface: dispatch to the selected provider's client. */
  function Ask(a: AgentClient, opts: Option<Envelope>, reply: HttpReply, decodes: bool): (r: Call)
    ensures opts.None? ==> r.result == Failure(NilOpts) && r.sent.None?
    ensures opts.Some? && ProviderOf(opts.value) != Some(a.provider) ==>
              r.result == Failure(TypeConversionFailed(a.provider)) && r.sent.None? && r.request == opts
    ensures a.provider == ChatGpt ==> r == ChatGptClient.AskAI(a.client, opts, reply, decodes)
    ensures a.provider == DeepSeek ==> r == DeepSeekClient.AskAI(a.client, opts, reply, decodes)
    ensures a.provider == Claude ==> r == ClaudeClient.AskAI(a.client, opts, reply, decodes)
    ensures r.client.apiToken == a.client.apiToken && r.client.endpoint != ""
    ensures r.sent.Some? ==> ProviderOf(r.sent.value.payload) == Some(a.provider)
    ensures r.result.Success? <==>
              r.sent.Some? && reply.Received? && 200 <= reply.status < 300 && decodes
    ensures r.result.Success? ==> r.result.value == Answer(a.provider, reply.body)
  {
    match a.provider
    case ChatGpt => ChatGptClient.AskAI(a.client, opts, reply, decodes)
    case DeepSeek => DeepSeekClient.AskAI(a.client, opts, reply, decodes)
    case Claude => ClaudeClient.AskAI(a.client, opts, reply, decodes)
  }

  /** An agent built from a configuration with no (or an empty) endpoint key still posts to a
      non-empty endpoint: the factory leaves the endpoint empty and the client
      fills in its own default on the first call. */
  lemma EmptyEndpointIsDefaultedOnFirstCall(selector: string, cfg: Config, env: Envelope, reply: HttpReply, decodes: bool)
    requires NewAIAgent(selector, cfg).Success?
    requires GetString(cfg, EndpointKey(NewAIAgent(selector, cfg).value.provider)) == ""
    ensures var a := NewAIAgent(selector, cfg).value;
      && a.client.endpoint == ""
      && Ask(a, Some(env), reply, decodes).client.endpoint == DefaultUrl(a.provider)
  {
  }
}
