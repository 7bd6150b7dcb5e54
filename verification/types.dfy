/** The request data model shared by the three provider clients: the per-provider
    request records, the envelope that carries exactly one of them, the client
    record, the error taxonomy and the provider constants. */
module Types {
  import opened Wrappers

  /** The three back ends a caller can select. */
  datatype Provider = ChatGpt | DeepSeek | Claude

  /** One chat message. The DeepSeek and Claude message structs have this same
      shape (a role and a content string). */
  datatype Message = Message(role: string, content: string)

  /** The ChatGPT text request: a model name and a single input string. */
  datatype ChatGptRequest = ChatGptRequest(model: string, input: string)

  /** The DeepSeek text request. `maxTokens` and `temperature` stand for the
      optional generation parameters, which validation never touches. */
  datatype DeepSeekRequest = DeepSeekRequest(
    model: string,
    messages: seq<Message>,
    maxTokens: Option<int>,
    temperature: Option<int>)

  /** The Claude text request; `maxTokens` is a plain integer whose zero value
      means "unset". */
  datatype ClaudeRequest = ClaudeRequest(model: string, maxTokens: int, messages: seq<Message>)

  /** The request envelope: a tagged union over the three concrete request types,
      plus `Empty` for an envelope whose payload is nil. A Go type assertion on the
      envelope's payload becomes a variant test, which `Empty` fails for every
      provider. */
  datatype Envelope =
    | Empty
    | ChatGptText(chatGpt: ChatGptRequest)
    | DeepSeekText(deepSeek: DeepSeekRequest)
    | ClaudeText(claude: ClaudeRequest)

  /** The provider whose concrete request type the envelope holds, if any. */
  function ProviderOf(e: Envelope): Option<Provider>
  {
    match e
    case Empty => None
    case ChatGptText(_) => Some(ChatGpt)
    case DeepSeekText(_) => Some(DeepSeek)
    case ClaudeText(_) => Some(Claude)
  }

  /** A provider client: an API token and the endpoint requests are posted to. */
  datatype Client = Client(apiToken: string, endpoint: string)

  /** Every error a client or the agent factory can return. */
  datatype Error =
    | NilOpts                               // "nil opts"
    | TypeConversionFailed(expected: Provider)
    | MessageRequired                       // ChatGPT: empty Input
    | MessagesRequired                      // empty message list
    | ContentRequired                       // a message with empty content
    | RequestFailed                         // the request could not be created or sent
    | ResponseUnreadable                    // the response body could not be read
    | UnexpectedStatus(code: int, body: string)
    | DecodeFailed(provider: Provider)      // the body is not the provider's response JSON
    | ConfigUnreadable                      // the configuration file could not be read
    | MissingToken(key: string)
    | UnknownAgent(name: string)

  /** Pass, or the error that stopped a step. */
  datatype Outcome = Pass | Fail(error: Error)

  /** What one validation-and-defaulting step leaves behind: the client (whose
      endpoint may have been defaulted), the envelope as the caller now sees it
      (the request is mutated in place through its pointer), and the verdict. */
  datatype Prepared = Prepared(client: Client, request: Option<Envelope>, outcome: Outcome)

  const RoleUser: string := "user"

  const ChatGptModelGpt41: string := "gpt-4.1"
  const DeepSeekModelChat: string := "deepseek-chat"
  const ClaudeModelSonnet4: string := "claude-sonnet-4-20250514"

  /** Claude's `MaxTokens` replacement for the zero value. */
  const ClaudeDefaultMaxTokens: int := 100

  const OpenAiResponsesUrl: string := "https://api.openai.com/v1/responses"
  const DeepSeekChatUrl: string := "https://api.deepseek.com/chat/completions"

  /** The URL each client falls back to when its endpoint is empty. The Claude
      client falls back to the OpenAI responses URL, like the ChatGPT client. */
  function DefaultUrl(p: Provider): (url: string)
    ensures url != ""
    ensures p == DeepSeek ==> url == DeepSeekChatUrl
    ensures url == OpenAiResponsesUrl <==> p != DeepSeek
  {
    match p
    case ChatGpt => OpenAiResponsesUrl
    case DeepSeek => DeepSeekChatUrl
    case Claude => OpenAiResponsesUrl
  }

  /** The client with an empty endpoint replaced by `url`; a set endpoint and the
      token are kept. */
  function DefaultEndpoint(c: Client, url: string): (r: Client)
    requires url != ""
    ensures r.apiToken == c.apiToken
    ensures r.endpoint != ""
    ensures c.endpoint != "" ==> r.endpoint == c.endpoint
    ensures c.endpoint == "" ==> r.endpoint == url
  {
    if c.endpoint == "" then c.(endpoint := url) else c
  }

  /** A model name with the empty name replaced by `default`. */
  function DefaultModel(model: string, default: string): (r: string)
    requires default != ""
    ensures r != ""
    ensures model != "" ==> r == model
    ensures model == "" ==> r == default
  {
    if model == "" then default else model
  }
}
