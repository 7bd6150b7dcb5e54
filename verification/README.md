# A Dafny model of the gpt LLM-client facade

The repository is a small Go facade over three LLM HTTP APIs: ChatGPT, DeepSeek and Claude.
A caller picks a provider with `NewAIAgent`, wraps a provider-specific request in an
envelope and calls `AskAI`. This model covers the logic of that path:

- the validation-and-defaulting step at the top of each provider's `AskAI`;
- the status check on the reply;
- the agent factory that maps a selector and configuration to a client.

The Go code mutates the request in place through a pointer. Each step here is a pure
function from (client, optional envelope) to (client, envelope, outcome). The caller's
view after a failed call is part of the result, so the order of defaulting and checking
is observable.

Modules:

- `Wrappers` (`wrappers.dfy`): `Option` and `Result`.
- `Types` (`types.dfy`): the request records and the envelope. The envelope is a tagged
  union over the three request types plus `Empty`, an envelope whose payload is nil. A
  failed Go type assertion becomes a variant mismatch, and `Empty` fails it for every
  provider. Also the client record, the error taxonomy and the provider constants
  (default models, default URLs, the role `"user"`, the Claude token budget 100).
- `Messages` (`messages.dfy`): the role/content walk shared by DeepSeek and Claude.
- `Transport` (`transport.dfy`): the outbound POST, the `[200, 300)` status check and
  decoding. Transport and decoder results are parameters.
- `DeepSeekClient`, `ClaudeClient`, `ChatGptClient`: each provider's `Prepare` step and
  full `AskAI`.
- `Agent` (`agent.dfy`): `NewAIAgent` over an injected configuration, and dispatch
  through the common `AskAI` interface.

Points where the code is followed as written:

- The walk over messages defaults a message's role before it checks that message's
  content. When message `k` is the first with empty content, messages `0..k` (including
  `k`) come back with defaulted roles. Messages after `k` are untouched.
- The Claude client's default endpoint is the OpenAI responses URL
  `https://api.openai.com/v1/responses`, as written in `claude.go`.
- ChatGPT checks `Input` before defaulting the model. A rejected ChatGPT request keeps
  an empty model.
- The ChatGPT configuration keys start with `openai`, not with the selector `chatgpt`.
- The Go DeepSeek and Claude message structs are distinct types with the same two
  fields. Here they are one `Message` datatype, so one walk serves both clients.

## Model

| member | source | states |
|---|---|---|
| Types.DefaultEndpoint | pkg/ai/providers/deepseek/deepseek.go:25-27 | An empty endpoint becomes the provider's URL. A set endpoint and the token are kept. The result is never empty. |
| Types.DefaultUrl | pkg/ai/providers/claude/claude.go:21-23 | Every fallback URL is non-empty. DeepSeek falls back to its chat-completions URL. The URL is the OpenAI responses URL iff the provider is not DeepSeek, so Claude falls back to OpenAI's URL. |
| Types.DefaultModel | pkg/ai/providers/deepseek/deepseek.go:36-38 | An empty model becomes the provider's default model. A non-empty model is unchanged. |
| Messages.DefaultRole | pkg/ai/providers/deepseek/deepseek.go:43-45 | An empty role becomes "user". Other roles and the content are unchanged. |
| Messages.FirstEmptyContent | pkg/ai/providers/deepseek/deepseek.go:46-48 | Gives the unique index of the first message with empty content, or the length if every message has content. |
| Messages.NoFirstEmptyContentIffAllHaveContent | pkg/ai/providers/deepseek/deepseek.go:46-48 | The first empty-content index is the list length iff every message has content. |
| Messages.WalkMessages | pkg/ai/providers/deepseek/deepseek.go:42-49 | The walk passes iff no message has empty content. Otherwise it fails with ContentRequired. The count is kept. Each message up to and including the first empty-content one has its role defaulted; each later one is untouched. |
| Messages.WalkPassesIffAllHaveContent | pkg/ai/providers/deepseek/deepseek.go:42-49 | The walk passes exactly when every message has non-empty content, and it never changes a content. |
| Messages.WalkPassDefaultsEveryRole | pkg/ai/providers/deepseek/deepseek.go:42-49 | After a successful walk every role is non-empty. Originally empty roles are "user", other messages are unchanged, and count and order are kept. |
| Messages.WalkFailsAtFirstEmptyContent | pkg/ai/providers/claude/claude.go:41-48 | If message k is the first with empty content, the walk fails. Messages 0..k have defaulted roles and messages after k are the originals. |
| Messages.WalkIdempotent | pkg/ai/providers/deepseek/deepseek.go:42-49 | Walking an already-walked message list passes and changes nothing. |
| Transport.CheckStatus | pkg/ai/providers/deepseek/deepseek.go:75-77 | A status passes iff it lies in [200, 300). Otherwise the error carries the status code and the raw body. |
| Transport.CheckStatusIsTwoHundredClass | pkg/ai/providers/chatgpt/chatgpt.go:67-69 | The accepted statuses are exactly those whose quotient by 100 is 2. |
| Transport.Receive | pkg/ai/providers/claude/claude.go:64-83 | A send failure and a read failure come first, then the status check, then decoding. Success happens iff the status is 2xx and the body decodes, and the answer carries the raw body. |
| Transport.Finish | pkg/ai/providers/deepseek/deepseek.go:51-88 | A failed validation sends nothing and returns its error. A passed one posts the normalised request to the client's endpoint and returns the received result. |
| Transport.BearerHeaders | pkg/ai/providers/deepseek/deepseek.go:60-61 | The request carries a JSON content type and `Authorization: Bearer <token>`. |
| DeepSeekClient.Prepare | pkg/ai/providers/deepseek/deepseek.go:25-49 | The endpoint is defaulted before any check. A nil envelope fails with NilOpts. A non-DeepSeek request fails and is left unchanged. The model is defaulted even when a later check fails. An empty list fails with MessagesRequired. Otherwise the result is the walk's. Pass happens iff it is a DeepSeek request with a non-empty list where every message has content. |
| DeepSeekClient.PreparedRequestIsComplete | pkg/ai/providers/deepseek/deepseek.go:36-49 | After a pass the endpoint and model are non-empty, the list is non-empty, and every message has a role and content. |
| DeepSeekClient.PrepareIdempotent | pkg/ai/providers/deepseek/deepseek.go:36-49 | Preparing an already-prepared client and request passes and changes nothing. |
| DeepSeekClient.AskAI | pkg/ai/providers/deepseek/deepseek.go:24-88 | The request is sent iff validation passes. A failed validation returns its error. A sent request is the normalised one, posted to a non-empty endpoint with a bearer token and a 30 s timeout. After sending, the result is the reply's: a status outside [200, 300) fails with the code and body, and a 2xx body that decodes succeeds. |
| ClaudeClient.Headers | pkg/ai/providers/claude/claude.go:59-61 | The request carries `x-api-key: <token>`, `anthropic-version: 2023-06-01` and a JSON content type. |
| ClaudeClient.DefaultMaxTokens | pkg/ai/providers/claude/claude.go:35-37 | 0 becomes 100. Any other value, negative included, is unchanged. |
| ClaudeClient.Prepare | pkg/ai/providers/claude/claude.go:20-48 | The endpoint is defaulted to the OpenAI responses URL before any check. Nil and non-Claude envelopes fail. The model and MaxTokens defaults apply even when the message checks fail. An empty list fails. Otherwise the result is the walk's. Pass happens iff it is a Claude request with a non-empty list where every message has content. |
| ClaudeClient.PreparedRequestIsComplete | pkg/ai/providers/claude/claude.go:32-48 | After a pass the endpoint and model are non-empty, MaxTokens is non-zero, the list is non-empty, and every message has a role and content. |
| ClaudeClient.PrepareIdempotent | pkg/ai/providers/claude/claude.go:32-48 | Preparing an already-prepared client and request passes and changes nothing. |
| ClaudeClient.AskAI | pkg/ai/providers/claude/claude.go:20-88 | The request is sent iff validation passes. A failed validation returns its error. A sent request is the normalised one, posted to a non-empty endpoint with the api-key and version headers and a 30 s timeout. After sending, the result is the reply's: a status outside [200, 300) fails with the code and body, and a 2xx body that decodes succeeds. |
| ChatGptClient.Prepare | pkg/ai/providers/chatgpt/chatgpt.go:24-41 | The endpoint is defaulted before any check. Nil and non-ChatGPT envelopes fail. An empty Input fails with MessageRequired and leaves the request as it was, empty model included. Otherwise it passes with the model defaulted and Input kept. |
| ChatGptClient.PrepareKeepsInput | pkg/ai/providers/chatgpt/chatgpt.go:36-41 | For a ChatGPT request, Input is never modified, whatever the outcome. |
| ChatGptClient.PrepareIdempotent | pkg/ai/providers/chatgpt/chatgpt.go:36-41 | Preparing an already-prepared client and request passes and changes nothing. |
| ChatGptClient.AskAI | pkg/ai/providers/chatgpt/chatgpt.go:24-80 | The request is sent iff validation passes. A failed validation returns its error. A sent request is the normalised one, posted to a non-empty endpoint with a bearer token and a 300 s timeout. After sending, the result is the reply's: a status outside [200, 300) fails with the code and body, and a 2xx body that decodes succeeds. |
| Agent.GetString | pkg/ai/ai.go:45-48 | A configured key reads as its value. A missing key reads as "". |
| Agent.AgentName | pkg/ai/ai.go:21-23 | The selectors are "chatgpt", "deepseek" and "claude", one per provider and each naming only that provider. |
| Agent.ParseAgent | pkg/ai/ai.go:20-24 | The recognised selectors are exactly "chatgpt", "deepseek" and "claude", each naming its provider. |
| Agent.ParseAgentRoundTrip | pkg/ai/ai.go:20-24 | Parsing a provider's selector gives back that provider. |
| Agent.TokenKey | pkg/ai/ai.go:46-68 | The token key is the provider's key prefix followed by "_api_token". The prefix is "openai" for ChatGPT and the selector otherwise. |
| Agent.EndpointKey | pkg/ai/ai.go:47-69 | The endpoint key is the provider's key prefix followed by "_text_input_endpoint". The prefix is "openai" for ChatGPT and the selector otherwise. |
| Agent.TokenKeyFollowsSelectorExceptChatGpt | pkg/ai/ai.go:44-68 | The token key is `<selector>_api_token` iff the provider is not ChatGPT. ChatGPT reads `openai_api_token`. |
| Agent.EndpointKeyFollowsSelectorExceptChatGpt | pkg/ai/ai.go:44-69 | The endpoint key is `<selector>_text_input_endpoint` iff the provider is not ChatGPT. ChatGPT reads `openai_text_input_endpoint`. |
| Agent.NewAIAgent | pkg/ai/ai.go:30-79 | A read failure fails for every selector. An unknown selector fails with UnknownAgent. An empty token fails with MissingToken naming the key. On success the client has the provider's non-empty token and its endpoint copied verbatim, which may be empty. |
| Agent.Ask | pkg/ai/ai.go:14-16 | The call is exactly the selected provider's AskAI on the agent's client. A nil envelope, an empty one, or one holding another provider's request fails without sending. The token is kept and the endpoint is non-empty afterwards. Success happens iff a request was sent, the status is 2xx and the body decodes, and the answer belongs to the selected provider. |
| Agent.EmptyEndpointIsDefaultedOnFirstCall | pkg/ai/ai.go:43-76 | An agent built from a configuration whose endpoint key is missing or empty starts with an empty endpoint. After its first call the endpoint is the provider's default URL. |

## Left out

- HTTP transport is not modelled: building the request, `Client.Do`, reading the body, and the header and timeout mechanics. The parameter `reply` stands for its result. A failure to create the request, including a malformed endpoint URL, is folded into `SendFailed`.
- JSON serialisation of requests is not modelled. The outbound request is the normalised envelope. The Go marshal of these structs cannot fail for the values modelled.
- JSON decoding of responses is not modelled, nor are the response schema structs. The parameter `decodes` is the decoder's verdict, and the answer carries the raw body.
- DeepSeek's optional generation parameters: only `max_tokens` and `temperature` are carried, as fields validation must leave alone. The rest are left out because validation never reads them.
- The ChatGPT image and file request types are left out because no client uses them.
- Viper's file reading is not modelled. The configuration is an injected map plus a read-failed flag.
- Error strings are not modelled. Errors are constructors of one `Error` datatype that carry the relevant data: the status code and body, the missing key, the unknown selector.
- The demo entry point `main.go` only prints results. It is not part of this model.
- A non-nil envelope holding a typed nil request, such as a nil `*TextInputRequest` of the right provider, passes the Go type assertion and then panics on a nil dereference at the model check (`deepseek.go:36`, `claude.go:32`, `chatgpt.go:36`), after the endpoint default. The model has no nil request values, so this panic is not represented.
- A `union` package of the same shape as `pkg/ai/types/common/common.go` defines the envelope the clients use. That package is not part of this model; the `Envelope` datatype stands for it.
