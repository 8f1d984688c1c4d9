# anthropic-max-proxy, modelled in Dafny

The Anthropic MAX proxy is a small HTTP service. It accepts OpenAI-style
chat-completion calls, authenticates to Anthropic with an OAuth 2.0 PKCE
login instead of an API key, forwards each call as an Anthropic Messages call
and translates the answer back. This project models the core of that service
and proves what it promises:

- `translator.dfy` (module `Translator`) covers the model-name table and its
  lookup. It also covers the request translation: the system prompt is pulled
  out of the message list, tool results become `tool_result` blocks, tool
  definitions are converted and optional keys are copied conditionally. The
  complete-response translation covers concatenated text, tool calls with
  position-based ids, the finish-reason table and usage totals. Last is the
  per-event translation of a streamed response.
- `oauth.dfy` (module `OAuth`) covers:
  - the credential record with its expiry test and its dictionary form;
  - the authorization URL and the `code#state` rule of the code exchange;
  - the `TokenManager` class. It holds the cached record, the pending PKCE
    pair and the token file. Its methods load, save, clear, start and
    complete the login, hand out a valid token (refreshing it when it is
    about to expire) and report whether the proxy is authenticated.
- `gateway.dfy` (module `Gateway`) covers the OpenAI-compatible endpoints:
  - the `/v1/models` listing;
  - the part of `/v1/chat/completions` before the upstream call, which is
    the 401 refusal without a token and the upstream headers;
  - the streaming generator. It reads upstream server-sent-event lines,
    remembers the last `event:` type, translates each decodable `data:` line
    and ends with `[DONE]`.
- `wrappers.dfy`, `json.dfy`, `strings.dfy` and `seqs.dfy` hold the modelled
  Python vocabulary:
  - `Option` and `Result`;
  - a JSON value with Python truthiness;
  - `str.split` on one character, `str.join` and `str.startswith`;
  - dictionary lookup in insertion order;
  - the "append what the conversion keeps" list pattern the translator uses
    three times.

Loops in the source are methods with `while` loops. The translator's loops
and the streaming generator are proved equal to a specification function
defined on list prefixes, and the properties are proved about those
functions. The `/v1/models` loop instead states its result entry by entry
against the model table. The token manager is a class
whose methods change its fields and state the new state. Its invariant
`Valid()` says that a cached record is always what a fresh read of the token
file would give.

The clock, the PKCE pair, the token endpoint's answers, the upstream stream
and JSON decoding are inputs, not computations:
- `now` is a whole number of seconds;
- a `TokenGrant` is a successful token-endpoint answer and None a failed one;
- `Upstream` is the upstream status with its body or its lines;
- `decode` is `json.loads` on a `data:` payload.

Where the proxy's documentation and its code differ, the model follows the
code:
- An unknown model name passes through untranslated.
- Messages with roles other than system, user, assistant and tool are
  dropped silently.
- Concurrent token refreshes are not merged into one.
- `[DONE]` is sent after every successful upstream stream, even one that
  ends without `message_stop`.
- A `data:` line that decodes before any `event:` line reads an unbound
  variable in the generator. The model records this as the generator ending
  with an exception (`raised`), with no `[DONE]`.

## Model

| member | source | states |
|---|---|---|
| Translator.TranslateModel | services/anthropic-max-proxy/src/anthropic_max_proxy/translator.py:25-27 | a listed name yields its table value; an unlisted name is returned unchanged |
| Translator.ModelMapValuesAreFixed | services/anthropic-max-proxy/src/anthropic_max_proxy/translator.py:7-22 | every upstream identifier in the table translates to itself |
| Translator.TranslateModelIdempotent | services/anthropic-max-proxy/src/anthropic_max_proxy/translator.py:25-27 | translating a name twice equals translating it once |
| Translator.ConvertMessage | services/anthropic-max-proxy/src/anthropic_max_proxy/translator.py:41-63 | a message is kept iff its role is user, assistant or tool; kept roles are only user or assistant; a tool message becomes a user message with exactly one tool_result block carrying tool_call_id and content |
| Translator.AnthropicMessagesShape | services/anthropic-max-proxy/src/anthropic_max_proxy/translator.py:40-63 | one upstream message per user/assistant/tool message, in input order; system and unknown roles never appear |
| Translator.AnthropicMessagesAppend | services/anthropic-max-proxy/src/anthropic_max_proxy/translator.py:40-65 | translating a concatenation of conversations concatenates their translations |
| Translator.SystemContentsShape | services/anthropic-max-proxy/src/anthropic_max_proxy/translator.py:44-49 | one content per system message, in message order, empty contents included, each the content of its message; none iff there is no system message |
| Translator.SystemPromptIsJoin | services/anthropic-max-proxy/src/anthropic_max_proxy/translator.py:44-49 | the accumulated prompt is None without system messages, else the "\n\n"-join of the system contents from the first non-empty one on |
| Translator.SystemPromptNonEmpty | services/anthropic-max-proxy/src/anthropic_max_proxy/translator.py:44-49 | the prompt is present and non-empty iff some system message has non-empty content |
| Translator.ConvertMessages | services/anthropic-max-proxy/src/anthropic_max_proxy/translator.py:30-65 | the loop returns exactly the specified system prompt and message list |
| Translator.ConvertTool | services/anthropic-max-proxy/src/anthropic_max_proxy/translator.py:75-83 | a tool is kept iff its type is "function"; name, description and parameters default to "", "" and {} |
| Translator.AnthropicToolsShape | services/anthropic-max-proxy/src/anthropic_max_proxy/translator.py:68-85 | no tool list iff the input is absent, empty or has no function tool; otherwise one definition per function tool, in order |
| Translator.ConvertTools | services/anthropic-max-proxy/src/anthropic_max_proxy/translator.py:68-85 | the loop returns exactly the specified tool list |
| Translator.AnthropicRequestOf | services/anthropic-max-proxy/src/anthropic_max_proxy/translator.py:88-128 | translated model, max_tokens default 4096, system present iff some system content is non-empty, temperature/top_p copied, a string stop becomes a one-element list and a list is kept (other types dropped), tools as converted, stream iff the caller's stream is truthy |
| Translator.ConvertRequest | services/anthropic-max-proxy/src/anthropic_max_proxy/translator.py:88-128 | the conditional key insertions build exactly the specified request |
| Translator.FinishReason | services/anthropic-max-proxy/src/anthropic_max_proxy/translator.py:161-169 | the result is stop, length or tool_calls; length iff max_tokens; tool_calls iff tool_use |
| Translator.ConvertToolUse | services/anthropic-max-proxy/src/anthropic_max_proxy/translator.py:142-150 | only tool_use blocks give a call; a missing id becomes "call_" and the block position in decimal; name defaults to "" and input to {} |
| Translator.ToolCallsShape | services/anthropic-max-proxy/src/anthropic_max_proxy/translator.py:139-150 | one tool call per tool_use block, in block order, each with the block's id or its position-based default, its name (default "") and its input as arguments (default {}) |
| Translator.UsageOf | services/anthropic-max-proxy/src/anthropic_max_proxy/translator.py:172-177 | total tokens are prompt plus completion tokens, missing counts are 0 |
| Translator.ChatCompletionOf | services/anthropic-max-proxy/src/anthropic_max_proxy/translator.py:131-190 | content is null iff the concatenated text is empty; tool_calls present iff some block is tool_use; finish reason from the table with end_turn as default; usage, id default and model as given |
| Translator.ConvertResponse | services/anthropic-max-proxy/src/anthropic_max_proxy/translator.py:131-190 | the accumulation loop returns exactly the specified completion |
| Translator.StreamChunk | services/anthropic-max-proxy/src/anthropic_max_proxy/translator.py:193-298 | message_start always gives a role chunk with the message id; text_delta gives a content chunk with the delta text (default ""); input_json_delta gives an arguments chunk with the event index (default 0) and partial JSON (default ""); a tool_use block start gives a tool-call start with index, id and name (defaults 0, "", ""); other content_block_delta and content_block_start events give none; message_delta gives an empty chunk with the mapped finish reason iff stop_reason is non-empty; message_stop gives the fixed stop chunk; other events give none; every chunk other than message_start's has id "chatcmpl-anthropic" and the caller's model |
| OAuth.ToDict | services/anthropic-max-proxy/src/anthropic_max_proxy/oauth.py:36-41 | the record's dictionary has exactly the three credential keys |
| OAuth.FromDict | services/anthropic-max-proxy/src/anthropic_max_proxy/oauth.py:43-49 | a record is read exactly from an object holding the three keys with a string, a string and a number, and carries their values |
| OAuth.FromDictToDict | services/anthropic-max-proxy/src/anthropic_max_proxy/oauth.py:36-49 | reading back a written record gives the same record |
| OAuth.ExpiryWindow | services/anthropic-max-proxy/src/anthropic_max_proxy/oauth.py:32-34 | with the default 60 s margin a record is expired iff at most 60 s of its life are left; once expired it stays expired as time passes or the margin grows |
| OAuth.QueryFieldsHaveNoAmpersand | services/anthropic-max-proxy/src/anthropic_max_proxy/oauth.py:66-77 | no query field contains '&' when the PKCE pair does not |
| OAuth.BuildAuthUrlCarriesPkce | services/anthropic-max-proxy/src/anthropic_max_proxy/oauth.py:64-78 | the URL starts with the authorize endpoint and '?', and when the PKCE pair holds no '&' the rest splits on '&' into eight fields, the sixth carrying the challenge, the seventh S256 and the last the verifier as state |
| OAuth.AuthUrlCarriesPkce | services/anthropic-max-proxy/src/anthropic_max_proxy/oauth.py:64-78 | splitting the query on '&' gives the eight fields back in order, with the fixed client id, redirect URI and scope; the sixth carries the challenge, the seventh S256 and the last the verifier as state |
| OAuth.SplitAuthorizationCode | services/anthropic-max-proxy/src/anthropic_max_proxy/oauth.py:84-86 | code and state contain no '#'; without '#' the state is ""; otherwise "code#state" is a prefix of the input ending at its end or at a second '#' |
| OAuth.CodeParts | services/anthropic-max-proxy/src/anthropic_max_proxy/oauth.py:84-86 | where the first two parts of the '#'-split lie in the code |
| OAuth.CodeExchangeOfPastedCode | services/anthropic-max-proxy/src/anthropic_max_proxy/oauth.py:81-98 | a pasted "code#state" is sent as that code and state, a code without '#' as itself with state "", and the verifier as given |
| OAuth.TokensFromGrant | services/anthropic-max-proxy/src/anthropic_max_proxy/oauth.py:105-110 | the record keeps the granted tokens; it is expired under a margin iff expires_in is at most that margin, so a grant living longer than 60 s is not expired on arrival |
| OAuth.ChosenVerifier | services/anthropic-max-proxy/src/anthropic_max_proxy/oauth.py:186-188 | a non-empty argument wins, else the stored PKCE verifier; None iff neither is non-empty |
| OAuth.StateAfterGetToken | services/anthropic-max-proxy/src/anthropic_max_proxy/oauth.py:197-214 | a token is handed out iff a record is loaded and is fresh or refreshed; a record other than the loaded one is the grant's and is what the file holds; the file changes only to that record or to nothing |
| OAuth.TokenManager.constructor | services/anthropic-max-proxy/src/anthropic_max_proxy/oauth.py:140-143 | a new manager caches nothing and has no pending PKCE pair |
| OAuth.TokenManager.Load | services/anthropic-max-proxy/src/anthropic_max_proxy/oauth.py:149-161 | a cached record is returned without reading the file; otherwise the file's record is returned and cached; a missing or malformed file gives None |
| OAuth.TokenManager.Save | services/anthropic-max-proxy/src/anthropic_max_proxy/oauth.py:163-169 | the record is cached and written so that a fresh read yields it |
| OAuth.TokenManager.Clear | services/anthropic-max-proxy/src/anthropic_max_proxy/oauth.py:171-175 | cache and file are gone, so load yields None |
| OAuth.TokenManager.StartAuthFlow | services/anthropic-max-proxy/src/anthropic_max_proxy/oauth.py:177-181 | the PKCE pair is stored, and the URL and verifier returned come from it |
| OAuth.TokenManager.CompleteAuthFlow | services/anthropic-max-proxy/src/anthropic_max_proxy/oauth.py:183-195 | no verifier: false and no request; a successful exchange saves the record, drops the PKCE pair and authenticates; a failed one changes nothing |
| OAuth.TokenManager.GetValidToken | services/anthropic-max-proxy/src/anthropic_max_proxy/oauth.py:197-214 | the new cache and file are those StateAfterGetToken gives from the old ones and the token handed out is the new cached record's; no record: None; a record that is not expired (it expires more than 60 s from now) gives its token untouched; an expired one is refreshed with its refresh token and either replaced and saved or cleared |
| OAuth.TokenManager.IsAuthenticated | services/anthropic-max-proxy/src/anthropic_max_proxy/oauth.py:216-218 | true iff load yields a record |
| OAuth.SaveThenReload | services/anthropic-max-proxy/src/anthropic_max_proxy/oauth.py:149-169 | a saved record is what a new manager over the same file loads |
| OAuth.LogoutThenToken | services/anthropic-max-proxy/src/anthropic_max_proxy/oauth.py:171-214 | after clear no token is handed out, whatever the refresh answer |
| Gateway.ListModels | services/anthropic-max-proxy/src/anthropic_max_proxy/main.py:132-145 | one entry per table name, in table order, with id = name and anthropic_id = its value; ids are distinct and each translates to its anthropic_id |
| Gateway.UpstreamHeaders | services/anthropic-max-proxy/src/anthropic_max_proxy/main.py:172-177 | Authorization is "Bearer " followed by exactly the token; JSON content type; version 2023-06-01; the beta header splits on ',' back into the beta list in order |
| Gateway.Forward | services/anthropic-max-proxy/src/anthropic_max_proxy/main.py:155-183 | a missing or empty token is refused with 401 and nothing is translated; otherwise the translated request, its headers, the caller's model and the streaming path, which agrees with the request's stream flag |
| Gateway.ChatCompletions | services/anthropic-max-proxy/src/anthropic_max_proxy/main.py:148-183 | the manager moves from its old cache and file to the state StateAfterGetToken gives, and the answer is Forward's for the token it hands out: 401 iff no usable token is left, otherwise the translated request, headers carrying that token, the caller's model and the streaming choice |
| Gateway.FreshProxyRefuses | services/anthropic-max-proxy/src/anthropic_max_proxy/main.py:155-160 | a proxy with no cached record and no token file refuses every chat call with 401 |
| Gateway.StepLine | services/anthropic-max-proxy/src/anthropic_max_proxy/main.py:231-247 | an event line only rebinds the event type to its text after "event: "; only data lines yield or raise; a line raises iff it is a decodable data line with no event type bound; a decodable data line under a bound event type appends its translation when there is one and otherwise changes nothing; any added chunk is that translation |
| Gateway.ScanStopsAfterRaise | services/anthropic-max-proxy/src/anthropic_max_proxy/main.py:236-243 | once the generator has raised, no later line changes anything |
| Gateway.Generate | services/anthropic-max-proxy/src/anthropic_max_proxy/main.py:217-250 | the loop yields exactly the specified frames and ends raising exactly when specified |
| Gateway.LastEventSpec | services/anthropic-max-proxy/src/anthropic_max_proxy/main.py:236-237 | the bound event type is None iff no event line has been read, else the text of the last event line |
| Gateway.NothingBeforeFirstEvent | services/anthropic-max-proxy/src/anthropic_max_proxy/main.py:238-245 | no line before the first event line yields a chunk |
| Gateway.ScanPrefix | services/anthropic-max-proxy/src/anthropic_max_proxy/main.py:231-247 | after any prefix, the loop has raised iff some earlier data line decodes with no event line before it, and then it has yielded nothing; otherwise its event type is the last named and its chunks are those the lines yield on their own, in order |
| Gateway.GenerateOutcome | services/anthropic-max-proxy/src/anthropic_max_proxy/main.py:225-250 | a rejected call yields exactly one error frame and no [DONE]; a stream yields no error frame, raises iff a decodable data line precedes every event line (and then yields nothing), and otherwise yields one chunk frame per yielding line, in line order, followed by exactly one [DONE], which is last |
| Gateway.BlankLineIgnored | services/anthropic-max-proxy/src/anthropic_max_proxy/main.py:232-233 | a blank line changes neither the output nor the event type |
| Gateway.EventLineRebinds | services/anthropic-max-proxy/src/anthropic_max_proxy/main.py:236-237 | an event line yields nothing and binds the text after "event: " |
| Gateway.UndecodableLineSkipped | services/anthropic-max-proxy/src/anthropic_max_proxy/main.py:238-247 | a data line whose payload does not decode yields nothing and changes nothing |
| Strings.NatToStringValue | services/anthropic-max-proxy/src/anthropic_max_proxy/translator.py:144 | the decimal string of a position reads back as that position |

## Left out

- Network and HTTP plumbing is not modelled: FastAPI routing, `StreamingResponse`, the httpx calls, uvicorn and logging (main.py:35-124, 186-209, 252-279). Upstream answers are inputs.
- The `/health`, `/auth/*` and `_handle_non_streaming` handlers are not modelled. They only call the modelled operations and `anthropic_to_openai_response`.
- PKCE generation is not modelled because it is randomness plus SHA-256 and base64url (oauth.py:52-61). The verifier/challenge pair is an input.
- `time.time()` becomes an integer `now`. The `created` timestamps of responses and chunks are left out, and expiry times are whole seconds.
- JSON serialisation (`json.dumps`) of frames, tool-call arguments and the token file is not modelled. Frames are values, and tool-call arguments are the JSON value they encode.
- Message `content` that is not a string (OpenAI content-part lists, null) is not modelled. The source passes it through unchanged in user, assistant and tool messages. In system messages it is joined with `+` (translator.py:46-49): a non-string first system content becomes the prompt as it is, and a non-string content after a non-empty prompt raises TypeError.
- A key present with a JSON null value is modelled as an absent key, so the `.get(k, default)` default applies where the source carries None or raises: `"model": null` gives "" instead of a null model (translator.py:94, main.py:168), a null `tool_call_id` gives "" instead of a null `tool_use_id` (translator.py:60), a tool_use block with a null id gets `call_<i>` instead of a null id (translator.py:144), and null `messages` give an empty list where the source raises TypeError (translator.py:40, 90).
- OAuth.FromDict: a token file that decodes to something other than an object, or has a field of the wrong type, is treated as malformed (None). In the source, a non-object raises and a wrong-typed field is accepted.
- Translator.StreamChunk: a `data:` payload that decodes to JSON the translator cannot read (not an object, a nested field of the wrong type) is not modelled. In the source this raises inside the generator.
- Numbers in JSON are integers. Floating-point temperatures and top_p values are carried as opaque JSON values.
- Exceptions inside `exchange_code` and `refresh_tokens` on a success status with missing keys are not modelled. A grant is either complete or absent.
- OAuth.TokenManager.GetValidToken: a freshly refreshed record is not checked for expiry, as in the source.
- OAuth.TokenManager.Clear keeps a pending PKCE pair, as in the source.
- Concurrency is not modelled. The source refreshes without a lock, so two requests can both refresh.
- The settings (config.py) are taken at their defaults: client id, authorization URL and upstream base URL. Environment overrides are not modelled.
- deploy_agent.py is not part of this model.
