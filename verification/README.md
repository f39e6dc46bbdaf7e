# sublinkPro LLM assistant — Dafny model

sublinkPro can ask an OpenAI-compatible chat-completion service to organise a user's
proxy nodes into groups or to write subscription rules for them, and it can test the
connection to such a service. This project models the decision logic of that feature:

- `services/llm/llm.go` (module `LlmService`, pure functions and lemmas): reading the
  three settings (`GetConfig`), normalising the endpoint URL (`buildEndpointURL`), the
  one request/response exchange of `callAPI` with its ordered failure checks, the prompt
  selection of `OrganizeNodes` and `GenerateRules`, and `TestConnection`;
- `api/llm.go` (module `LlmApi`, methods): the three gin handlers, which validate and
  default the bound request, project each posted node to a secret-free `NodeInfo` in a
  loop, call the service and turn its outcome into a single reply.

Two helper modules hold what the Go standard library provides: `GoStrings` and
`Results` (`Option`, `Result`). `GoStrings` has `strings.HasSuffix` and
`strings.TrimRight`, which the client applies to the endpoint URL, and the `%d` rendering
of an `int`, which it uses in an error text. It also has `strings.HasPrefix`, a byte
search in the manner of `strings.IndexByte`, and the inverse of `%d`. The model's own
readers of error texts and Bearer credentials use these; the code does not.

Everything the code does not decide itself is a parameter. The settings store is a
`map<string, string>` read through `Setting` (absent key gives ""). JSON encoding and
decoding, `http.NewRequest` and the HTTP round trip are the five functions of a
`Backend` value. `protocol.GetProtocolFromLink` is the function `protocolOf`. Request
binding is an `Option`, with `None` for a body that does not bind.

Main results:

- the endpoint rule in its three cases, its idempotence, and that trailing slashes are
  ignored in the third case. The model keeps the behaviour of the code for a URL ending
  in `/v1/`: the slash does not count as the end of `/v1`, so
  `https://x/v1/` becomes `https://x/v1/v1/chat/completions` (`SlashAfterV1`);
- the order of `callAPI`'s checks: a status other than 200 is reported with its status
  and body before any decoding, and success returns the first choice's content unchanged;
- the request carries the configured model, the caller's messages verbatim and the key
  as a Bearer credential (section 2.1 of RFC 6750);
- every error has its own text, which can be read back to the error
  (`ErrorTextRoundTrip`); the handlers' failure replies are exactly a fixed prefix
  followed by that text;
- the handlers reject an empty node list and missing credentials before the service is
  used, default the client type and model, and send only the projected nodes.

Besides missing settings, request encoding and construction, transport failures,
rejected statuses, unparsable responses and empty choice lists, the code reports a
failure to read the response body, a failure to encode the node list, and an empty
connection-test result; the model has all of them.

## Model

| member | source | states |
|---|---|---|
| GoStrings.TrimRight | services/llm/llm.go:82 | `strings.TrimRight(s, cutset)`: the result is a prefix of `s`, everything cut off is in the cutset, and the result is empty or ends outside the cutset |
| GoStrings.TrimRightUnique | services/llm/llm.go:82 | those three properties determine the trimmed string uniquely |
| GoStrings.TrimRightAppendCut | services/llm/llm.go:82 | appending cutset characters does not change the trimmed result, and trimming twice equals trimming once |
| GoStrings.HasSuffix | services/llm/llm.go:76-79 | `strings.HasSuffix`: true exactly when `s` is some head followed by `suffix` |
| GoStrings.FormatInt | services/llm/llm.go:121 | the `%d` text of a status code is non-empty, starts with a minus sign exactly for negative values, is digits everywhere after its first character, and has no leading zero (the magnitude is "0" or starts with a non-zero digit) |
| GoStrings.ParseIntOfFormatInt | services/llm/llm.go:121 | the status code can be read back from its `%d` text |
| GoStrings.FormatIntInjective | services/llm/llm.go:121 | distinct status codes print differently |
| LlmService.ErrorText | services/llm/llm.go:58-282 | every error text is non-empty; the text of an error wrapping a Go error ends with that error's full text; a rejected status's text starts with its fixed prefix and ends with the separator and the complete response body |
| LlmService.ErrorTextRoundTrip | services/llm/llm.go:58-282 | the texts of all errors (missing URL or key, request encoding, request construction, transport, body read, upstream status with body, response parse, no choices, node encoding, empty test result) read back to the same error |
| LlmService.ErrorTextInjective | services/llm/llm.go:58-282 | two different errors never have the same text |
| LlmService.Setting | services/llm/llm.go:53-55 | a setting is its stored value, or "" when absent |
| LlmService.GetConfig | services/llm/llm.go:52-72 | empty URL gives the URL error even if the key is empty too; a non-empty URL with an empty key gives the key error; otherwise URL and key pass unchanged and the model is the setting, or gpt-3.5-turbo when it is empty |
| LlmService.BuildEndpointURL | services/llm/llm.go:75-83 | the result always ends in /chat/completions; a URL already ending so is unchanged; a URL ending in /v1 gets /chat/completions appended; any other URL is cut back by TrimRight (whose contract says what is removed) and gets /v1/chat/completions once |
| LlmService.SuffixesExclusive | services/llm/llm.go:76-81 | no URL ends both in /chat/completions and in /v1, so the first two cases never overlap |
| LlmService.EndpointIdempotent | services/llm/llm.go:75-83 | normalising twice equals normalising once |
| LlmService.TrailingSlashesIgnored | services/llm/llm.go:82 | for URLs ending neither in /chat/completions nor in /v1, appending slashes does not change the endpoint |
| LlmService.PlainBase | services/llm/llm.go:82 | a URL whose last character is not '/', '1' or 's' gets exactly /v1/chat/completions appended |
| LlmService.BaseAndV1Agree | services/llm/llm.go:79-82 | in the third case (a URL ending neither in /chat/completions nor in /v1, and not in a slash), the URL and the same URL plus /v1 give the same endpoint |
| LlmService.SlashAfterV1 | services/llm/llm.go:79-82 | a URL ending in /v1 followed by one slash gets a second /v1 (URL + /v1/chat/completions), unlike the same URL without the slash |
| LlmService.ExampleBase | services/llm/llm.go:75-83 | https://api.openai.com becomes https://api.openai.com/v1/chat/completions |
| LlmService.ExampleV1 | services/llm/llm.go:79-81 | https://api.openai.com followed by /v1 becomes the same endpoint |
| LlmService.ExampleFull | services/llm/llm.go:76-78 | that endpoint is left unchanged |
| LlmService.ExampleV1Slash | services/llm/llm.go:79-82 | https://x followed by /v1/ becomes https://x/v1/v1/chat/completions |
| LlmService.ChatRequestFor | services/llm/llm.go:87-91 | the request body carries the configured model, the caller's messages in order, temperature 0.7 and no token cap |
| LlmService.OutgoingRequest | services/llm/llm.go:98-106 | the request is a POST to BuildEndpointURL of the configured URL with the encoded body, Content-Type application/json, and an Authorization header whose Bearer credential is exactly the API key |
| LlmService.Interpret | services/llm/llm.go:109-133 | transport failure, then body-read failure, then a status other than 200 (error with status and body), then a decode failure, then zero choices; success exactly when none of these holds, returning the first choice's content unchanged |
| LlmService.NonOkStatusIgnoresDecoder | services/llm/llm.go:120-127 | a status other than 200 gives the same result whatever the decoder would do |
| LlmService.CallAPI | services/llm/llm.go:86-134 | a request-encoding failure and a request-construction failure are reported before anything is sent; otherwise the result is the decision chain applied to the answer to the one outgoing request |
| LlmService.CallAPIAsksOnce | services/llm/llm.go:100-113 | the result depends on the network only through its answer to that one request |
| LlmService.OrganizeUserPrompt | services/llm/llm.go:177-180 | the node JSON sits verbatim after the fixed header, followed by the instruction label and the instruction, or by the default request when the instruction is empty |
| LlmService.OrganizeMessages | services/llm/llm.go:182-185 | exactly two messages: system prompt first, then user prompt |
| LlmService.OrganizeNodes | services/llm/llm.go:146-194 | a configuration error is returned as is; a node-encoding failure is reported; otherwise the result is callAPI's on the two messages |
| LlmService.Flavour | services/llm/llm.go:208-224 | "clash" and only "clash" selects the Clash branch, "surge" and only "surge" the Surge branch, every other client type (the empty one included) the generic one |
| LlmService.FormatDescription | services/llm/llm.go:209-224 | the description chosen by the switch: the Clash one, and only it, starts by naming Clash; the Surge one, and only it, starts by naming Surge; the generic text starts with neither name |
| LlmService.FormatDescriptionsDistinct | services/llm/llm.go:210-224 | the three rule-format descriptions are pairwise different |
| LlmService.RulesSystemPrompt | services/llm/llm.go:226-247 | the system prompt starts with the fixed head, the client type, the fixed middle and the format description selected for that client type, each at its fixed place |
| LlmService.RulesUserPrompt | services/llm/llm.go:249-254 | the node JSON sits verbatim after the header; a non-empty instruction follows its label, an empty one is replaced by the default request |
| LlmService.RulesMessages | services/llm/llm.go:256-259 | exactly two messages: system prompt first, then user prompt |
| LlmService.GenerateRules | services/llm/llm.go:197-268 | same order of outcomes as OrganizeNodes, with the rule prompts |
| LlmService.ConfigErrorPrecedesBackend | services/llm/llm.go:147-150 | with the URL or the key missing, both operations fail with a configuration error and give the same result for every backend |
| LlmService.TestConnection | services/llm/llm.go:271-286 | success exactly when callAPI on the one test message succeeds with non-empty text; callAPI's error is returned as is; an empty text gives the empty-result error |
| LlmApi.Projected | api/llm.go:34-44 | one summary per posted node, same length and order, copying id, name, country and group and putting the link's protocol in place of the link |
| LlmApi.Summary | api/llm.go:88-94 | a posted node's summary copies its id, name, country and group, and holds the protocol of its link in place of the link |
| LlmApi.ProjectionHidesLinks | api/llm.go:34-44 | node lists that differ only in links with the same protocol project identically, so no link reaches the service |
| LlmApi.ProjectNodes | api/llm.go:86-95 | the append loop yields exactly the projected node list |
| LlmApi.Relay | api/llm.go:46-54 | a success reply exactly when the service succeeded, carrying its result; otherwise a failure whose message is exactly the fixed prefix followed by the service error's text, which reads back to that error |
| LlmApi.OrganizeNodesHandler | api/llm.go:12-55 | an unbound body or an empty node list is rejected before the service is used; otherwise the reply relays OrganizeNodes on the projected nodes |
| LlmApi.GenerateRulesHandler | api/llm.go:58-106 | as above; an empty client type reaches GenerateRules as "clash", any other passes unchanged |
| LlmApi.EmptyClientTypeGetsClashRules | api/llm.go:81-83 | an empty client type would select the generic format in the service; after the handler's default it selects the Clash format instead |
| LlmApi.TestConnectionHandler | api/llm.go:109-142 | empty URL or key is rejected before any call; the configuration carries the posted URL and key and the model or gpt-3.5-turbo; success reply exactly when TestConnection succeeds, otherwise a failure whose message is exactly the prefix followed by its error's text, which reads back to that error |

## Left out

- HTTP I/O: `http.NewRequest`, `client.Do`, `io.ReadAll`, closing the body and the
  120-second client timeout are the `newRequest` and `roundTrip` functions of `Backend`;
  a timeout is a transport failure or, when it strikes while the body is read, a read
  failure, and `roundTrip` may return either.
- `encoding/json`: encoding the request and the node list and decoding the response are
  `Backend` functions; their failures are inputs.
- `models.GetSetting`: the settings store is a map passed in; its own errors are ignored
  by the code and by the model.
- `protocol.GetProtocolFromLink` is not part of this model; it is the parameter
  `protocolOf`.
- The temperature is the Dafny `real` 0.7, not a float64; no floating-point behaviour is
  modelled.
- `Header.Set`'s canonicalisation of header names is not modelled; both names the client
  sets are already canonical.
- Go strings are byte sequences, Dafny strings sequences of characters. The suffixes
  and the cut character the code compares are ASCII, so the results agree.
- gin's request binding is reduced to "binds or not"; `utils.Info` logging and the route
  registration in routers/llm.go have no behaviour to state.
