# ollama4j client core, modelled in Dafny

This project models the core of the ollama4j Java client for an Ollama model
server:

- the `OllamaAPI` object: its host normalisation, basic-auth credentials and
  the default request builder, its tool registry, the stream-or-sync choice of
  `generate` and `chat`, and the tool-call loop of `generateWithTools`
  together with `invokeTool`;
- the rules by which the model-management calls (`ps`, `listModels`,
  `deleteModel`, `createModel*`, `pullModel`) turn an HTTP status and body
  into a normal return or an `OllamaBaseException`;
- `OllamaResult`, a value whose `response` is final, with a guarded
  `getStructuredResponse`; the model fixes every field at construction;
- `OllamaChatResult`, an object that holds the caller's message list by
  reference and appends the assistant's answer to it in place.

Layout, one module per file:

| file | module | contents |
|---|---|---|
| Wrappers.dfy | Wrappers | `Option` (Java `null`), `Result` (a value or a thrown exception), `Outcome` (a `void` call that returns or throws) |
| Exceptions.dfy | Exceptions | the exception classes the core throws or wraps |
| Json.dfy | Json | JSON values standing for deserialised Jackson objects; class names |
| JavaStrings.dfy | JavaStrings | `contains`, `endsWith`, `indexOf`, `replace(t, "")`, decimal `int` printing and parsing |
| Base64.dfy | Base64 | the base64 alphabet and padding of section 4 of RFC 4648, with a decoder |
| OllamaResult.dfy | OllamaResults | `OllamaResult`, Java `int`/`long` ranges |
| OllamaChatResult.dfy | OllamaChatResults | chat messages, the shared `MessageList`, the `OllamaChatResult` class |
| StatusRules.dfy | StatusRules | status classification of the model-management endpoints |
| ToolCalls.dfy | ToolCalls | tool-call specs, the registry, `invokeTool` and the dispatch of a list of specs |
| OllamaApi.dfy | OllamaApi | the `OllamaAPI` class and the request objects it fills in |

The HTTP exchange is not modelled. What the server would answer is a parameter:
an `EndpointReplies` value holds the result of the streamed call and of the
synchronous call, and a status-rule function takes the status code and body.
Jackson's `readValue`/`convertValue` and `String.getBytes()` are also
function parameters, so every property holds for every parser and charset.

`chat(request, handler)` appends the assistant's answer to the list object
inside the request, the same object the caller passed in. It does not append to
a copy. `OllamaApi.OllamaApi.Chat` states this (its `modifies` clause names
`request.messages`), and `OllamaChatResults.OllamaChatResult.WithHistory` shows
why: the constructor appends to the list it is handed. The default request
timeout is 10 seconds, as the field initialiser says; the setter's doc comment
says 3.

## Model

| member | source | states |
|---|---|---|
| OllamaApi.NormalizeHost | src/main/java/io/github/ollama4j/OllamaAPI.java:79-85 | exactly one trailing "/" is removed when present; any other host is kept unchanged |
| OllamaApi.NormalizedHostHasNoTrailingSlash | src/main/java/io/github/ollama4j/OllamaAPI.java:79-85 | a host that does not end in "//" is stored with no trailing slash |
| OllamaApi.NormalizeHostStripsOnlyOne | src/main/java/io/github/ollama4j/OllamaAPI.java:80-81 | every host ending in "//" is stored exactly one character shorter and still ends in "/": only a single trailing slash is ever removed |
| OllamaApi.OllamaApi.constructor | src/main/java/io/github/ollama4j/OllamaAPI.java:69-72 | the default client targets http://localhost:11434, has no credentials, an empty tool registry, a 10-second timeout and verbose on |
| OllamaApi.OllamaApi.WithHost | src/main/java/io/github/ollama4j/OllamaAPI.java:79-85 | the host is stored normalised; every other field has its default |
| OllamaApi.OllamaApi.SetBasicAuth | src/main/java/io/github/ollama4j/OllamaAPI.java:93-95 | credentials are set to exactly the given pair; registry, timeout and verbosity are unchanged |
| OllamaApi.BasicAuthHeaderValue | src/main/java/io/github/ollama4j/OllamaAPI.java:904-907 | the value starts with "Basic " and its length is that prefix plus four characters for each started group of three bytes of "username:password" |
| OllamaApi.BasicAuthHeaderDecodes | src/main/java/io/github/ollama4j/OllamaAPI.java:904-907 | the header value is "Basic " followed by a token that base64-decodes back to the bytes of "username:password" |
| OllamaApi.OllamaApi.IsBasicAuthCredentialsSet | src/main/java/io/github/ollama4j/OllamaAPI.java:914-916 | true if and only if credentials are held; a fresh client has none and SetBasicAuth makes it true |
| OllamaApi.OllamaApi.RequestBuilderDefault | src/main/java/io/github/ollama4j/OllamaAPI.java:891-897 | the builder has the given URI and the configured timeout; the JSON content type comes first; an Authorization header is present if and only if credentials are set, and it carries the basic-auth value |
| OllamaApi.OllamaApi.RegisterTool | src/main/java/io/github/ollama4j/OllamaAPI.java:828-830 | afterwards the name resolves; no other registry entry changes; credentials, timeout and verbosity are unchanged |
| OllamaApi.OllamaApi.GenerateSyncForRequestModel | src/main/java/io/github/ollama4j/OllamaAPI.java:873-883 | a handler switches the request to streaming and selects the streamed call; no handler selects the synchronous call and leaves the stream flag alone; no other request field changes |
| OllamaApi.OllamaApi.Generate | src/main/java/io/github/ollama4j/OllamaAPI.java:605-611 | a fresh request carries the model, prompt, raw flag and response class; it streams if and only if a handler is given; the result is that of the selected call |
| OllamaApi.OllamaApi.Chat | src/main/java/io/github/ollama4j/OllamaAPI.java:815-826 | the same stream-or-sync choice; a failed call is rethrown and the caller's list is unchanged; otherwise the result copies the reply's fields, refers to the request's own list, and that list has grown by exactly one assistant message holding the answer |
| OllamaApi.OllamaApi.GenerateWithTools | src/main/java/io/github/ollama4j/OllamaAPI.java:644-663 | the request sent carries the given model and prompt, raw = true, no streaming and no response class; a failed call is rethrown; a null reply raises a NullPointerException; a reply that does not parse after the marker is stripped raises a JsonProcessingException; otherwise the specs are dispatched in order, and the result and the handlers invoked are exactly those of the dispatch specification |
| OllamaApi.OllamaApi.DispatchToolCalls | src/main/java/io/github/ollama4j/OllamaAPI.java:658-660 | the loop over the specs returns exactly the dispatch specification DispatchAll, stopping at the first failure, and calls exactly the handlers HandlersInvoked names |
| OllamaApi.DispatchFailurePropagates | src/main/java/io/github/ollama4j/OllamaAPI.java:658-660 | once a prefix of the specs fails to dispatch, the whole list fails with the same error, so the loop may stop at the first failure |
| ToolCalls.InvokeTool | src/main/java/io/github/ollama4j/OllamaAPI.java:918-933 | an unregistered name fails with ToolInvocationException("Failed to invoke tool: " + name) caused by ToolNotFoundException("No such tool: " + name); a handler's value is returned; a handler's Exception is wrapped the same way; an Error passes through unwrapped |
| ToolCalls.DispatchAll | src/main/java/io/github/ollama4j/OllamaAPI.java:658-660 | the dispatch specification: on success its keys are exactly the specs in the list; a failure carries the error of some spec's own invocation |
| ToolCalls.FirstFailure | src/main/java/io/github/ollama4j/OllamaAPI.java:658-660 | the index of the first spec whose invocation fails: all specs before it succeed, and the one at it fails |
| ToolCalls.DispatchAllCharacterised | src/main/java/io/github/ollama4j/OllamaAPI.java:646-662 | the dispatch succeeds if and only if every spec's invocation succeeds, and then maps every spec to its handler's result; otherwise it fails with the error of the first failing spec |
| ToolCalls.FirstFailureMarksAllSucceed | src/main/java/io/github/ollama4j/OllamaAPI.java:658-660 | no spec fails before the end of the list if and only if every spec's invocation succeeds |
| ToolCalls.DispatchSucceeds | src/main/java/io/github/ollama4j/OllamaAPI.java:658-660 | when every invocation succeeds, the dispatch maps each distinct spec to its handler's value |
| ToolCalls.DispatchFailsAtFirstFailure | src/main/java/io/github/ollama4j/OllamaAPI.java:658-660 | when some invocation fails, the dispatch fails with the error of the first failing spec |
| ToolCalls.FirstFailureOfPrefix | src/main/java/io/github/ollama4j/OllamaAPI.java:658-660 | the first failure within a prefix is the first failure of the whole list, capped at the prefix's length |
| ToolCalls.DispatchEmpty | src/main/java/io/github/ollama4j/OllamaAPI.java:658-661 | an empty list of calls yields an empty result map and invokes no handler |
| ToolCalls.DispatchReadsOnlyNamedTools | src/main/java/io/github/ollama4j/OllamaAPI.java:918-933 | the dispatch and the handlers it invokes depend only on the registry entries for the names the specs use |
| ToolCalls.SameInvocationsSameDispatch | src/main/java/io/github/ollama4j/OllamaAPI.java:658-660 | two registries that invoke every spec alike dispatch the list alike |
| ToolCalls.SameInvocationsSameFirstFailure | src/main/java/io/github/ollama4j/OllamaAPI.java:658-660 | two registries that invoke every spec alike fail first at the same index |
| ToolCalls.StripToolCallsMarker | src/main/java/io/github/ollama4j/OllamaAPI.java:652-655 | text holding "[TOOL_CALLS]" comes back strictly shorter; text without it comes back unchanged |
| ToolCalls.StripIsPlainReplace | src/main/java/io/github/ollama4j/OllamaAPI.java:653-655 | the contains guard does not change the outcome: stripping is a plain remove-all of "[TOOL_CALLS]", and text without the marker is unchanged |
| ToolCalls.StripChangesIff | src/main/java/io/github/ollama4j/OllamaAPI.java:653-655 | stripping changes the text if and only if the text contains "[TOOL_CALLS]" |
| ToolCalls.StripCanLeaveMarker | src/main/java/io/github/ollama4j/OllamaAPI.java:654 | one left-to-right pass can leave a marker behind: stripping "[TOOL_[TOOL_CALLS]CALLS]" yields "[TOOL_CALLS]" |
| JavaStrings.RemoveAll | src/main/java/io/github/ollama4j/OllamaAPI.java:654 | replace(target, "") never lengthens the string; what it removes is stated by the four lemmas below |
| JavaStrings.RemoveAllAbsent | src/main/java/io/github/ollama4j/OllamaAPI.java:654 | replacing an absent target with "" leaves the string unchanged |
| JavaStrings.RemoveAllPresent | src/main/java/io/github/ollama4j/OllamaAPI.java:654 | replacing a present target with "" makes the string strictly shorter |
| JavaStrings.RemoveAllChangesIff | src/main/java/io/github/ollama4j/OllamaAPI.java:653-654 | replace(target, "") changes a string if and only if the string contains the target |
| JavaStrings.RemoveAllKeepsPrefix | src/main/java/io/github/ollama4j/OllamaAPI.java:654 | the text before the first occurrence of the target is kept as it is, and the scan resumes right after that occurrence |
| JavaStrings.IndexOf | src/main/java/io/github/ollama4j/OllamaAPI.java:147 | used by StatusRules.ParseStatusMessage to read a message back: the first position of a character, or the length when it is absent |
| JavaStrings.NatToStringRoundTrip | src/main/java/io/github/ollama4j/OllamaAPI.java:147 | the decimal printing of a status code parses back to the same number |
| JavaStrings.IntToStringRoundTrip | src/main/java/io/github/ollama4j/OllamaAPI.java:147 | the decimal printing of any int, sign included, parses back to it |
| JavaStrings.NegativeRoundTrip | src/main/java/io/github/ollama4j/OllamaAPI.java:147 | a negative int printed with its minus sign parses back to itself |
| JavaStrings.ParseNegative | src/main/java/io/github/ollama4j/OllamaAPI.java:147 | a minus sign followed by digits parses as the negated value of the digits |
| JavaStrings.NonNegativeRoundTrip | src/main/java/io/github/ollama4j/OllamaAPI.java:147 | a non-negative int printed without a sign parses back to itself |
| JavaStrings.IntToStringHasNoSpace | src/main/java/io/github/ollama4j/OllamaAPI.java:147 | a printed status code contains no space, so " - " after it is found at its first space |
| Base64.DecodeChar | src/main/java/io/github/ollama4j/OllamaAPI.java:906 | a decoded alphabet character encodes back to itself |
| Base64.Encode | src/main/java/io/github/ollama4j/OllamaAPI.java:906 | the encoding has four characters for each started group of three bytes |
| Base64.DecodeEncodeTriple | src/main/java/io/github/ollama4j/OllamaAPI.java:906 | a full three-byte group decodes back from its four characters |
| Base64.DecodeEncodeOne | src/main/java/io/github/ollama4j/OllamaAPI.java:906 | a final group of one byte decodes back from its two characters and two "=" |
| Base64.DecodeEncodeTwo | src/main/java/io/github/ollama4j/OllamaAPI.java:906 | a final group of two bytes decodes back from its three characters and one "=" |
| Base64.DecodeEncodeTail | src/main/java/io/github/ollama4j/OllamaAPI.java:906 | a one- or two-byte final group decodes back from its padded four characters |
| Base64.DecodeFullGroup | src/main/java/io/github/ollama4j/OllamaAPI.java:906 | a leading unpadded group decodes on its own, and the rest of the text decodes after it |
| Base64.DecodeEncode | src/main/java/io/github/ollama4j/OllamaAPI.java:906 | every byte sequence decodes back from its base64 encoding |
| StatusRules.StatusMessage | src/main/java/io/github/ollama4j/OllamaAPI.java:147 | the message ends with " - " followed by the body, and what comes before that parses back to the status code |
| StatusRules.StatusMessageRoundTrip | src/main/java/io/github/ollama4j/OllamaAPI.java:147 | the failure message "status - body" gives back both the status and the whole body |
| StatusRules.ExpectOk | src/main/java/io/github/ollama4j/OllamaAPI.java:131-170 | ps and listModels: status 200 passes the body on; any other status raises OllamaBaseException(status + " - " + body) |
| StatusRules.DeleteModelOutcome | src/main/java/io/github/ollama4j/OllamaAPI.java:445-459 | deleteModel returns normally if and only if the status is 200 or it is a 404 whose body mentions "model" and "not found"; otherwise it raises status + " - " + body |
| StatusRules.DeleteExtendsGenericRule | src/main/java/io/github/ollama4j/OllamaAPI.java:453-458 | deleteModel is the generic rule, relaxed for exactly the missing-model reply |
| StatusRules.MissingModelBodyIsRecognised | src/main/java/io/github/ollama4j/OllamaAPI.java:453 | the server's reply for a missing model is recognised |
| StatusRules.DeleteIgnoresFlag | src/main/java/io/github/ollama4j/OllamaAPI.java:445-459 | deleteModel(name, false) on a missing model returns normally |
| StatusRules.DeleteModelOutcomeIntended | src/main/java/io/github/ollama4j/OllamaAPI.java:436-459 | the documented rule: a missing model is tolerated only when ignoreIfNotPresent is true |
| StatusRules.DeleteIntendedHonoursFlag | src/main/java/io/github/ollama4j/OllamaAPI.java:436-459 | the documented rule agrees with the code when the flag is true, and reports the missing model when it is false |
| StatusRules.CreateModelOutcome | src/main/java/io/github/ollama4j/OllamaAPI.java:384-403 | model creation succeeds if and only if the status is 200 and the body does not contain "error"; a non-200 raises status + " - " + body; an error body under 200 raises the body alone |
| StatusRules.CreateStricterThanGenericRule | src/main/java/io/github/ollama4j/OllamaAPI.java:416-433 | creation never succeeds where the generic rule fails, and fails with the same message when the status is not 200 |
| StatusRules.CreateRejectsErrorBody | src/main/java/io/github/ollama4j/OllamaAPI.java:396-398 | every 200 reply whose body contains "error" is a creation failure whose message is the body alone |
| StatusRules.PullModelOutcome | src/main/java/io/github/ollama4j/OllamaAPI.java:308-329 | pullModel returns normally if and only if the status is 200; a failure message holds the status and an empty body |
| StatusRules.PullFailureLosesBody | src/main/java/io/github/ollama4j/OllamaAPI.java:317-328 | a failed pull's message gives back the status and an empty body, whatever JSON progress lines the server sent |
| StatusRules.PullModelOutcomeIntended | src/main/java/io/github/ollama4j/OllamaAPI.java:308-329 | pullModel under the generic rule: it fails exactly when the generic rule fails, with the same message |
| StatusRules.PullIntendedKeepsBody | src/main/java/io/github/ollama4j/OllamaAPI.java:326-328 | under the generic rule a failed pull's message gives back both the status and the server's body |
| OllamaResults.NewResult | src/main/java/io/github/ollama4j/models/response/OllamaResult.java:48-52 | the three-argument constructor keeps its fields and has no response type |
| OllamaResults.NewTypedResult | src/main/java/io/github/ollama4j/models/response/OllamaResult.java:54-59 | the four-argument constructor keeps all four fields |
| OllamaResults.GetStructuredResponse | src/main/java/io/github/ollama4j/models/response/OllamaResult.java:61-77 | a missing response type raises IllegalStateException first; then a null response raises IllegalStateException; otherwise the parsed value is returned, or a parse failure raises RuntimeException("Failed to parse response into type: " + type name) caused by the JsonProcessingException |
| OllamaResults.UntypedResultIsNotStructured | src/main/java/io/github/ollama4j/models/response/OllamaResult.java:48-52 | a result built without a response type is not structured as constructed: the missing type is reported whatever its response and parser |
| OllamaResults.ParseFailureNamesType | src/main/java/io/github/ollama4j/models/response/OllamaResult.java:70-76 | a parse failure's message starts with the fixed prefix and names the requested type |
| OllamaChatResults.AssistantMessage | src/main/java/io/github/ollama4j/models/chat/OllamaChatResult.java:50-53 | the appended message has the ASSISTANT role and the answer as its content |
| OllamaChatResults.MessageList.Add | src/main/java/io/github/ollama4j/models/chat/OllamaChatResult.java:52 | the list grows by exactly the given message at its end |
| OllamaChatResults.OllamaChatResult.Plain | src/main/java/io/github/ollama4j/models/chat/OllamaChatResult.java:21-23 | the fields are kept; there is no chat history and no structured response |
| OllamaChatResults.OllamaChatResult.WithHistory | src/main/java/io/github/ollama4j/models/chat/OllamaChatResult.java:25-29 | the result refers to the caller's own list, which has grown by the assistant's answer |
| OllamaChatResults.OllamaChatResult.Structured | src/main/java/io/github/ollama4j/models/chat/OllamaChatResult.java:36-44 | with a response type, the answer is converted before anything is appended; a conversion failure is thrown and leaves the list unchanged; on success the list has grown by the answer and the converted value is kept |
| OllamaChatResults.OllamaChatResult.GetStructuredResponse | src/main/java/io/github/ollama4j/models/chat/OllamaChatResult.java:31-34 | the override returns the stored structured value with no response-type check, so it never throws; None for a result built without a type |
| OllamaChatResults.OllamaChatResult.GetChatHistory | src/main/java/io/github/ollama4j/models/chat/OllamaChatResult.java:46-48 | the very list object the result holds, so the caller sees the appended answer |
| OllamaChatResults.OllamaChatResult.AsOllamaResult | src/main/java/io/github/ollama4j/models/chat/OllamaChatResult.java:21-23 | seen as an OllamaResult, a chat result as constructed has the same response, time and status and no response type |
| OllamaChatResults.OllamaChatResult.AppendAnswerToChatHistory | src/main/java/io/github/ollama4j/models/chat/OllamaChatResult.java:50-53 | the shared list grows by exactly one assistant message holding the answer |

## Left out

- HTTP, sockets, timeouts and `InterruptedException`: replies are parameters (`EndpointReplies`, status and body), so an `IOException` or `URISyntaxException` never arises in the model.
- The endpoint callers (`OllamaGenerateEndpointCaller`, `OllamaChatEndpointCaller`), their streaming loop and how they build an `OllamaResult` are outside this core; their answers are the parameters above.
- Jackson: `readValue`, `readTree` and `convertValue` are function parameters; `toString` of `OllamaResult` (pretty-printed JSON) is not modelled.
- `String.getBytes()` uses the platform's default charset, which the model takes as a parameter.
- `ping` (`src/main/java/io/github/ollama4j/OllamaAPI.java:102-121`): it reports status 200 as `true` and any other status as `false`, answers `false` on a connect timeout and never raises `OllamaBaseException`; it is a single HTTP exchange.
- `listModelsFromLibrary`, `getLibraryModelDetails`, `findModelTagFromLibrary`: Jsoup HTML scraping.
- `getModelDetails` and the embeddings calls: one HTTP exchange each, judged by the same rule as `StatusRules.ExpectOk`.
- Image generation (`generateWithImageFiles`, `generateWithImageURLs`): it reads files or URLs into base64 strings, then makes the same stream-or-sync choice as `OllamaApi.OllamaApi.GenerateSyncForRequestModel`.
- `generateAsync`: it starts a thread that streams the reply; concurrency is outside this model.
- `addCustomRole`, `listRoles` and `getRole`: they delegate to `OllamaChatMessageRole`'s static registry and make no HTTP call.
- The other `generate` and `chat` overloads, which only build a request and delegate. `Options` maps are not modelled.
- `pullModel` reads the progress lines and parses each with Jackson; a malformed line would throw. `StatusRules.PullModelOutcome` models only the status check after that loop.
- Logging under `verbose` has no observable effect and is left out.
- Lombok's generated setters for `requestTimeoutSeconds` and `verbose`.
- OllamaApi.OllamaApi.RegisterTool: the replacement behaviour of `ToolRegistry.addFunction` is not part of this model, so for a name already registered the contract allows either the new handler or the old one.
- OllamaApi.OllamaApi.GenerateWithTools: a JSON reply of `null` (a null list, which makes the loop throw `NullPointerException`) is not distinguished from a parse result; `parseToolCalls` returns a list or a parse error.
- OllamaApi.OllamaApi.Chat: a request whose message list is `null` would throw `NullPointerException` in the append; the model's `ChatRequest` always holds a list.
- ToolCalls.InvokeTool: handlers are deterministic functions of their arguments. A handler with side effects, or one called twice with the same spec, is not modelled. So when two equal specs overwrite the same `HashMap` entry, the overwrite cannot be observed.
- OllamaApi.OllamaApi.WithHost, ToolCalls.InvokeTool, OllamaChatResults.OllamaChatResult.WithHistory: Java `null` inputs that the Dafny types exclude are not modelled. `new OllamaAPI(null)` throws `NullPointerException` at `host.endsWith`. A spec without a "name" looks up `getFunction(null)` and fails with ToolInvocationException("Failed to invoke tool: null"). A `null` element in the parsed spec list throws `NullPointerException` from the catch block's `getName()`. `new OllamaChatResult(r, t, s, null)` throws `NullPointerException` in the append.
- OllamaResults.NewResult, OllamaResults.UntypedResultIsNotStructured: the Lombok `@Data` setters `setResponseType`, `setHttpStatusCode` and `setResponseTime` of `OllamaResult` are not modelled. A result built without a type and then given one by `setResponseType` can be structured; the model states only what holds as constructed.
- Concurrent use of one client, or of one shared message list, is not modelled.

## Findings

| source | as written | input that shows it | evidently intended | confidence | as-written member | corrected member |
|---|---|---|---|---|---|---|
| src/main/java/io/github/ollama4j/OllamaAPI.java:445-459 | `deleteModel` never reads `ignoreIfNotPresent`: a missing-model 404 always returns normally | `deleteModel("llama2", false)` with status 404 and body "model 'llama2' not found" | the documented behaviour: ignore a missing model only when `ignoreIfNotPresent` is true, otherwise raise "404 - " + body | not executed | StatusRules.DeleteIgnoresFlag | StatusRules.DeleteModelOutcomeIntended |
| src/main/java/io/github/ollama4j/OllamaAPI.java:308-329 | `pullModel` sets `responseString` to "" and never assigns it, so a failure message never holds the server's body | `pullModel(name)` with status 500 and the single progress line `{"status":"pull failed"}`: the message is "500 - " | "500 - {\"status\":\"pull failed\"}", as every other endpoint reports | not executed | StatusRules.PullFailureLosesBody | StatusRules.PullModelOutcomeIntended |
