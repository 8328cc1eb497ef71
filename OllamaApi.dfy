/**
 * The `OllamaAPI` client object: its host, credentials and tool registry, the
 * default request builder, the stream-or-sync choice of `generate` and `chat`,
 * and `generateWithTools`.
 */
module OllamaApi {
  import opened Wrappers
  import opened Exceptions
  import opened Json
  import opened JavaStrings
  import opened OllamaResults
  import opened OllamaChatResults
  import opened ToolCalls
  import Base64

  const DefaultHost: string := "http://localhost:11434"
  const DefaultRequestTimeoutSeconds: int64 := 10

  /** `host.endsWith("/") ? host.substring(0, host.length() - 1) : host`. */
  function NormalizeHost(host: string): (r: string)
    ensures if EndsWith(host, "/") then r + "/" == host else r == host
  {
    if EndsWith(host, "/") then host[..|host| - 1] else host
  }

  /** A host with at most one trailing slash comes out with none. */
  lemma NormalizedHostHasNoTrailingSlash(host: string)
    requires !EndsWith(host, "//")
    ensures !EndsWith(NormalizeHost(host), "/")
  {
    if EndsWith(host, "/") && |host| >= 2 {
      assert host[|host| - 2..] == [host[|host| - 2], '/'];
    }
  }

  /** Only one slash is removed: a host ending in "//" keeps one trailing slash. */
  lemma NormalizeHostStripsOnlyOne(host: string)
    requires EndsWith(host, "//")
    ensures EndsWith(NormalizeHost(host), "/") && |NormalizeHost(host)| == |host| - 1
  {
    var r := NormalizeHost(host);
    assert host[|host| - 2] == '/';
    assert EndsWith(host, "/") && r == host[..|host| - 1];
    assert r[|r| - 1..] == [host[|host| - 2]];
  }

  /** `BasicAuth(username, password)`. */
  datatype BasicAuth = BasicAuth(username: string, password: string)

  /** An HTTP request header. */
  datatype Header = Header(name: string, value: string)

  /** What `getRequestBuilderDefault(uri)` has set on the builder. */
  datatype RequestBuilder = RequestBuilder(uri: string, headers: seq<Header>, timeoutSeconds: int64)

  const ContentTypeJson: Header := Header("Content-Type", "application/json")
  const AuthorizationHeaderName: string := "Authorization"
  const BasicScheme: string := "Basic "

  /**
   * `getBasicAuthHeaderValue()`: "Basic " followed by the base64 of
   * `username + ":" + password` (section 2 of RFC 7617). `getBytes` stands for
   * `String.getBytes()` in the platform's default charset.
   */
  function BasicAuthHeaderValue(auth: BasicAuth, getBytes: string -> seq<Base64.byte>): (v: string)
    ensures |v| == |BasicScheme| + 4 * ((|getBytes(auth.username + ":" + auth.password)| + 2) / 3)
    ensures v[..|BasicScheme|] == BasicScheme
  {
    BasicScheme + Base64.Encode(getBytes(auth.username + ":" + auth.password))
  }

  /**
   * The header value is the scheme followed by a token that decodes back to the
   * bytes of `username:password`.
   */
  lemma BasicAuthHeaderDecodes(auth: BasicAuth, getBytes: string -> seq<Base64.byte>)
    ensures var v := BasicAuthHeaderValue(auth, getBytes);
      |v| >= |BasicScheme| && v[..|BasicScheme|] == BasicScheme
      && Base64.Decode(v[|BasicScheme|..]) == Some(getBytes(auth.username + ":" + auth.password))
  {
    var v := BasicAuthHeaderValue(auth, getBytes);
    Base64.DecodeEncode(getBytes(auth.username + ":" + auth.password));
    assert v[|BasicScheme|..] == Base64.Encode(getBytes(auth.username + ":" + auth.password));
  }

  /** The handle of a per-chunk callback (`OllamaStreamHandler`); only whether one is given matters here. */
  datatype StreamHandler = StreamHandler(id: nat)

  /**
   * What the endpoint caller would return on each path: `call(request, handler)`
   * for a streamed request, `callSync(request)` otherwise. The HTTP exchange
   * and the chunk accumulation behind them are not modelled.
   */
  datatype EndpointReplies = EndpointReplies(streamed: Result<OllamaResult, Throwable>,
                                             sync: Result<OllamaResult, Throwable>)

  /** `Tools.ToolSpecification`: the name a handler is registered under, and the handler. */
  datatype ToolSpecification = ToolSpecification(functionName: string, toolDefinition: ToolFunction)

  /** `OllamaToolsResult`: the model's reply and the tool results keyed by call spec. */
  datatype OllamaToolsResult = OllamaToolsResult(modelResult: OllamaResult,
                                                 toolResults: map<ToolFunctionCallSpec, JsonValue>)

  /** `OllamaGenerateRequest`, with the fields the client sets. */
  class GenerateRequest {
    var model: string
    var prompt: string
    var raw: bool
    var stream: bool
    var responseClass: Option<TypeName>

    constructor (model: string, prompt: string)
      ensures this.model == model && this.prompt == prompt
      ensures !raw && !stream && responseClass == None
    {
      this.model := model;
      this.prompt := prompt;
      raw := false;
      stream := false;
      responseClass := None;
    }
  }

  /** `OllamaChatRequest`: the message list is shared with whoever built the request. */
  class ChatRequest {
    var model: string
    var messages: MessageList
    var stream: bool
    var responseClass: Option<TypeName>

    constructor (model: string, messages: MessageList)
      ensures this.model == model && this.messages == messages
      ensures !stream && responseClass == None
    {
      this.model := model;
      this.messages := messages;
      stream := false;
      responseClass := None;
    }
  }

  class OllamaApi {
    const host: string
    var requestTimeoutSeconds: int64
    var verbose: bool
    var basicAuth: Option<BasicAuth>
    var toolRegistry: ToolRegistry

    /** `OllamaAPI()`: the default local server. */
    constructor ()
      ensures host == DefaultHost && !IsBasicAuthCredentialsSet() && toolRegistry == map[]
      ensures requestTimeoutSeconds == DefaultRequestTimeoutSeconds && verbose
    {
      host := DefaultHost;
      requestTimeoutSeconds := DefaultRequestTimeoutSeconds;
      verbose := true;
      basicAuth := None;
      toolRegistry := map[];
    }

    /** `OllamaAPI(host)`: one trailing slash is dropped. */
    constructor WithHost(host: string)
      ensures this.host == NormalizeHost(host)
      ensures !IsBasicAuthCredentialsSet() && toolRegistry == map[]
      ensures requestTimeoutSeconds == DefaultRequestTimeoutSeconds && verbose
    {
      this.host := NormalizeHost(host);
      requestTimeoutSeconds := DefaultRequestTimeoutSeconds;
      verbose := true;
      basicAuth := None;
      toolRegistry := map[];
    }

    /** `setBasicAuth(username, password)`. */
    method SetBasicAuth(username: string, password: string)
      modifies this
      ensures basicAuth == Some(BasicAuth(username, password)) && IsBasicAuthCredentialsSet()
      ensures toolRegistry == old(toolRegistry) && requestTimeoutSeconds == old(requestTimeoutSeconds)
      ensures verbose == old(verbose)
    {
      basicAuth := Some(BasicAuth(username, password));
    }

    /** `isBasicAuthCredentialsSet()`. */
    function IsBasicAuthCredentialsSet(): (isSet: bool)
      reads this
      ensures isSet <==> basicAuth.Some?
    {
      basicAuth.Some?
    }

    /**
     * `getRequestBuilderDefault(uri)`: a JSON content type, the configured
     * timeout, and an Authorization header exactly when credentials are set.
     */
    function RequestBuilderDefault(uri: string, getBytes: string -> seq<Base64.byte>): (b: RequestBuilder)
      reads this
      ensures b.uri == uri && b.timeoutSeconds == requestTimeoutSeconds
      ensures |b.headers| >= 1 && b.headers[0] == ContentTypeJson
      ensures (exists i :: 0 <= i < |b.headers| && b.headers[i].name == AuthorizationHeaderName)
              <==> IsBasicAuthCredentialsSet()
      ensures IsBasicAuthCredentialsSet() ==>
              b.headers == [ContentTypeJson, Header(AuthorizationHeaderName, BasicAuthHeaderValue(basicAuth.value, getBytes))]
      ensures !IsBasicAuthCredentialsSet() ==> b.headers == [ContentTypeJson]
    {
      var headers := [ContentTypeJson]
        + (if IsBasicAuthCredentialsSet()
           then [Header(AuthorizationHeaderName, BasicAuthHeaderValue(basicAuth.value, getBytes))]
           else []);
      assert headers[0].name != AuthorizationHeaderName;
      assert IsBasicAuthCredentialsSet() ==> headers[1].name == AuthorizationHeaderName;
      RequestBuilder(uri, headers, requestTimeoutSeconds)
    }

    /**
     * `registerTool(spec)`: the tool becomes resolvable under its name and no
     * other entry changes. Whether an existing entry under the same name is
     * replaced is up to `ToolRegistry.addFunction`, so both are allowed.
     */
    method RegisterTool(spec: ToolSpecification)
      modifies this
      ensures toolRegistry.Keys == old(toolRegistry.Keys) + {spec.functionName}
      ensures forall n :: n in old(toolRegistry) && n != spec.functionName ==> toolRegistry[n] == old(toolRegistry)[n]
      ensures toolRegistry[spec.functionName] == spec.toolDefinition
              || (spec.functionName in old(toolRegistry)
                  && toolRegistry[spec.functionName] == old(toolRegistry)[spec.functionName])
      ensures basicAuth == old(basicAuth) && requestTimeoutSeconds == old(requestTimeoutSeconds)
      ensures verbose == old(verbose)
    {
      toolRegistry := toolRegistry[spec.functionName := spec.toolDefinition];
    }

    /**
     * `generateSyncForOllamaRequestModel(request, handler)`: with a handler the
     * request is switched to streaming and sent through `call`; without one it
     * goes through `callSync` and its stream flag is left as it was.
     */
    method GenerateSyncForRequestModel(request: GenerateRequest, handler: Option<StreamHandler>,
                                       replies: EndpointReplies)
      returns (r: Result<OllamaResult, Throwable>)
      modifies request
      ensures request.stream == (handler.Some? || old(request.stream))
      ensures handler.Some? ==> request.stream && r == replies.streamed
      ensures handler.None? ==> r == replies.sync
      ensures request.model == old(request.model) && request.prompt == old(request.prompt)
      ensures request.raw == old(request.raw) && request.responseClass == old(request.responseClass)
    {
      if handler.Some? {
        request.stream := true;
        r := replies.streamed;
      } else {
        r := replies.sync;
      }
    }

    /**
     * `generate(model, prompt, raw, options, handler, format)`: a fresh request
     * with the given raw flag and response class, sent by
     * `generateSyncForOllamaRequestModel`; `request` is that request after the call.
     */
    method Generate(model: string, prompt: string, raw: bool, handler: Option<StreamHandler>,
                    format: Option<TypeName>, replies: EndpointReplies)
      returns (r: Result<OllamaResult, Throwable>, request: GenerateRequest)
      ensures fresh(request)
      ensures request.model == model && request.prompt == prompt
      ensures request.raw == raw && request.responseClass == format
      ensures request.stream <==> handler.Some?
      ensures r == if handler.Some? then replies.streamed else replies.sync
    {
      request := new GenerateRequest(model, prompt);
      request.raw := raw;
      request.responseClass := format;
      r := GenerateSyncForRequestModel(request, handler, replies);
    }

    /**
     * `chat(request, handler)`: the same stream-or-sync choice, then an
     * `OllamaChatResult` built on the request's own message list, which thereby
     * grows by the assistant's answer. A failing call throws before anything is
     * appended.
     */
    method Chat(request: ChatRequest, handler: Option<StreamHandler>, replies: EndpointReplies)
      returns (r: Result<OllamaChatResult, Throwable>)
      modifies request, request.messages
      ensures request.messages == old(request.messages)
      ensures request.stream == (handler.Some? || old(request.stream))
      ensures request.model == old(request.model) && request.responseClass == old(request.responseClass)
      ensures var reply := if handler.Some? then replies.streamed else replies.sync;
        && (r.Err? <==> reply.Err?)
        && (r.Err? ==> r.error == reply.error && request.messages.items == old(request.messages.items))
        && (r.Ok? ==>
              && fresh(r.value)
              && r.value.chatHistory == Some(request.messages)
              && r.value.response == reply.value.response
              && r.value.responseTime == reply.value.responseTime
              && r.value.httpStatusCode == reply.value.httpStatusCode
              && r.value.structuredResponse == None
              && request.messages.items == old(request.messages.items) + [AssistantMessage(reply.value.response)])
    {
      var result: Result<OllamaResult, Throwable>;
      if handler.Some? {
        request.stream := true;
        result := replies.streamed;
      } else {
        result := replies.sync;
      }
      if result.Err? {
        return Err(result.error);
      }
      var reply := result.value;
      var chatResult := new OllamaChatResult.WithHistory(reply.response, reply.responseTime,
                                                          reply.httpStatusCode, request.messages);
      r := Ok(chatResult);
    }

    /**
     * `generateWithTools(model, prompt, options)`: a raw, non-streamed generate
     * call; the marker is stripped from the reply text, the rest is parsed as a
     * list of call specs (`parseToolCalls` stands for Jackson's `readValue`,
     * failing with the message of its `JsonProcessingException`), and the specs
     * are dispatched in order into a result map, stopping at the first failure.
     * `invoked` lists the handlers called, in order.
     */
    method GenerateWithTools(model: string, prompt: string, replies: EndpointReplies,
                             parseToolCalls: string -> Result<seq<ToolFunctionCallSpec>, string>)
      returns (r: Result<OllamaToolsResult, Throwable>, sent: GenerateRequest, ghost invoked: seq<ToolFunctionCallSpec>)
      ensures sent.model == model && sent.prompt == prompt
      ensures sent.raw && !sent.stream && sent.responseClass == None
      ensures replies.sync.Err? ==> r == Err(replies.sync.error)
      ensures replies.sync.Ok? && replies.sync.value.response.None? ==> r == Err(NullPointerException)
      ensures replies.sync.Ok? && replies.sync.value.response.Some? ==>
        var parsed := parseToolCalls(StripToolCallsMarker(replies.sync.value.response.value));
        && (parsed.Err? ==> r == Err(JsonProcessingException(parsed.error)))
        && (parsed.Ok? ==>
              var dispatched := DispatchAll(toolRegistry, parsed.value);
              && (r.Ok? <==> dispatched.Ok?)
              && (r.Ok? ==> r.value == OllamaToolsResult(replies.sync.value, dispatched.value))
              && (r.Err? ==> r.error == dispatched.error))
      ensures invoked ==
        if replies.sync.Err? || replies.sync.value.response.None? then []
        else match parseToolCalls(StripToolCallsMarker(replies.sync.value.response.value))
             case Err(_) => []
             case Ok(specs) => HandlersInvoked(toolRegistry, specs)
    {
      invoked := [];
      var generated;
      generated, sent := Generate(model, prompt, true, None, None, replies);
      if generated.Err? {
        return Err(generated.error), sent, invoked;
      }
      var result := generated.value;
      if result.response.None? {
        return Err(NullPointerException), sent, invoked;
      }
      var toolsResponse := result.response.value;
      if Contains(toolsResponse, ToolCallsMarker) {
        toolsResponse := RemoveAll(toolsResponse, ToolCallsMarker);
      }
      var parsed := parseToolCalls(toolsResponse);
      if parsed.Err? {
        return Err(JsonProcessingException(parsed.error)), sent, invoked;
      }
      var dispatched;
      dispatched, invoked := DispatchToolCalls(parsed.value);
      if dispatched.Err? {
        return Err(dispatched.error), sent, invoked;
      }
      r := Ok(OllamaToolsResult(result, dispatched.value));
    }

    /**
     * The loop of `generateWithTools`: each spec is invoked in list order and
     * its result `put` under the spec; the first `invokeTool` that throws ends
     * the loop. `invoked` lists the handlers called, in order.
     */
    method DispatchToolCalls(specs: seq<ToolFunctionCallSpec>)
      returns (r: Result<map<ToolFunctionCallSpec, JsonValue>, Throwable>, ghost invoked: seq<ToolFunctionCallSpec>)
      ensures r == DispatchAll(toolRegistry, specs)
      ensures invoked == HandlersInvoked(toolRegistry, specs)
    {
      invoked := [];
      var toolResults: map<ToolFunctionCallSpec, JsonValue> := map[];
      var i := 0;
      assert specs[..i] == [] && DispatchAll(toolRegistry, []) == Ok(toolResults);
      while i < |specs|
        invariant 0 <= i <= |specs|
        invariant DispatchAll(toolRegistry, specs[..i]) == Ok(toolResults)
        invariant FirstFailure(toolRegistry, specs) >= i
        invariant invoked == specs[..i]
      {
        var spec := specs[i];
        assert specs[..i + 1] == specs[..i] + [spec];
        var outcome := InvokeTool(toolRegistry, spec);
        if spec.name in toolRegistry {
          invoked := invoked + [spec];
        }
        if outcome.Err? {
          DispatchFailurePropagates(toolRegistry, specs, i + 1);
          assert FirstFailure(toolRegistry, specs) == i;
          return Err(outcome.error), invoked;
        }
        toolResults := toolResults[spec := outcome.value];
        i := i + 1;
      }
      assert FirstFailure(toolRegistry, specs) == i && specs[..i] == specs;
      r := Ok(toolResults);
    }
  }

  /** Once a prefix of the specs fails, the whole dispatch fails with the same error. */
  lemma {:induction false} DispatchFailurePropagates(registry: ToolRegistry, specs: seq<ToolFunctionCallSpec>, j: nat)
    requires j <= |specs| && DispatchAll(registry, specs[..j]).Err?
    ensures DispatchAll(registry, specs) == DispatchAll(registry, specs[..j])
    decreases |specs| - j
  {
    if j < |specs| {
      var next := specs[..j + 1];
      assert next[..j] == specs[..j];
      DispatchFailurePropagates(registry, specs, j + 1);
    } else {
      assert specs[..j] == specs;
    }
  }
}
