/**
 * The adapter object: its construction from the configuration, the building of a
 * chat-completion request, and the handling of the vendor's reply for the plain
 * and the streaming call (customApiContentGenerator.ts, constructor,
 * generateContent, generateContentStreamInternal). The HTTP exchange itself is
 * not modelled: the reply is an input.
 */
module Provider {
  import opened Wrappers
  import opened JsonModel
  import opened TextUtil
  import opened Canonical
  import opened RequestTranslation
  import opened ToolDeclarations
  import opened ResponseTranslation
  import opened StreamReconstruction
  import opened Capabilities

  /** The configuration the adapter is built from; `None` is an absent setting. */
  datatype Config = Config(
    apiKey: Option<string>,
    model: string,
    customEndpoint: Option<string>,
    customHeaders: Option<map<string, string>>)

  /** The adapter's fields, never changed after construction. */
  datatype Adapter = Adapter(apiKey: string, model: string, baseUrl: string, customHeaders: map<string, string>)

  const MissingApiKey: string := "Custom API key is required"
  const MissingEndpoint: string := "Custom API endpoint is required"

  /** `s.replace(/\/$/, '')`: one trailing slash is removed, no more. */
  function StripTrailingSlash(s: string): (r: string)
    ensures |s| > 0 && s[|s| - 1] == '/' ==> s == r + "/"
    ensures !(|s| > 0 && s[|s| - 1] == '/') ==> r == s
  {
    if |s| > 0 && s[|s| - 1] == '/' then s[..|s| - 1] else s
  }

  /** A setting that JavaScript treats as true: present and not empty. */
  predicate Given(s: Option<string>)
  {
    s.Some? && s.value != ""
  }

  /**
   * The constructor: a missing key is reported first, then a missing endpoint;
   * otherwise the endpoint loses one trailing slash and absent headers become none.
   */
  function NewAdapter(config: Config): (r: Result<Adapter, string>)
    ensures !Given(config.apiKey) ==> r == Failure(MissingApiKey)
    ensures Given(config.apiKey) && !Given(config.customEndpoint) ==> r == Failure(MissingEndpoint)
    ensures r.Success? <==> Given(config.apiKey) && Given(config.customEndpoint)
    ensures r.Success? ==>
      && r.value.apiKey == config.apiKey.value
      && r.value.model == config.model
      && r.value.baseUrl == StripTrailingSlash(config.customEndpoint.value)
      && r.value.customHeaders == config.customHeaders.GetOr(map[])
  {
    if !Given(config.apiKey) then Failure(MissingApiKey)
    else if !Given(config.customEndpoint) then Failure(MissingEndpoint)
    else Success(Adapter(config.apiKey.value, config.model, StripTrailingSlash(config.customEndpoint.value),
                         config.customHeaders.GetOr(map[])))
  }

  /** An endpoint of a single slash passes the constructor but leaves an empty base URL. */
  lemma SlashOnlyEndpointLeavesEmptyBaseUrl(key: string, model: string)
    requires key != ""
    ensures var r := NewAdapter(Config(Some(key), model, Some("/"), None));
      r.Success? && r.value.baseUrl == ""
  {
  }

  datatype GenerationConfig = GenerationConfig(temperature: Option<real>, topP: Option<real>, maxOutputTokens: Option<int>)
  datatype GenerateRequest = GenerateRequest(contents: ContentsInput, config: Option<GenerationConfig>, tools: Option<seq<Tool>>)

  /** The body of a chat-completion request; `None` fields are omitted. */
  datatype ApiRequest = ApiRequest(
    model: string,
    messages: seq<Message>,
    temperature: Option<real>,
    topP: Option<real>,
    maxTokens: Option<int>,
    stream: Option<bool>,
    functions: Option<seq<WireFunction>>)

  /**
   * The request both calls send: the converted messages, the sampling settings,
   * `stream: true` for the streaming call only, and the tools only when the
   * registry believes the model takes them.
   */
  method BuildRequest(adapter: Adapter, registry: Registry, request: GenerateRequest,
                      stringify: Json -> string, streaming: bool)
    returns (sent: ApiRequest)
    ensures sent.model == adapter.model
    ensures sent.messages == MessagesOf(stringify, Normalize(request.contents))
    ensures sent.functions == RequestFunctions(SupportsTools(registry, adapter.model), request.tools)
    ensures !SupportsTools(registry, adapter.model) ==> sent.functions.None?
    ensures sent.stream == (if streaming then Some(true) else None)
    ensures request.config.None? ==> sent.temperature.None? && sent.topP.None? && sent.maxTokens.None?
    ensures request.config.Some? ==>
      && sent.temperature == request.config.value.temperature
      && sent.topP == request.config.value.topP
      && sent.maxTokens == request.config.value.maxOutputTokens
  {
    var supportsTools := SupportsTools(registry, adapter.model);
    var messages := ConvertToMessages(stringify, request.contents);
    var temperature, topP, maxTokens := None, None, None;
    if request.config.Some? {
      temperature, topP, maxTokens :=
        request.config.value.temperature, request.config.value.topP, request.config.value.maxOutputTokens;
    }
    sent := ApiRequest(adapter.model, messages, temperature, topP, maxTokens,
                       if streaming then Some(true) else None,
                       if supportsTools then ConvertTools(request.tools) else None);
  }

  /** Why a call failed. */
  datatype AdapterError =
    | ApiError(status: nat, body: string)
    | NoResponseBody
    | Conversion(cause: ConversionError)

  const ApiErrorPrefix: string := "Custom API error: "

  /** The message of the error thrown for a non-success reply: the status in decimal, then the body. */
  function ApiErrorMessage(status: nat, body: string): string
  {
    ApiErrorPrefix + NatToDecimal(status) + " - " + body
  }

  /**
   * The message an error is thrown with. A conversion failure surfaces the runtime's
   * own exception, whose text is not part of this model.
   */
  function ErrorMessage(e: AdapterError): Option<string>
  {
    match e
    case ApiError(status, body) => Some(ApiErrorMessage(status, body))
    case NoResponseBody => Some("No response body")
    case Conversion(_) => None
  }

  /** The message of a non-success reply names its status, which reads back from the digits, and then its body. */
  lemma ApiErrorMessageCarriesStatus(status: nat, body: string)
    ensures var m := ApiErrorMessage(status, body);
      var digits := NatToDecimal(status);
      var p := |ApiErrorPrefix|;
      && StartsWith(m, ApiErrorPrefix)
      && p + |digits| <= |m|
      && DecimalValue(m[p..p + |digits|]) == status
      && m[p + |digits|..] == " - " + body
  {
    var m := ApiErrorMessage(status, body);
    var digits := NatToDecimal(status);
    var p := |ApiErrorPrefix|;
    assert m == ApiErrorPrefix + (digits + (" - " + body));
    assert m[p..p + |digits|] == digits;
    DecimalRoundTrip(status);
  }

  /** The reply to a plain call: a decoded body, or a non-success status with the body's text. */
  datatype CompletionReply = Completed(body: ApiResponse) | Rejected(status: nat, errorText: string)

  /**
   * generateContent for one attempt: a rejected reply updates the registry and
   * fails; a completed one is translated, which may itself fail.
   */
  method GenerateContent(adapter: Adapter, registry: Registry, request: GenerateRequest,
                         codec: JsonCodec, reply: CompletionReply)
    returns (sent: ApiRequest, result: Result<Response, AdapterError>, registry': Registry)
    ensures sent.stream.None?
    ensures sent.messages == MessagesOf(codec.stringify, Normalize(request.contents))
    ensures sent.functions == RequestFunctions(SupportsTools(registry, adapter.model), request.tools)
    ensures reply.Rejected? ==>
      && result == Failure(ApiError(reply.status, reply.errorText))
      && ErrorMessage(result.error) == Some(ApiErrorMessage(reply.status, reply.errorText))
      && registry' == RecordErrorResponse(registry, adapter.model, reply.errorText)
    ensures reply.Completed? ==>
      && registry' == registry
      && result == match ConvertResponse(codec.parse, reply.body)
                   case Success(r) => Success(r)
                   case Failure(e) => Failure(Conversion(e))
  {
    sent := BuildRequest(adapter, registry, request, codec.stringify, false);
    match reply
    case Rejected(status, errorText) =>
      registry' := RecordErrorResponse(registry, adapter.model, errorText);
      result := Failure(ApiError(status, errorText));
    case Completed(body) =>
      registry' := registry;
      var converted := ConvertResponse(codec.parse, body);
      result := match converted
                case Success(r) => Success(r)
                case Failure(e) => Failure(Conversion(e));
  }

  /** The reply to a streaming call: a body of reads (or none), or a non-success status. */
  datatype StreamReply = Opened(body: Option<seq<string>>) | StreamRejected(status: nat, errorText: string)

  /**
   * generateContentStream: the same request with `stream: true`; a rejected reply
   * updates the registry and fails, a missing body fails, and otherwise the reads
   * are reconstructed into snapshots.
   */
  method GenerateContentStream(adapter: Adapter, registry: Registry, request: GenerateRequest,
                               codec: JsonCodec, decodeChunk: string -> Option<StreamChunk>, reply: StreamReply)
    returns (sent: ApiRequest, result: Result<seq<Response>, AdapterError>, registry': Registry)
    ensures sent.stream == Some(true)
    ensures sent.messages == MessagesOf(codec.stringify, Normalize(request.contents))
    ensures sent.functions == RequestFunctions(SupportsTools(registry, adapter.model), request.tools)
    ensures reply.StreamRejected? ==>
      && result == Failure(ApiError(reply.status, reply.errorText))
      && ErrorMessage(result.error) == Some(ApiErrorMessage(reply.status, reply.errorText))
      && registry' == RecordErrorResponse(registry, adapter.model, reply.errorText)
    ensures reply.Opened? ==> registry' == registry
    ensures reply.Opened? && reply.body.None? ==>
      result == Failure(NoResponseBody) && ErrorMessage(result.error) == Some("No response body")
    ensures reply.Opened? && reply.body.Some? ==>
      result == Success(ProcessLines(StreamCodec(decodeChunk, codec.parse), NoAccumulation,
                                     CompleteLines(Concat(reply.body.value))).snapshots)
  {
    sent := BuildRequest(adapter, registry, request, codec.stringify, true);
    registry' := registry;
    match reply
    case StreamRejected(status, errorText) =>
      registry' := RecordErrorResponse(registry, adapter.model, errorText);
      result := Failure(ApiError(status, errorText));
    case Opened(body) =>
      if body.None? {
        result := Failure(NoResponseBody);
      } else {
        var snapshots := ReadStream(StreamCodec(decodeChunk, codec.parse), body.value);
        result := Success(snapshots);
      }
  }

  /** A request of the single string "Hello" becomes one user message "Hello". */
  lemma HelloBecomesOneUserMessage(stringify: Json -> string)
    ensures MessagesOf(stringify, Normalize(Text("Hello"))) == [Message(Some("user"), "Hello", None, None)]
  {
    var ps := [TextPart("Hello")];
    assert Kind(ps[0]) == TextKind("Hello");
    assert ps[..0] == [];
    assert TextsOf(ps) == ["Hello"];
    assert [UserTurn(ps)][..0] == [];
  }
}
