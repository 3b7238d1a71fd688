/**
 * Translation of a vendor chat-completion reply into the canonical response, and
 * the `text` and `functionCalls` accessors every response carries
 * (customApiContentGenerator.ts, convertCustomApiResponse).
 */
module ResponseTranslation {
  import opened Wrappers
  import opened JsonModel
  import opened TextUtil
  import opened Canonical
  import opened RequestTranslation

  datatype Usage = Usage(promptTokens: int, completionTokens: int, totalTokens: int)
  datatype ApiMessage = ApiMessage(role: string, content: Option<string>, functionCall: Option<WireCall>)
  datatype ApiChoice = ApiChoice(index: int, message: ApiMessage, finishReason: string)
  /** A non-streaming reply body. */
  datatype ApiResponse = ApiResponse(id: string, model: string, choices: seq<ApiChoice>, usage: Option<Usage>)

  datatype UsageMetadata = UsageMetadata(promptTokenCount: int, candidatesTokenCount: int, totalTokenCount: int)
  datatype Candidate = Candidate(role: string, parts: seq<Part>, finishReason: Option<string>, index: nat)
  /** A canonical response. */
  datatype Response = Response(candidates: seq<Candidate>, usageMetadata: Option<UsageMetadata>)

  /** Why translating a reply failed: there is no first choice, or the call's arguments are not JSON. */
  datatype ConversionError = MissingChoice | MalformedFunctionArguments(arguments: string)

  /** The turn a candidate holds. */
  function CandidateContent(c: Candidate): Content
  {
    Content(Some(c.role), Some(c.parts))
  }

  /** The texts of the parts that have a `text` property, in order. */
  function PresentTexts(ps: seq<Part>): (ts: seq<string>)
    ensures |ts| <= |ps|
  {
    if ps == [] then []
    else PresentTexts(ps[..|ps| - 1]) + (if ps[|ps| - 1].text.Some? then [ps[|ps| - 1].text.value] else [])
  }

  /** The function calls of the parts, in order. */
  function PresentCalls(ps: seq<Part>): (fcs: seq<FunctionCall>)
    ensures |fcs| <= |ps|
  {
    if ps == [] then []
    else PresentCalls(ps[..|ps| - 1]) + (if ps[|ps| - 1].functionCall.Some? then [ps[|ps| - 1].functionCall.value] else [])
  }

  /** The `text` accessor: the texts of the first candidate concatenated, or `None` without any. */
  function ResponseText(r: Response): Option<string>
  {
    if |r.candidates| == 0 then None
    else
      var ts := PresentTexts(r.candidates[0].parts);
      if |ts| > 0 then Some(Join(ts, "")) else None
  }

  /** The `functionCalls` accessor: the calls of the first candidate, or `None` without any. */
  function ResponseFunctionCalls(r: Response): Option<seq<FunctionCall>>
  {
    if |r.candidates| == 0 then None
    else
      var fcs := PresentCalls(r.candidates[0].parts);
      if |fcs| > 0 then Some(fcs) else None
  }

  /** The calls reported are exactly the parts' calls: none is lost, none invented, order kept. */
  lemma {:induction false} PresentCallsAreTheCallParts(ps: seq<Part>)
    ensures forall fc :: fc in PresentCalls(ps) <==> exists k :: 0 <= k < |ps| && ps[k].functionCall == Some(fc)
    ensures PresentCalls(ps) == [] <==> forall k :: 0 <= k < |ps| ==> ps[k].functionCall.None?
  {
    if ps != [] {
      var init := ps[..|ps| - 1];
      PresentCallsAreTheCallParts(init);
      assert forall k :: 0 <= k < |init| ==> init[k] == ps[k];
    }
  }

  /** The calls of two runs of parts are the first run's calls followed by the second's. */
  lemma {:induction false} PresentCallsAppend(a: seq<Part>, b: seq<Part>)
    ensures PresentCalls(a + b) == PresentCalls(a) + PresentCalls(b)
  {
    if b == [] {
      assert a + b == a;
    } else {
      var init := b[..|b| - 1];
      var last := if b[|b| - 1].functionCall.Some? then [b[|b| - 1].functionCall.value] else [];
      PresentCallsAppend(a, init);
      assert (a + b)[..|a + b| - 1] == a + init;
      assert (a + b)[|a + b| - 1] == b[|b| - 1];
      Regroup(PresentCalls(a + b), PresentCalls(a), PresentCalls(init), last, PresentCalls(b));
    }
  }

  /** `text` is absent exactly when no part of the first candidate has a text. */
  lemma {:induction false} PresentTextsEmpty(ps: seq<Part>)
    ensures PresentTexts(ps) == [] <==> forall k :: 0 <= k < |ps| ==> ps[k].text.None?
  {
    if ps != [] {
      var init := ps[..|ps| - 1];
      PresentTextsEmpty(init);
      assert forall k :: 0 <= k < |init| ==> init[k] == ps[k];
    }
  }

  function ToUsageMetadata(u: Option<Usage>): Option<UsageMetadata>
  {
    match u
    case None => None
    case Some(x) => Some(UsageMetadata(x.promptTokens, x.completionTokens, x.totalTokens))
  }

  /** A text part for a non-empty message content, then a call part for a function call. */
  function ReplyParts(content: Option<string>, call: Option<FunctionCall>): seq<Part>
  {
    (if content.Some? && content.value != "" then [TextPart(content.value)] else []) +
    (if call.Some? then [CallPart(call.value)] else [])
  }

  /**
   * convertCustomApiResponse: one `model` candidate at index 0, whose `text` is the
   * reply's content when non-empty and whose `functionCalls` is the reply's call with
   * its arguments parsed. A reply without choices, or with arguments that are not
   * JSON, fails instead of losing the call.
   */
  function ConvertResponse(parse: string -> Option<Json>, reply: ApiResponse): (r: Result<Response, ConversionError>)
    ensures r.Failure? <==>
      (|| |reply.choices| == 0
       || (reply.choices[0].message.functionCall.Some? && parse(reply.choices[0].message.functionCall.value.arguments).None?))
    ensures r.Success? ==>
      var choice := reply.choices[0];
      && |r.value.candidates| == 1
      && r.value.candidates[0].role == "model"
      && r.value.candidates[0].index == 0
      && r.value.candidates[0].finishReason == Some(choice.finishReason)
      && (r.value.usageMetadata.Some? <==> reply.usage.Some?)
      && (reply.usage.Some? ==>
            var u := reply.usage.value;
            r.value.usageMetadata == Some(UsageMetadata(u.promptTokens, u.completionTokens, u.totalTokens)))
      && r.value.candidates[0].parts ==
           (if choice.message.content.Some? && choice.message.content.value != ""
            then [TextPart(choice.message.content.value)] else []) +
           (match choice.message.functionCall
            case None => []
            case Some(wc) => [CallPart(FunctionCall(wc.name, parse(wc.arguments).value))])
      && ResponseText(r.value) ==
           (if choice.message.content.Some? && choice.message.content.value != "" then choice.message.content else None)
      && ResponseFunctionCalls(r.value) ==
           (match choice.message.functionCall
            case None => None
            case Some(wc) => Some([FunctionCall(wc.name, parse(wc.arguments).value)]))
  {
    if |reply.choices| == 0 then Failure(MissingChoice)
    else
      var choice := reply.choices[0];
      var call :=
        match choice.message.functionCall
        case None => Success(None)
        case Some(wc) =>
          match parse(wc.arguments)
          case None => Failure(MalformedFunctionArguments(wc.arguments))
          case Some(args) => Success(Some(FunctionCall(wc.name, args)));
      if call.Failure? then Failure(call.error)
      else
        var parts := ReplyParts(choice.message.content, call.value);
        assert PresentTexts(parts) == if choice.message.content.Some? && choice.message.content.value != "" then [choice.message.content.value] else [] by {
          if call.value.Some? {
            assert parts[..|parts| - 1] == ReplyParts(choice.message.content, None);
          }
        }
        assert PresentCalls(parts) == if call.value.Some? then [call.value.value] else [] by {
          if call.value.Some? {
            assert parts[..|parts| - 1] == ReplyParts(choice.message.content, None);
          }
        }
        Success(Response([Candidate("model", parts, Some(choice.finishReason), 0)], ToUsageMetadata(reply.usage)))
  }

  /**
   * Sending a translated reply back as history gives the vendor one `assistant`
   * message with the same content and call, provided the arguments text is already
   * what serialising its parsed value gives back.
   */
  lemma ReplyRoundTrip(codec: JsonCodec, reply: ApiResponse)
    requires ConvertResponse(codec.parse, reply).Success?
    requires var m := reply.choices[0].message;
      m.functionCall.Some? ==> codec.stringify(codec.parse(m.functionCall.value.arguments).value) == m.functionCall.value.arguments
    ensures var m := reply.choices[0].message;
      var c := CandidateContent(ConvertResponse(codec.parse, reply).value.candidates[0]);
      var text := if m.content.Some? then m.content.value else "";
      MessagesOf(codec.stringify, [c]) ==
        if text == "" && m.functionCall.None? then []
        else [Message(Some("assistant"), text, None, m.functionCall)]
  {
    var m := reply.choices[0].message;
    ConvertedTurn(codec.parse, reply);
    ReplyTurnRoundTrip(codec, m.content, m.functionCall);
  }

  /** The history message of a `model` turn built from a reply's content and call. */
  lemma ReplyTurnRoundTrip(codec: JsonCodec, content: Option<string>, wc: Option<WireCall>)
    requires wc.Some? ==> codec.parse(wc.value.arguments).Some?
    requires wc.Some? ==> codec.stringify(codec.parse(wc.value.arguments).value) == wc.value.arguments
    ensures var text := if content.Some? then content.value else "";
      MessagesOf(codec.stringify, [Content(Some("model"), Some(ReplyParts(content, ParsedCall(codec.parse, wc))))]) ==
        if text == "" && wc.None? then []
        else [Message(Some("assistant"), text, None, wc)]
  {
    var call := ParsedCall(codec.parse, wc);
    var c := Content(Some("model"), Some(ReplyParts(content, call)));
    assert ToWire(codec.stringify, call) == wc;
    ReplyPartsFold(codec.stringify, content, call);
    assert [c][..0] == [];
  }

  /** The reply's call with its arguments parsed, when they parse. */
  function ParsedCall(parse: string -> Option<Json>, wc: Option<WireCall>): Option<FunctionCall>
    requires wc.Some? ==> parse(wc.value.arguments).Some?
  {
    if wc.Some? then Some(FunctionCall(wc.value.name, parse(wc.value.arguments).value)) else None
  }

  /** The turn a translated reply holds, as the parts built from its content and call. */
  lemma ConvertedTurn(parse: string -> Option<Json>, reply: ApiResponse)
    requires ConvertResponse(parse, reply).Success?
    ensures var m := reply.choices[0].message;
      CandidateContent(ConvertResponse(parse, reply).value.candidates[0]) ==
        Content(Some("model"), Some(ReplyParts(m.content, ParsedCall(parse, m.functionCall))))
  {
  }

  /** How the request side folds a `model` turn whose parts were built from a reply. */
  lemma ReplyPartsFold(stringify: Json -> string, content: Option<string>, call: Option<FunctionCall>)
    ensures var text := if content.Some? then content.value else "";
      FoldContent(stringify, Content(Some("model"), Some(ReplyParts(content, call)))) ==
        if text == "" && call.None? then None
        else Some(Message(Some("assistant"), text, None, ToWire(stringify, call)))
  {
    if call.Some? {
      ReplyPartsFoldWithCall(stringify, content, call.value);
    } else {
      ReplyPartsFoldTextOnly(stringify, content);
    }
  }

  lemma ReplyPartsFoldWithCall(stringify: Json -> string, content: Option<string>, fc: FunctionCall)
    ensures var text := if content.Some? then content.value else "";
      FoldContent(stringify, Content(Some("model"), Some(ReplyParts(content, Some(fc)))))
        == Some(Message(Some("assistant"), text, None, Some(WireCall(fc.name, stringify(fc.args)))))
  {
    var ps := ReplyParts(content, Some(fc));
    var text := if content.Some? then content.value else "";
    var textParts := if text != "" then [TextPart(text)] else [];
    assert ps == textParts + [CallPart(fc)];
    TextOnlyParts(text);
    CallAfterParts(textParts, fc);
    assert Join(TextsOf(ps), "\n") == text;
  }

  lemma ReplyPartsFoldTextOnly(stringify: Json -> string, content: Option<string>)
    ensures var text := if content.Some? then content.value else "";
      FoldContent(stringify, Content(Some("model"), Some(ReplyParts(content, None))))
        == if text == "" then None else Some(Message(Some("assistant"), text, None, None))
  {
    var text := if content.Some? then content.value else "";
    var ps := ReplyParts(content, None);
    assert ps == if text != "" then [TextPart(text)] else [];
    TextOnlyParts(text);
  }

  /** The text part a reply's non-empty content becomes contributes that text and nothing else. */
  lemma TextOnlyParts(text: string)
    ensures var textParts := if text != "" then [TextPart(text)] else [];
      && LastResponse(textParts).None?
      && LastCall(textParts).None?
      && TextsOf(textParts) == (if text != "" then [text] else [])
  {
    if text != "" {
      var textParts := [TextPart(text)];
      assert Kind(textParts[0]) == TextKind(text);
      assert textParts[..0] == [];
    }
  }

  /** A call part placed last is the last call and adds no text or response. */
  lemma CallAfterParts(ps: seq<Part>, fc: FunctionCall)
    ensures var all := ps + [CallPart(fc)];
      && LastResponse(all) == LastResponse(ps)
      && LastCall(all) == Some(fc)
      && TextsOf(all) == TextsOf(ps)
  {
    var all := ps + [CallPart(fc)];
    assert all[..|all| - 1] == ps;
    assert Kind(all[|all| - 1]) == CallKind(fc);
  }
}
