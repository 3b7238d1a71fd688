/**
 * Translation of a request's contents into the vendor's chat messages
 * (customApiContentGenerator.ts, convertToCustomApiMessages).
 */
module RequestTranslation {
  import opened Wrappers
  import opened JsonModel
  import opened TextUtil
  import opened Canonical

  /** A function call on the wire: the arguments travel as JSON text. */
  datatype WireCall = WireCall(name: string, arguments: string)

  /** One vendor chat message; `name` and `functionCall` are omitted when `None`. */
  datatype Message = Message(
    role: Option<string>,
    content: string,
    name: Option<string>,
    functionCall: Option<WireCall>)

  /** The text sent in place of inline binary data. */
  const InlineDataPlaceholder: string := "[Image data omitted]"

  /** The vendor role of a turn: `model` is renamed `assistant`, every other role is kept. */
  function WireRole(role: Option<string>): (r: Option<string>)
    ensures r == Some("assistant") <==> role == Some("model") || role == Some("assistant")
    ensures r != role ==> role == Some("model")
  {
    if role == Some("model") then Some("assistant") else role
  }

  /** What a part contributes; the first property that applies wins. */
  datatype PartKind =
    | TextKind(text: string)
    | CallKind(call: FunctionCall)
    | ResponseKind(response: FunctionResponse)
    | InlineKind
    | NoKind

  function Kind(p: Part): PartKind
  {
    if p.text.Some? && p.text.value != "" then TextKind(p.text.value)
    else if p.functionCall.Some? then CallKind(p.functionCall.value)
    else if p.functionResponse.Some? then ResponseKind(p.functionResponse.value)
    else if p.inlineData.Some? then InlineKind
    else NoKind
  }

  /** The text pieces of a part: its text, the placeholder for inline data, or nothing. */
  function TextContribution(p: Part): seq<string>
  {
    match Kind(p)
    case TextKind(t) => [t]
    case InlineKind => [InlineDataPlaceholder]
    case _ => []
  }

  /** The text pieces of a part list, in order. */
  function TextsOf(ps: seq<Part>): seq<string>
  {
    if ps == [] then [] else TextsOf(ps[..|ps| - 1]) + TextContribution(ps[|ps| - 1])
  }

  /** The last function call among the parts. */
  function LastCall(ps: seq<Part>): Option<FunctionCall>
  {
    if ps == [] then None
    else if Kind(ps[|ps| - 1]).CallKind? then Some(Kind(ps[|ps| - 1]).call)
    else LastCall(ps[..|ps| - 1])
  }

  /** The last function response among the parts. */
  function LastResponse(ps: seq<Part>): Option<FunctionResponse>
  {
    if ps == [] then None
    else if Kind(ps[|ps| - 1]).ResponseKind? then Some(Kind(ps[|ps| - 1]).response)
    else LastResponse(ps[..|ps| - 1])
  }

  function ToWire(stringify: Json -> string, call: Option<FunctionCall>): Option<WireCall>
  {
    match call
    case None => None
    case Some(fc) => Some(WireCall(fc.name, stringify(fc.args)))
  }

  /**
   * The message a turn becomes, if any: a function response dominates, then a
   * function call (with the turn's text beside it), then plain text.
   */
  function FoldContent(stringify: Json -> string, c: Content): Option<Message>
  {
    if c.parts.None? || |c.parts.value| == 0 then None
    else
      var ps := c.parts.value;
      var texts := TextsOf(ps);
      match LastResponse(ps)
      case Some(fr) => Some(Message(Some("function"), stringify(fr.response), Some(fr.name), None))
      case None =>
        if LastCall(ps).Some? then
          Some(Message(WireRole(c.role), Join(texts, "\n"), None, ToWire(stringify, LastCall(ps))))
        else if |texts| > 0 then Some(Message(WireRole(c.role), Join(texts, "\n"), None, None))
        else None
  }

  /** The messages of a list of turns: each turn's message, if any, in order. */
  function MessagesOf(stringify: Json -> string, cs: seq<Content>): seq<Message>
  {
    if cs == [] then []
    else
      var last := FoldContent(stringify, cs[|cs| - 1]);
      MessagesOf(stringify, cs[..|cs| - 1]) + (if last.Some? then [last.value] else [])
  }

  /** The last response is a response part with no response part after it; there is none iff no part is one. */
  lemma {:induction false} LastResponseIsLast(ps: seq<Part>)
    ensures LastResponse(ps).None? <==> forall k :: 0 <= k < |ps| ==> !Kind(ps[k]).ResponseKind?
    ensures LastResponse(ps).Some? ==>
      exists k :: (&& 0 <= k < |ps|
                   && Kind(ps[k]) == ResponseKind(LastResponse(ps).value)
                   && forall j :: k < j < |ps| ==> !Kind(ps[j]).ResponseKind?)
  {
    if ps != [] && !Kind(ps[|ps| - 1]).ResponseKind? {
      var init := ps[..|ps| - 1];
      LastResponseIsLast(init);
      assert forall k :: 0 <= k < |init| ==> init[k] == ps[k];
    }
  }

  /** The last call is a call part with no call part after it; there is none iff no part is one. */
  lemma {:induction false} LastCallIsLast(ps: seq<Part>)
    ensures LastCall(ps).None? <==> forall k :: 0 <= k < |ps| ==> !Kind(ps[k]).CallKind?
    ensures LastCall(ps).Some? ==>
      exists k :: (&& 0 <= k < |ps|
                   && Kind(ps[k]) == CallKind(LastCall(ps).value)
                   && forall j :: k < j < |ps| ==> !Kind(ps[j]).CallKind?)
  {
    if ps != [] && !Kind(ps[|ps| - 1]).CallKind? {
      var init := ps[..|ps| - 1];
      LastCallIsLast(init);
      assert forall k :: 0 <= k < |init| ==> init[k] == ps[k];
    }
  }

  /** The text pieces of two part lists are those of each, in order. */
  lemma {:induction false} TextsOfAppend(a: seq<Part>, b: seq<Part>)
    ensures TextsOf(a + b) == TextsOf(a) + TextsOf(b)
  {
    if b == [] {
      assert a + b == a;
    } else {
      var init := b[..|b| - 1];
      TextsOfAppend(a, init);
      assert (a + b)[..|a + b| - 1] == a + init;
      assert (a + b)[|a + b| - 1] == b[|b| - 1];
    }
  }

  /**
   * The text pieces are exactly the non-empty texts and the placeholders, one per
   * contributing part: an empty text contributes nothing and no piece is empty.
   */
  lemma {:induction false} TextsOfPieces(ps: seq<Part>)
    ensures |TextsOf(ps)| <= |ps|
    ensures forall t :: t in TextsOf(ps) ==> t != ""
    ensures TextsOf(ps) == [] <==> forall k :: 0 <= k < |ps| ==> Kind(ps[k]).NoKind? || Kind(ps[k]).CallKind? || Kind(ps[k]).ResponseKind?
  {
    if ps != [] {
      var init := ps[..|ps| - 1];
      TextsOfPieces(init);
      assert forall k :: 0 <= k < |init| ==> init[k] == ps[k];
    }
  }

  /** A join of non-empty pieces, at least one of them, is non-empty. */
  lemma {:induction false} JoinNonEmpty(pieces: seq<string>, sep: string)
    requires |pieces| > 0 && pieces[0] != ""
    ensures Join(pieces, sep) != ""
  {
    if |pieces| > 1 {
      assert |Join(pieces, sep)| >= |pieces[0]|;
    }
  }

  /**
   * The rules of one turn. A turn with no parts gives nothing. A turn with a
   * function response becomes a `function` message naming its last response, whatever
   * else it holds. Otherwise the role is the turn's vendor role, the function call is
   * the last one, and the content is the text pieces joined by a newline; a turn with
   * neither call nor text gives nothing, and a plain text message is never empty.
   */
  lemma FoldContentRules(stringify: Json -> string, c: Content)
    ensures c.parts.None? || c.parts == Some([]) ==> FoldContent(stringify, c).None?
    ensures c.parts.Some? && (exists k :: 0 <= k < |c.parts.value| && Kind(c.parts.value[k]).ResponseKind?) ==>
      && LastResponse(c.parts.value).Some?
      && var fr := LastResponse(c.parts.value).value;
         FoldContent(stringify, c) == Some(Message(Some("function"), stringify(fr.response), Some(fr.name), None))
    ensures c.parts.Some? && (forall k :: 0 <= k < |c.parts.value| ==> !Kind(c.parts.value[k]).ResponseKind?) ==>
      var ps := c.parts.value;
      match FoldContent(stringify, c)
      case None => (forall k :: 0 <= k < |ps| ==> Kind(ps[k]).NoKind?)
      case Some(m) =>
        && m.role == WireRole(c.role)
        && m.name.None?
        && m.functionCall == ToWire(stringify, LastCall(ps))
        && m.content == Join(TextsOf(ps), "\n")
        && (m.functionCall.None? ==> m.content != "")
  {
    if c.parts.Some? {
      var ps := c.parts.value;
      LastResponseIsLast(ps);
      LastCallIsLast(ps);
      TextsOfPieces(ps);
      var texts := TextsOf(ps);
      if |texts| > 0 {
        assert texts[0] in texts;
        JoinNonEmpty(texts, "\n");
      }
    }
  }

  /** The messages of two lists of turns are those of each, in order. */
  lemma {:induction false} MessagesAppend(stringify: Json -> string, a: seq<Content>, b: seq<Content>)
    ensures MessagesOf(stringify, a + b) == MessagesOf(stringify, a) + MessagesOf(stringify, b)
  {
    if b == [] {
      assert a + b == a;
    } else {
      var init := b[..|b| - 1];
      MessagesAppend(stringify, a, init);
      assert (a + b)[..|a + b| - 1] == a + init;
      assert (a + b)[|a + b| - 1] == b[|b| - 1];
    }
  }

  /** Every turn yields at most one message. */
  lemma {:induction false} AtMostOneMessagePerTurn(stringify: Json -> string, cs: seq<Content>)
    ensures |MessagesOf(stringify, cs)| <= |cs|
  {
    if cs != [] {
      AtMostOneMessagePerTurn(stringify, cs[..|cs| - 1]);
    }
  }

  /** The inner loop of convertToCustomApiMessages: one pass over a turn's parts. */
  method ScanParts(stringify: Json -> string, parts: seq<Part>)
    returns (textParts: seq<string>, functionCall: Option<WireCall>, functionResponse: Option<FunctionResponse>)
    ensures textParts == TextsOf(parts)
    ensures functionCall == ToWire(stringify, LastCall(parts))
    ensures functionResponse == LastResponse(parts)
  {
    textParts, functionCall, functionResponse := [], None, None;
    for i := 0 to |parts|
      invariant textParts == TextsOf(parts[..i])
      invariant functionCall == ToWire(stringify, LastCall(parts[..i]))
      invariant functionResponse == LastResponse(parts[..i])
    {
      var part := parts[i];
      assert parts[..i + 1][..i] == parts[..i];
      if part.text.Some? && part.text.value != "" {
        textParts := textParts + [part.text.value];
      } else if part.functionCall.Some? {
        functionCall := Some(WireCall(part.functionCall.value.name, stringify(part.functionCall.value.args)));
      } else if part.functionResponse.Some? {
        functionResponse := part.functionResponse;
      } else if part.inlineData.Some? {
        textParts := textParts + [InlineDataPlaceholder];
      }
    }
    assert parts[..|parts|] == parts;
  }

  /** convertToCustomApiMessages: normalise the input, then fold every turn. */
  method ConvertToMessages(stringify: Json -> string, contents: ContentsInput)
    returns (messages: seq<Message>)
    ensures messages == MessagesOf(stringify, Normalize(contents))
  {
    var contentArray := Normalize(contents);
    messages := [];
    for n := 0 to |contentArray|
      invariant messages == MessagesOf(stringify, contentArray[..n])
    {
      assert contentArray[..n + 1][..n] == contentArray[..n];
      var message := ConvertTurn(stringify, contentArray[n]);
      if message.Some? {
        messages := messages + [message.value];
      }
    }
    assert contentArray[..|contentArray|] == contentArray;
  }

  /** The body of the outer loop: the message one turn contributes, if any. */
  method ConvertTurn(stringify: Json -> string, content: Content) returns (message: Option<Message>)
    ensures message == FoldContent(stringify, content)
  {
    message := None;
    var role := WireRole(content.role);
    if content.parts.Some? && |content.parts.value| > 0 {
      var textParts, functionCall, functionResponse := ScanParts(stringify, content.parts.value);
      if functionResponse.Some? {
        var fr := functionResponse.value;
        message := Some(Message(Some("function"), stringify(fr.response), Some(fr.name), None));
      } else if functionCall.Some? {
        message := Some(Message(role, Join(textParts, "\n"), None, functionCall));
      } else if |textParts| > 0 {
        message := Some(Message(role, Join(textParts, "\n"), None, None));
      }
    }
  }
}
