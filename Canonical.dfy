/**
 * The provider-neutral conversation representation the adapter receives, and the
 * normalisation of the several shapes a request's `contents` may take into a list
 * of contents (customApiContentGenerator.ts, convertToCustomApiMessages, first half).
 *
 * The objects are JavaScript objects: every property may be absent, which the
 * model writes as `None`. A part may carry several of its properties at once.
 */
module Canonical {
  import opened Wrappers
  import opened JsonModel

  datatype FunctionCall = FunctionCall(name: string, args: Json)
  datatype FunctionResponse = FunctionResponse(name: string, response: Json)
  datatype Blob = Blob(mimeType: string, data: string)

  /** One part of a turn. */
  datatype Part = Part(
    text: Option<string>,
    functionCall: Option<FunctionCall>,
    functionResponse: Option<FunctionResponse>,
    inlineData: Option<Blob>)

  /** One turn of the conversation. */
  datatype Content = Content(role: Option<string>, parts: Option<seq<Part>>)

  function TextPart(s: string): Part { Part(Some(s), None, None, None) }
  function CallPart(fc: FunctionCall): Part { Part(None, Some(fc), None, None) }

  /**
   * An object found in the request's `contents`: depending on where it stands and
   * which properties it has, it is read as a content or as a part.
   */
  datatype RequestObject = RequestObject(
    role: Option<string>,
    parts: Option<seq<Part>>,
    text: Option<string>,
    functionCall: Option<FunctionCall>,
    functionResponse: Option<FunctionResponse>,
    inlineData: Option<Blob>)
  {
    function AsContent(): Content { Content(role, parts) }
    function AsPart(): Part { Part(text, functionCall, functionResponse, inlineData) }
  }

  /**
   * The shapes `contents` can take: a string, an array whose first element is a
   * string, an array of objects (or an empty array), a single object, or anything else.
   */
  datatype ContentsInput =
    | Text(s: string)
    | Strings(items: seq<string>)
    | Objects(objects: seq<RequestObject>)
    | Single(obj: RequestObject)
    | Other

  /** A `user` turn holding the given parts. */
  function UserTurn(parts: seq<Part>): Content { Content(Some("user"), Some(parts)) }

  function TextParts(items: seq<string>): (ps: seq<Part>)
    ensures |ps| == |items|
    ensures forall k :: 0 <= k < |items| ==> ps[k] == TextPart(items[k])
  {
    seq(|items|, k requires 0 <= k < |items| => TextPart(items[k]))
  }

  function PartsOf(objects: seq<RequestObject>): (ps: seq<Part>)
    ensures |ps| == |objects|
    ensures forall k :: 0 <= k < |objects| ==> ps[k] == objects[k].AsPart()
  {
    seq(|objects|, k requires 0 <= k < |objects| => objects[k].AsPart())
  }

  function ContentsOf(objects: seq<RequestObject>): (cs: seq<Content>)
    ensures |cs| == |objects|
    ensures forall k :: 0 <= k < |objects| ==> cs[k] == objects[k].AsContent()
  {
    seq(|objects|, k requires 0 <= k < |objects| => objects[k].AsContent())
  }

  /**
   * The list of contents the request stands for. An array is sniffed by its first
   * element; a single object is a content when it has `role` (checked before `text`).
   */
  function Normalize(input: ContentsInput): (cs: seq<Content>)
    ensures input.Text? ==> cs == [UserTurn([TextPart(input.s)])]
    ensures input.Strings? && |input.items| > 0 ==> cs == [UserTurn(TextParts(input.items))]
    ensures input.Objects? && |input.objects| > 0 && input.objects[0].text.Some? ==>
      cs == [UserTurn(PartsOf(input.objects))]
    ensures input.Objects? && (|input.objects| == 0 || input.objects[0].text.None?) ==>
      cs == ContentsOf(input.objects)
    ensures input.Single? && input.obj.role.Some? ==> cs == [input.obj.AsContent()]
    ensures input.Single? && input.obj.role.None? && input.obj.text.Some? ==>
      cs == [UserTurn([input.obj.AsPart()])]
    ensures (|| input.Other?
             || (input.Strings? && input.items == [])
             || (input.Single? && input.obj.role.None? && input.obj.text.None?)) ==> cs == []
  {
    match input
    case Text(s) => [UserTurn([TextPart(s)])]
    case Strings(items) =>
      // An empty array falls through to the array-of-contents branch.
      if |items| > 0 then [UserTurn(TextParts(items))] else []
    case Objects(objects) =>
      if |objects| > 0 && objects[0].text.Some? then [UserTurn(PartsOf(objects))]
      else ContentsOf(objects)
    case Single(obj) =>
      if obj.role.Some? then [obj.AsContent()]
      else if obj.text.Some? then [UserTurn([obj.AsPart()])]
      else []
    case Other => []
  }

  /** The request object that spells out a content and nothing else. */
  function ContentObject(c: Content): RequestObject
  {
    RequestObject(c.role, c.parts, None, None, None, None)
  }

  /**
   * Every shorthand shape normalises to the same list as the explicit one-element
   * array of contents it abbreviates: a string, a non-empty array of strings, an
   * array of parts (led by a part with `text`), a single content and a single part.
   */
  lemma ShorthandsMatchContentArray(input: ContentsInput)
    requires !input.Other?
    requires input.Strings? ==> |input.items| > 0
    requires input.Objects? ==> |input.objects| > 0 && input.objects[0].text.Some?
    requires input.Single? ==> input.obj.role.Some? || input.obj.text.Some?
    ensures exists c :: Normalize(input) == Normalize(Objects([ContentObject(c)])) == [c]
  {
    var c := Normalize(input)[0];
    assert ContentObject(c).AsContent() == c;
    assert Normalize(Objects([ContentObject(c)])) == [c];
  }

  /**
   * An array of parts led by a part without `text` is read as an array of
   * contents: since parts have no `parts`, every turn built from it is empty.
   */
  lemma PartArrayLedByNonText(objects: seq<RequestObject>)
    requires |objects| > 0 && objects[0].text.None?
    requires forall k :: 0 <= k < |objects| ==> objects[k].parts.None?
    ensures forall c :: c in Normalize(Objects(objects)) ==> c.parts.None?
  {
  }
}
