/**
 * Token counting (countTokens): the request's text is pulled out of whichever
 * input shape was given, sent to the vendor's tokenizer, and when that gives no
 * answer the count is estimated at one token per four characters.
 */
module TokenCount {
  import opened Wrappers
  import opened TextUtil
  import opened Canonical

  /** What the extraction takes from one part: its text, or nothing. */
  function PartText(p: Part): string
  {
    p.text.GetOr("")
  }

  function PartTexts(parts: seq<Part>): (ts: seq<string>)
    ensures |ts| == |parts|
    ensures forall k :: 0 <= k < |parts| ==> ts[k] == PartText(parts[k])
  {
    if |parts| == 0 then [] else PartTexts(parts[..|parts| - 1]) + [PartText(parts[|parts| - 1])]
  }

  /** The texts of the parts that carry one, in order; parts without text are dropped. */
  function PresentPartTexts(parts: seq<Part>): (ts: seq<string>)
    ensures |ts| <= |parts|
  {
    if |parts| == 0 then []
    else PresentPartTexts(parts[..|parts| - 1])
         + (if parts[|parts| - 1].text.Some? then [parts[|parts| - 1].text.value] else [])
  }

  /**
   * The recursive helper applied to one element of an array input: its text,
   * else its parts' texts (a part without text giving the empty string) joined by
   * spaces, else nothing.
   */
  function ItemText(o: RequestObject): string
  {
    if o.text.Some? then o.text.value
    else if o.parts.Some? then Join(PartTexts(o.parts.value), " ")
    else ""
  }

  function ItemTexts(objects: seq<RequestObject>): (ts: seq<string>)
    ensures |ts| == |objects|
    ensures forall k :: 0 <= k < |objects| ==> ts[k] == ItemText(objects[k])
  {
    if |objects| == 0 then [] else ItemTexts(objects[..|objects| - 1]) + [ItemText(objects[|objects| - 1])]
  }

  /**
   * The text whose tokens are counted. An array is read element by element and
   * joined by spaces; a single object gives its text, else the texts of those of
   * its parts that have one, joined by spaces.
   */
  function ExtractText(input: ContentsInput): (t: string)
    ensures input.Text? ==> t == input.s
    ensures input.Strings? ==> t == Join(input.items, " ")
    ensures input.Objects? ==> t == Join(ItemTexts(input.objects), " ")
    ensures input.Single? && input.obj.text.Some? ==> t == input.obj.text.value
    ensures input.Single? && input.obj.text.None? && input.obj.parts.Some? ==>
      t == Join(PresentPartTexts(input.obj.parts.value), " ")
    ensures input.Other? || (input.Single? && input.obj.text.None? && input.obj.parts.None?) ==> t == ""
  {
    match input
    case Text(s) => s
    case Strings(items) => Join(items, " ")
    case Objects(objects) => Join(ItemTexts(objects), " ")
    case Single(obj) =>
      if obj.text.Some? then obj.text.value
      else if obj.parts.Some? then Join(PresentPartTexts(obj.parts.value), " ")
      else ""
    case Other => ""
  }
  /** When every part carries text, a single object and a one-element array of it give the same text. */
  lemma SingleAndArrayAgreeWhenEveryPartHasText(obj: RequestObject)
    requires obj.text.None? && obj.parts.Some?
    requires forall k :: 0 <= k < |obj.parts.value| ==> obj.parts.value[k].text.Some?
    ensures ExtractText(Single(obj)) == ExtractText(Objects([obj]))
  {
    PresentTextsAreAllTexts(obj.parts.value);
    assert ItemTexts([obj]) == [ItemText(obj)];
  }

  lemma {:induction false} PresentTextsAreAllTexts(parts: seq<Part>)
    requires forall k :: 0 <= k < |parts| ==> parts[k].text.Some?
    ensures PresentPartTexts(parts) == PartTexts(parts)
  {
    if |parts| > 0 {
      PresentTextsAreAllTexts(parts[..|parts| - 1]);
    }
  }

  /**
   * A part without text is skipped for a single object but counted as an empty
   * string (and so an extra space) inside an array.
   */
  lemma SingleAndArrayDifferOnPartWithoutText()
    ensures var obj := RequestObject(None, Some([Part(None, None, None, None), TextPart("a")]), None, None, None, None);
      ExtractText(Single(obj)) == "a" && ExtractText(Objects([obj])) == " a"
  {
    var parts := [Part(None, None, None, None), TextPart("a")];
    assert parts[..1][..0] == [];
    assert parts[..1] == [Part(None, None, None, None)];
    assert PresentPartTexts(parts) == ["a"];
    assert PartTexts(parts) == ["", "a"];
  }

  /** The fallback estimate: the length divided by four, rounded up. */
  function EstimateTokens(text: string): (n: nat)
    ensures 4 * n >= |text|
    ensures 4 * (n - 1) < |text| || n == 0
    ensures n == 0 <==> text == ""
  {
    (|text| + 3) / 4
  }

  /** Forty characters are estimated at ten tokens. */
  lemma FortyCharactersAreTenTokens(text: string)
    requires |text| == 40
    ensures EstimateTokens(text) == 10
  {
  }

  /** The tokenizer's answer, as far as it is read: `tokens`, else `token_count`. */
  datatype TokenizeReply = TokenizeReply(tokens: Option<nat>, tokenCount: Option<nat>)

  datatype CountTokensResponse = CountTokensResponse(totalTokens: nat, cachedContentTokenCount: nat)

  /**
   * The count reported: a successful tokenizer reply gives its first non-zero
   * count field, or 0 when it has none; no reply (a failed request, a non-success
   * status, an unreadable body) falls back to the estimate.
   */
  function CountTokens(input: ContentsInput, reply: Option<TokenizeReply>): (r: CountTokensResponse)
    ensures r.cachedContentTokenCount == 0
    ensures reply.None? ==> r.totalTokens == EstimateTokens(ExtractText(input))
    ensures reply.Some? && reply.value.tokens.Some? && reply.value.tokens.value != 0 ==>
      r.totalTokens == reply.value.tokens.value
    ensures reply.Some? && (reply.value.tokens.None? || reply.value.tokens.value == 0) ==>
      r.totalTokens == reply.value.tokenCount.GetOr(0)
  {
    match reply
    case None => CountTokensResponse(EstimateTokens(ExtractText(input)), 0)
    case Some(data) =>
      var total :=
        if data.tokens.Some? && data.tokens.value != 0 then data.tokens.value
        else if data.tokenCount.Some? && data.tokenCount.value != 0 then data.tokenCount.value
        else 0;
      CountTokensResponse(total, 0)
  }

  /** A tokenizer reply without counts reports zero tokens rather than the estimate. */
  lemma EmptyReplyCountsZero(input: ContentsInput)
    ensures CountTokens(input, Some(TokenizeReply(None, None))).totalTokens == 0
  {
  }
}
