/**
 * Learning, per model, that the vendor refuses tool definitions
 * (customApiContentGenerator.ts, the error branches of generateContent and
 * generateContentStreamInternal). The registry itself is a map from model id to
 * "supports tools"; a model it does not mention is assumed to support them.
 */
module Capabilities {
  import opened TextUtil

  /** The error-text fragments that mean the model or endpoint takes no tools. */
  const NoToolEndpoints: string := "No endpoints found that support tool use"
  const NoFunctionSupport: string := "does not support function"
  const ToolsNotSupported: string := "tools not supported"

  /** The error body names one of the three fragments. */
  predicate SignalsToolsUnsupported(error: string)
  {
    Contains(error, NoToolEndpoints) || Contains(error, NoFunctionSupport) || Contains(error, ToolsNotSupported)
  }

  type Registry = map<string, bool>

  /** Whether tool definitions are sent for `model`: the recorded flag, optimistically true when none is. */
  function SupportsTools(registry: Registry, model: string): bool
  {
    if model in registry then registry[model] else true
  }

  /**
   * The registry after a non-success reply for `model` with body `error`: a
   * matching body records that the model takes no tools, any other changes nothing.
   */
  function RecordErrorResponse(registry: Registry, model: string, error: string): (r: Registry)
    ensures SignalsToolsUnsupported(error) ==> !SupportsTools(r, model)
    ensures !SignalsToolsUnsupported(error) ==> r == registry
    ensures forall m :: m != model ==> SupportsTools(r, m) == SupportsTools(registry, m)
  {
    if SignalsToolsUnsupported(error) then registry[model := false] else registry
  }

  /** A non-success reply observed for a model. */
  datatype ErrorResponse = ErrorResponse(model: string, error: string)

  /** The registry after a series of non-success replies, in order. */
  function RecordAll(registry: Registry, replies: seq<ErrorResponse>): Registry
  {
    if replies == [] then registry
    else
      var last := replies[|replies| - 1];
      RecordErrorResponse(RecordAll(registry, replies[..|replies| - 1]), last.model, last.error)
  }

  /** Once a model is recorded as taking no tools, no later reply brings tools back. */
  lemma {:induction false} LearningIsSticky(registry: Registry, model: string, replies: seq<ErrorResponse>)
    requires !SupportsTools(registry, model)
    ensures !SupportsTools(RecordAll(registry, replies), model)
  {
    if replies != [] {
      LearningIsSticky(registry, model, replies[..|replies| - 1]);
    }
  }

  /** Replies about other models, or whose bodies match no fragment, leave a model's flag alone. */
  lemma {:induction false} OtherRepliesLeaveModelAlone(registry: Registry, model: string, replies: seq<ErrorResponse>)
    requires forall k :: 0 <= k < |replies| ==> replies[k].model != model || !SignalsToolsUnsupported(replies[k].error)
    ensures SupportsTools(RecordAll(registry, replies), model) == SupportsTools(registry, model)
  {
    if replies != [] {
      OtherRepliesLeaveModelAlone(registry, model, replies[..|replies| - 1]);
    }
  }

  /** A body that says the model does not support functions switches tools off for it. */
  lemma DoesNotSupportFunctionSwitchesToolsOff(registry: Registry, model: string, prefix: string, suffix: string)
    ensures !SupportsTools(RecordErrorResponse(registry, model, prefix + NoFunctionSupport + suffix), model)
  {
    var error := prefix + NoFunctionSupport + suffix;
    assert error[|prefix|..|prefix| + |NoFunctionSupport|] == NoFunctionSupport;
    assert OccursAt(error, NoFunctionSupport, |prefix|);
    ContainsOccurrence(error, NoFunctionSupport);
  }
}
