/**
 * Flattening of the request's tool groups into the vendor's `functions` list
 * (customApiContentGenerator.ts, convertToCustomApiFunctions).
 */
module ToolDeclarations {
  import opened Wrappers
  import opened JsonModel
  import opened TextUtil

  datatype FunctionDeclaration = FunctionDeclaration(
    name: Option<string>,
    description: Option<string>,
    parameters: Option<Json>,
    response: Option<Json>)

  /** A tool group; groups of other kinds have no `functionDeclarations`. */
  datatype Tool = Tool(functionDeclarations: Option<seq<FunctionDeclaration>>)

  /** A function as the vendor receives it: name, description and parameters only. */
  datatype WireFunction = WireFunction(name: Option<string>, description: Option<string>, parameters: Option<Json>)

  function ToWireFunction(d: FunctionDeclaration): WireFunction
  {
    WireFunction(d.name, d.description, d.parameters)
  }

  /** The declarations a tool group contributes, converted, in order. */
  function Declared(t: Tool): (ws: seq<WireFunction>)
    ensures t.functionDeclarations.None? ==> ws == []
    ensures t.functionDeclarations.Some? ==>
      |ws| == |t.functionDeclarations.value| &&
      forall k :: 0 <= k < |ws| ==> ws[k] == ToWireFunction(t.functionDeclarations.value[k])
  {
    match t.functionDeclarations
    case None => []
    case Some(ds) => seq(|ds|, k requires 0 <= k < |ds| => ToWireFunction(ds[k]))
  }

  /** `tools.map(...).flat()`: every group's declarations, group after group. */
  function Flatten(tools: seq<Tool>): seq<WireFunction>
  {
    if |tools| == 0 then [] else Flatten(tools[..|tools| - 1]) + Declared(tools[|tools| - 1])
  }

  /** convertToCustomApiFunctions: no tools give no list. */
  function ConvertTools(tools: Option<seq<Tool>>): (r: Option<seq<WireFunction>>)
    ensures tools.None? <==> r.None?
    ensures tools.Some? ==> r == Some(Flatten(tools.value))
  {
    match tools
    case None => None
    case Some(ts) => Some(Flatten(ts))
  }

  /** Flattening preserves order: the functions of two lists of groups, in order. */
  lemma {:induction false} FlattenAppend(a: seq<Tool>, b: seq<Tool>)
    ensures Flatten(a + b) == Flatten(a) + Flatten(b)
  {
    if |b| == 0 {
      assert a + b == a;
    } else {
      FlattenAppend(a, b[..|b| - 1]);
      FlattenAppendStep(a, b);
    }
  }

  /** The inductive step of `FlattenAppend`: one more group at the end of `b`. */
  lemma FlattenAppendStep(a: seq<Tool>, b: seq<Tool>)
    requires |b| > 0
    requires Flatten(a + b[..|b| - 1]) == Flatten(a) + Flatten(b[..|b| - 1])
    ensures Flatten(a + b) == Flatten(a) + Flatten(b)
  {
    var init := b[..|b| - 1];
    var x, y, z := Flatten(a), Flatten(init), Declared(b[|b| - 1]);
    FlattenSnoc(a, init, b);
    Regroup(Flatten(a + b), x, y, z, Flatten(b));
  }

  /** One unfolding of `Flatten` at the end of `a + b`. */
  lemma FlattenSnoc(a: seq<Tool>, init: seq<Tool>, b: seq<Tool>)
    requires |b| > 0 && init == b[..|b| - 1]
    ensures Flatten(a + b) == Flatten(a + init) + Declared(b[|b| - 1])
  {
    var ab := a + b;
    assert ab[..|ab| - 1] == a + init;
  }

  /** The number of declarations a tool group holds. */
  function GroupSize(t: Tool): nat
  {
    match t.functionDeclarations
    case None => 0
    case Some(ds) => |ds|
  }

  /** The number of declarations the groups hold together. */
  function DeclarationCount(tools: seq<Tool>): nat
  {
    if |tools| == 0 then 0 else DeclarationCount(tools[..|tools| - 1]) + GroupSize(tools[|tools| - 1])
  }

  /** The number of functions sent is the number of declarations in the groups. */
  lemma {:induction false} FlattenLength(tools: seq<Tool>)
    ensures |Flatten(tools)| == DeclarationCount(tools)
  {
    if tools != [] {
      FlattenLength(tools[..|tools| - 1]);
    }
  }

  /**
   * A function is sent exactly when some group declares it: nothing is lost and
   * nothing is invented.
   */
  lemma {:induction false} FlattenMembership(tools: seq<Tool>, w: WireFunction)
    ensures w in Flatten(tools) <==>
      exists i, k :: (&& 0 <= i < |tools|
                      && tools[i].functionDeclarations.Some?
                      && 0 <= k < |tools[i].functionDeclarations.value|
                      && w == ToWireFunction(tools[i].functionDeclarations.value[k]))
  {
    if tools != [] {
      var init := tools[..|tools| - 1];
      var last := tools[|tools| - 1];
      FlattenMembership(init, w);
      if w in Declared(last) {
        var k :| 0 <= k < |Declared(last)| && Declared(last)[k] == w;
        assert tools[|tools| - 1] == last;
      }
      if exists i, k :: (&& 0 <= i < |tools|
                         && tools[i].functionDeclarations.Some?
                         && 0 <= k < |tools[i].functionDeclarations.value|
                         && w == ToWireFunction(tools[i].functionDeclarations.value[k])) {
        var i, k :| && 0 <= i < |tools|
                    && tools[i].functionDeclarations.Some?
                    && 0 <= k < |tools[i].functionDeclarations.value|
                    && w == ToWireFunction(tools[i].functionDeclarations.value[k]);
        if i == |tools| - 1 {
          assert Declared(last)[k] == w;
        } else {
          assert init[i] == tools[i];
        }
      }
    }
  }

  /** The `functions` field of a request: present only when the model is believed to take tools. */
  function RequestFunctions(supportsTools: bool, tools: Option<seq<Tool>>): (r: Option<seq<WireFunction>>)
    ensures !supportsTools ==> r.None?
    ensures supportsTools ==> r == ConvertTools(tools)
    ensures supportsTools && tools.Some? ==> r.Some? && |r.value| == DeclarationCount(tools.value)
  {
    if !supportsTools then None
    else if tools.None? then None
    else FlattenLength(tools.value); ConvertTools(tools)
  }
}
