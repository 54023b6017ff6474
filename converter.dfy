/** The projection of the registry onto the tool definitions handed to a
    chat-completion provider. */
module Converter {
  import opened Json
  import opened ToolRegistry

  /** A `ToolDefinition`; `kind` is its `Type` field. */
  datatype ToolDefinition = ToolDefinition(kind: string, name: string, description: string, parameters: Value)

  const FunctionKind: string := "function"

  /** The definition of one tool: a function definition carrying the tool's
      name, description and parameter schema. */
  function Define(tool: Tool): (d: ToolDefinition)
    ensures d.kind == FunctionKind
    ensures d.name == tool.name && d.description == tool.description && d.parameters == tool.parameters
  {
    ToolDefinition(FunctionKind, tool.name, tool.description, tool.parameters)
  }

  /** `Manager.ToDefinitions`: one definition per registered tool, so exactly
      as many as there are tools, each copied from its tool; their names are
      exactly the registry's keys. The registry is left unchanged (the
      method modifies nothing). */
  method ToDefinitions(m: Manager) returns (defs: seq<ToolDefinition>, ghost names: seq<string>)
    requires m.Valid()
    ensures |defs| == |names| == |m.tools|
    ensures forall i :: 0 <= i < |defs| ==> defs[i].kind == FunctionKind
    ensures forall i :: 0 <= i < |defs| ==> names[i] in m.tools && defs[i] == Define(m.tools[names[i]])
    ensures (set i | 0 <= i < |defs| :: defs[i].name) == m.tools.Keys
  {
    var tools;
    tools, names := m.List();
    defs := [];
    for i := 0 to |tools|
      invariant |defs| == i
      invariant forall k :: 0 <= k < i ==> defs[k] == Define(tools[k])
    {
      defs := defs + [Define(tools[i])];
    }
    assert forall k :: 0 <= k < |defs| ==> defs[k].name == names[k];
    forall name | name in m.tools
      ensures name in (set i | 0 <= i < |defs| :: defs[i].name)
    {
      var k :| 0 <= k < |names| && names[k] == name;
      assert defs[k].name == name;
    }
  }
}
