/** The tool registry of the `tools` package: tools keyed by name, with
    lookup, enumeration and dispatch of a call to the named tool. */
module ToolRegistry {
  import opened Results
  import opened Json

  /** A tool: its name, description, JSON-schema of parameters, and what its
      `Execute` returns for each raw input in the environment it runs in. */
  datatype Tool = Tool(
    name: string,
    description: string,
    parameters: Value,
    execute: Raw -> Result<string>)

  const UnknownToolPrefix: string := "unknown tool: "

  /** The registry: a map from names to tools, changed only by `Register`. */
  class Manager {
    var tools: map<string, Tool>

    /** Every tool is filed under its own name. */
    ghost predicate Valid()
      reads this
    {
      forall name :: name in tools ==> tools[name].name == name
    }

    /** `NewManager`: a registry with no tools. */
    constructor ()
      ensures Valid()
      ensures tools == map[]
    {
      tools := map[];
    }

    /** Files `tool` under its name, replacing any tool of that name and
        leaving every other entry as it was. */
    method Register(tool: Tool)
      requires Valid()
      modifies this
      ensures Valid()
      ensures tools == old(tools)[tool.name := tool]
    {
      tools := tools[tool.name := tool];
    }

    /** The tool filed under `name`, if any. */
    method Get(name: string) returns (tool: Option<Tool>)
      ensures tool.Some? <==> name in tools
      ensures tool.Some? ==> tool.value == tools[name]
    {
      if name in tools {
        tool := Some(tools[name]);
      } else {
        tool := None;
      }
    }

    /** Every stored tool exactly once, in an order the caller cannot rely
        on; `names` records, for the proof only, the key each one came from. */
    method List() returns (result: seq<Tool>, ghost names: seq<string>)
      requires Valid()
      ensures |result| == |tools|
      ensures forall name :: name in tools ==> tools[name] in result
      ensures forall i :: 0 <= i < |result| ==> result[i].name in tools && tools[result[i].name] == result[i]
      ensures |names| == |tools|
      ensures forall i, j :: 0 <= i < j < |names| ==> names[i] != names[j]
      ensures forall i :: 0 <= i < |names| ==> names[i] in tools && result[i] == tools[names[i]]
      ensures forall name :: name in tools ==> name in names
      ensures forall i :: 0 <= i < |result| ==> result[i].name == names[i]
    {
      result, names := [], [];
      var remaining := tools.Keys;
      while remaining != {}
        invariant remaining <= tools.Keys
        invariant |result| == |names|
        invariant |names| + |remaining| == |tools|
        invariant forall i, j :: 0 <= i < j < |names| ==> names[i] != names[j]
        invariant forall i :: 0 <= i < |names| ==> names[i] in tools && names[i] !in remaining && result[i] == tools[names[i]]
        invariant forall name :: name in tools ==> name in names || name in remaining
        decreases |remaining|
      {
        var name :| name in remaining;
        result := result + [tools[name]];
        names := names + [name];
        remaining := remaining - {name};
      }
    }

    /** Runs the tool named `toolName` on `input`: an unknown name yields the
        `unknown tool` error and runs nothing; a known one yields exactly what
        that tool's `Execute` returns. */
    method ExecuteCall(toolName: string, input: Raw) returns (r: Result<string>)
      ensures toolName !in tools ==> r == Err(UnknownToolPrefix + toolName)
      ensures toolName in tools ==> r == tools[toolName].execute(input)
    {
      var tool := Get(toolName);
      if tool.None? {
        return Err(UnknownToolPrefix + toolName);
      }
      r := tool.value.execute(input);
    }
  }

  /** Registering then looking up the tool's name finds it; registering a
      second tool under another name leaves the first in place; registering
      under a taken name replaces the old tool. */
  method RegisterScenario(m: Manager, first: Tool, second: Tool, replacement: Tool)
    requires m.Valid()
    requires first.name != second.name && replacement.name == first.name
    modifies m
    ensures m.Valid()
    ensures m.tools == old(m.tools)[first.name := replacement][second.name := second]
  {
    m.Register(first);
    var found := m.Get(first.name);
    assert found == Some(first);
    m.Register(second);
    found := m.Get(first.name);
    assert found == Some(first);
    m.Register(replacement);
    found := m.Get(first.name);
    assert found == Some(replacement);
    found := m.Get(second.name);
    assert found == Some(second);
  }

  /** A fresh registry knows no name, so every call is refused. */
  method EmptyRegistryRefuses(toolName: string, input: Raw) returns (r: Result<string>)
    ensures r == Err(UnknownToolPrefix + toolName)
  {
    var m := new Manager();
    var found := m.Get(toolName);
    assert found == None;
    r := m.ExecuteCall(toolName, input);
  }
}
