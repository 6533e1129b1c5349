/**
 * The registry of MCP tools (pkg/tools/registry.go): a map from tool name to
 * tool, updated in place. A tool is reduced to its name and description; the
 * read-write lock is not modelled.
 */
module ToolRegistry {
  import opened Wrappers
  import opened Maps

  /** A tool, as far as the registry sees it. */
  datatype Tool = Tool(name: string, description: string)

  class Registry {
    var tools: map<string, Tool>

    /** Every tool is filed under its own name. */
    predicate Valid()
      reads this
    {
      forall n | n in tools :: tools[n].name == n
    }

    /** `NewRegistry`: an empty registry. */
    constructor ()
      ensures Valid() && tools == map[]
    {
      tools := map[];
    }

    /** `Register`: files `tool` under its name, replacing any tool of that name. */
    method Register(tool: Tool)
      requires Valid()
      modifies this
      ensures Valid()
      ensures tools == old(tools)[tool.name := tool]
      ensures Get(tool.name) == Some(tool)
      ensures forall n :: n != tool.name ==> Get(n) == old(Get(n))
    {
      tools := tools[tool.name := tool];
    }

    /** `Deregister`: removes the tool of that name, if any. */
    method Deregister(name: string)
      requires Valid()
      modifies this
      ensures Valid()
      ensures tools == old(tools) - {name}
      ensures Get(name) == None
      ensures forall n :: n != name ==> Get(n) == old(Get(n))
    {
      tools := tools - {name};
    }

    /** `Get`: the tool of that name, `None` standing for Go's nil. */
    function Get(name: string): (r: Option<Tool>)
      reads this
      ensures r.None? <==> name !in tools
      ensures r.Some? ==> r.value in tools.Values && (Valid() ==> r.value.name == name)
    {
      if name in tools then Some(tools[name]) else None
    }

    /** `List`: every registered name exactly once, in map order. */
    method List() returns (names: seq<string>)
      ensures Enumerates(names, tools)
      ensures |names| == |tools|
    {
      names := Keys(tools);
    }

    /** `All`: every registered tool, one per name, in map order. */
    method All() returns (result: seq<Tool>)
      requires Valid()
      ensures |result| == |tools|
      ensures forall n :: n in tools <==> exists i :: 0 <= i < |result| && result[i].name == n
      ensures forall i :: 0 <= i < |result| ==> result[i] in tools.Values
    {
      result := Values(tools);
      ghost var ks :| Enumerates(ks, tools) && |ks| == |result| && forall i :: 0 <= i < |ks| ==> result[i] == tools[ks[i]];
      forall i | 0 <= i < |result| ensures ks[i] in tools && result[i] == tools[ks[i]] && result[i].name == ks[i] {
        assert ks[i] in ks;
      }
      forall n | n in tools ensures exists i :: 0 <= i < |result| && result[i].name == n {
        assert n in ks;
        var i :| 0 <= i < |ks| && ks[i] == n;
        assert result[i].name == n;
      }
    }
  }
}
