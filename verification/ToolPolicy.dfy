/** Which tools Foundry is offered for a turn, and which of its calls are let through. */
module ToolPolicy {
  import opened Bytes
  import opened Turns

  /** foundryToolClassSupported. */
  predicate Supported(toolClass: ToolClass) {
    toolClass.ReadClass? || toolClass.WriteClass?
  }

  /** The names in the schemas that are sent with the run of a brokered turn, in the order of the definitions. */
  function Offered(tools: seq<ToolDefinition>): seq<Text> {
    if tools == [] then []
    else
      var last := tools[|tools| - 1];
      var name := TrimSpace(last.name);
      Offered(tools[..|tools| - 1]) + if Supported(last.toolClass) && name != [] then [name] else []
  }

  /** supportedFoundryToolDefinitions and foundryToolSchemas, as far as names go. */
  method SchemaNames(tools: seq<ToolDefinition>) returns (names: seq<Text>)
    ensures names == Offered(tools)
  {
    names := [];
    for i := 0 to |tools|
      invariant names == Offered(tools[..i])
    {
      assert tools[..i + 1][..i] == tools[..i];
      if !Supported(tools[i].toolClass) {
        continue;
      }
      var name := TrimSpace(tools[i].name);
      if name == [] {
        continue;
      }
      names := names + [name];
    }
    assert tools[..|tools|] == tools;
  }

  /** turnAllowsFoundryTool. */
  method AllowsTool(tools: seq<ToolDefinition>, called: Text) returns (ok: bool)
    ensures ok == Exposed(tools, called)
  {
    var name := TrimSpace(called);
    for i := 0 to |tools|
      invariant forall j | 0 <= j < i :: TrimSpace(tools[j].name) != name
    {
      if TrimSpace(tools[i].name) == name {
        return true;
      }
    }
    ok := false;
  }

  /** foundryToolAllowed. */
  method ToolAllowed(tools: seq<ToolDefinition>, called: Text) returns (ok: bool)
    ensures ok == Approved(tools, called)
  {
    var name := TrimSpace(called);
    if name == [] {
      return false;
    }
    for i := 0 to |tools|
      invariant forall j | 0 <= j < i :: !(Supported(tools[j].toolClass) && TrimSpace(tools[j].name) == name)
    {
      if !Supported(tools[i].toolClass) {
        continue;
      }
      if TrimSpace(tools[i].name) == name {
        return true;
      }
    }
    ok := false;
  }

  /** A call is approved if and only if its tool is one that was offered; and then it is exposed. */
  lemma {:induction false} ApprovedIsOffered(tools: seq<ToolDefinition>, called: Text)
    ensures Approved(tools, called) <==> TrimSpace(called) in Offered(tools)
    ensures Approved(tools, called) ==> Exposed(tools, called)
    decreases |tools|
  {
    if tools != [] {
      var before, last := tools[..|tools| - 1], tools[|tools| - 1];
      ApprovedIsOffered(before, called);
      assert forall d :: d in tools <==> d in before || d == last;
    }
  }
}
