/**
  The tool registry helpers: the name-to-tool table handed to the model, one system prompt per
  tool, and the marking of the last cached prompt. A tool's implementation is opaque here (the
  type parameter `H`); its prompt is the text its `prompt()` resolves to.
 */
module Tool {
  import opened Messages

  datatype ToolDef<H> = ToolDef(name: string, prompt: string, handle: H)

  /** `Object.fromEntries(tools.map(t => [t.name, t.tool]))`: entries are applied in order. */
  function GetTools<H>(tools: seq<ToolDef<H>>): (table: map<string, H>)
    ensures forall name :: name in table <==> exists i :: 0 <= i < |tools| && tools[i].name == name
  {
    if |tools| == 0 then map[]
    else
      var last := tools[|tools| - 1];
      var table := GetTools(tools[..|tools| - 1]);
      assert forall i :: 0 <= i < |tools| - 1 ==> tools[..|tools| - 1][i] == tools[i];
      table[last.name := last.handle]
  }

  /** A name maps to the tool of its LAST occurrence: later duplicates overwrite earlier ones. */
  lemma {:induction false} LaterDuplicateWins<H>(tools: seq<ToolDef<H>>, i: nat)
    requires i < |tools|
    requires forall j :: i < j < |tools| ==> tools[j].name != tools[i].name
    ensures tools[i].name in GetTools(tools) && GetTools(tools)[tools[i].name] == tools[i].handle
  {
    if i < |tools| - 1 {
      var init := tools[..|tools| - 1];
      assert init[i] == tools[i];
      forall j | i < j < |init| ensures init[j].name != init[i].name {
        assert init[j] == tools[j];
      }
      LaterDuplicateWins(init, i);
    }
  }

  /** getToolPrompts: one system message per tool, carrying its prompt, in input order. */
  function GetToolPrompts<H>(tools: seq<ToolDef<H>>): (prompts: seq<ModelMessage>)
    ensures |prompts| == |tools|
    ensures forall i :: 0 <= i < |tools| ==> prompts[i] == SystemMessage(tools[i].prompt)
  {
    seq(|tools|, i requires 0 <= i < |tools| => SystemMessage(tools[i].prompt))
  }

  /**
    cachedPrompts: the same array comes back; its last element is replaced by a copy with the
    same fields, so every element equals what it was.
   */
  method CachedPrompts(prompts: array<ModelMessage>) returns (r: array<ModelMessage>)
    modifies prompts
    ensures r == prompts
    ensures prompts[..] == old(prompts[..])
  {
    if prompts.Length == 0 {
      return prompts;
    }
    var lastIndex := prompts.Length - 1;
    var last := prompts[lastIndex];
    prompts[lastIndex] := ModelMessage(last.role, last.content);
    r := prompts;
  }
}
