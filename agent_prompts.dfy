/**
  The agent's system prompts: the fixed texts, the personality and the tool prompts (the cached
  block), then the goal, the live-stats, the chat-data and the user-data prompts, then the
  agent's own extra prompts, with every empty prompt dropped at the end.
 */
module AgentPrompts {
  import opened Wrappers
  import opened Text
  import opened Js
  import opened Messages
  import opened ValidateChatUser
  import Tool
  import Goal
  import UserData
  import CobuildAiContext
  import CobuildAiContextPrompt

  /** Chat-data keys that never reach the model. */
  const HiddenKeys: set<string> := {"grantId", "impactId", "opportunityId", "startupId", "draftId"}

  /** `Object.entries(v)` for the values the chat data can be. */
  function Entries(v: Value): (r: seq<(string, Value)>)
    ensures v.Obj? ==> r == v.fields
    ensures v.Arr? ==> |r| == |v.elems|
    ensures !(v.Obj? || v.Arr? || v.Str? || v.Error?) ==> r == []
  {
    match v
    case Obj(fields) => fields
    case Arr(elems) => seq(|elems|, i requires 0 <= i < |elems| => (IntToString(i), elems[i]))
    case Str(s) => seq(|s|, i requires 0 <= i < |s| => (IntToString(i), Str([s[i]])))
    case Error(_, _, extra) => extra
    case _ => []
  }

  /** The entries whose key is not hidden, in order. */
  function SafeEntries(entries: seq<(string, Value)>): (r: seq<(string, Value)>)
    ensures forall i :: 0 <= i < |r| ==> r[i].0 !in HiddenKeys && r[i] in entries
    ensures forall e :: e in entries && e.0 !in HiddenKeys ==> e in r
  {
    if |entries| == 0 then []
    else
      var rest := SafeEntries(entries[1..]);
      assert forall e :: e in entries[1..] ==> e in entries;
      if entries[0].0 in HiddenKeys then rest else [entries[0]] + rest
  }

  const DataHeading := "\n\n# Additional data:\n"

  /**
    getDataPrompt: "" for missing or empty data and for data of hidden keys only; otherwise the
    heading and the JSON of the remaining entries.
   */
  function GetDataPrompt(json: JsonCodec, data: Value): (r: Result<string>)
    ensures !Truthy(data) || |Entries(data)| == 0 || |SafeEntries(Entries(data))| == 0 ==> r == Ok("")
    ensures Truthy(data) && |SafeEntries(Entries(data))| > 0 ==>
      var text := json.stringify(Obj(SafeEntries(Entries(data))));
      && (text.None? ==> r.Err?)
      && (text.Some? ==> r == Ok(DataHeading + text.value))
  {
    if !Truthy(data) || |Entries(data)| == 0 then Ok("")
    else
      var safe := SafeEntries(Entries(data));
      if |safe| == 0 then Ok("")
      else match json.stringify(Obj(safe))
        case None => Err("JSON.stringify failed")
        case Some(text) => Ok(DataHeading + text)
  }

  /** The object serialised into a data prompt holds no hidden key. */
  lemma DataPromptHidesKeys(data: Value)
    ensures forall i :: 0 <= i < |SafeEntries(Entries(data))| ==> SafeEntries(Entries(data))[i].0 !in HiddenKeys
  {
  }

  /** Data holding only hidden keys gives no data prompt. */
  lemma HiddenOnlyGivesNothing(json: JsonCodec, grantId: Value, draftId: Value)
    ensures GetDataPrompt(json, Obj([("grantId", grantId), ("draftId", draftId)])) == Ok("")
  {
    var entries := [("grantId", grantId), ("draftId", draftId)];
    assert entries[1..][1..] == [];
    assert SafeEntries(entries[1..]) == [];
  }

  /** `prompt.content.length > 0`. */
  predicate HasContent(m: ModelMessage) {
    match m.content
    case Text(text) => |text| > 0
    case Parts(parts) => |parts| > 0
  }

  /** The final `filter`: the prompts with content, in order. */
  function WithContent(prompts: seq<ModelMessage>): (r: seq<ModelMessage>)
    ensures forall i :: 0 <= i < |r| ==> HasContent(r[i]) && r[i] in prompts
    ensures forall m :: m in prompts && HasContent(m) ==> m in r
  {
    if |prompts| == 0 then []
    else
      var rest := WithContent(prompts[1..]);
      assert forall m :: m in prompts[1..] ==> m in prompts;
      if HasContent(prompts[0]) then [prompts[0]] + rest else rest
  }

  /** The fixed texts the cached block starts with; their prose is configuration and is taken as given. */
  datatype StaticPrompts = StaticPrompts(about: string, manifesto: string, billOfRights: string)

  /** The inputs of getAgentPrompts that come from I/O: the live-stats snapshot and the user's profile. */
  datatype Fetched = Fetched(snapshot: CobuildAiContext.Snapshot, indent: Value -> Option<string>, profile: Value)

  /** The cached block: the fixed texts, the personality, then one prompt per tool. */
  function CachedBlock<H>(fixed: StaticPrompts, personality: string, tools: seq<Tool.ToolDef<H>>): (r: seq<ModelMessage>)
    ensures |r| == 4 + |tools|
    ensures r[3] == SystemMessage(personality)
    ensures r[4..] == Tool.GetToolPrompts(tools)
  {
    [SystemMessage(fixed.about), SystemMessage(fixed.manifesto), SystemMessage(fixed.billOfRights),
     SystemMessage(personality)] + Tool.GetToolPrompts(tools)
  }

  function OptionalPrompt(text: string): (r: seq<ModelMessage>)
    ensures text == "" ==> r == []
    ensures text != "" ==> r == [SystemMessage(text)]
  {
    if text == "" then [] else [SystemMessage(text)]
  }

  function UserPrompt(json: JsonCodec, user: Option<ChatUser>, profile: Value): (r: Result<seq<ModelMessage>>)
    ensures user.None? ==> r == Ok([])
    ensures user.Some? ==> (r.Ok? <==> UserData.GetUserDataPrompt(json, user.value, profile).Ok?)
    ensures user.Some? && r.Ok? ==> r.value == [SystemMessage(UserData.GetUserDataPrompt(json, user.value, profile).value)]
  {
    if user.None? then Ok([])
    else match UserData.GetUserDataPrompt(json, user.value, profile)
      case Err(e) => Err(e)
      case Ok(text) => Ok([SystemMessage(text)])
  }

  /** The system message of each extra prompt, in order. */
  function ExtraMessages(extraPrompts: seq<string>): (r: seq<ModelMessage>)
    ensures |r| == |extraPrompts|
    ensures forall i :: 0 <= i < |extraPrompts| ==> r[i] == SystemMessage(extraPrompts[i])
  {
    seq(|extraPrompts|, i requires 0 <= i < |extraPrompts| => SystemMessage(extraPrompts[i]))
  }

  /**
    The prompts before the final filter, from the outcomes of the four computed prompts, in the
    order the source pushes them; the first of them to throw decides the error.
   */
  function Assemble(block: seq<ModelMessage>, goal: Result<string>, live: Result<string>, dataPrompt: Result<string>,
                    userPrompt: Result<seq<ModelMessage>>, extraPrompts: seq<string>): (r: Result<seq<ModelMessage>>)
    ensures r.Ok? <==> goal.Ok? && live.Ok? && dataPrompt.Ok? && userPrompt.Ok?
    ensures goal.Err? ==> r == Err(goal.message)
  {
    if goal.Err? then Err(goal.message)
    else if live.Err? then Err(live.message)
    else if dataPrompt.Err? then Err(dataPrompt.message)
    else if userPrompt.Err? then Err(userPrompt.message)
    else Ok(block + OptionalPrompt(goal.value) + [SystemMessage(live.value)] + [SystemMessage(dataPrompt.value)]
            + userPrompt.value + ExtraMessages(extraPrompts))
  }

  /** The prompts getAgentPrompts pushes for these inputs, before the final filter. */
  function Assembled<H>(fixed: StaticPrompts, personality: string, user: Option<ChatUser>, data: Value,
                        tools: seq<Tool.ToolDef<H>>, extraPrompts: seq<string>, goals: map<string, Goal.GoalText>,
                        fetched: Fetched, json: JsonCodec): Result<seq<ModelMessage>>
  {
    Assemble(CachedBlock(fixed, personality, tools), Goal.GetGoalPrompt(goals, Get(data, "goalAddress")),
             CobuildAiContextPrompt.CobuildAiContextPrompt(fetched.snapshot, fetched.indent), GetDataPrompt(json, data),
             UserPrompt(json, user, fetched.profile), extraPrompts)
  }

  /** getAgentPrompts: the prompts, built by successive pushes, with the empty ones dropped. */
  method GetAgentPrompts<H>(fixed: StaticPrompts, personality: string, user: Option<ChatUser>, data: Value,
                            tools: seq<Tool.ToolDef<H>>, extraPrompts: seq<string>, goals: map<string, Goal.GoalText>,
                            fetched: Fetched, json: JsonCodec) returns (r: Result<seq<ModelMessage>>)
    ensures var spec := Assembled(fixed, personality, user, data, tools, extraPrompts, goals, fetched, json);
      && (r.Ok? <==> spec.Ok?)
      && (r.Ok? ==> r.value == WithContent(spec.value))
  {
    var block := CachedBlock(fixed, personality, tools);
    var cached := new ModelMessage[|block|](i requires 0 <= i < |block| => block[i]);
    assert cached[..] == block;
    cached := Tool.CachedPrompts(cached);
    var prompts := cached[..];
    assert prompts == block;

    var goal := Goal.GetGoalPrompt(goals, Get(data, "goalAddress"));
    if goal.Err? { return Err(goal.message); }
    if goal.value != "" { prompts := prompts + [SystemMessage(goal.value)]; }
    assert prompts == block + OptionalPrompt(goal.value);
    var live := CobuildAiContextPrompt.CobuildAiContextPrompt(fetched.snapshot, fetched.indent);
    if live.Err? { return Err(live.message); }
    prompts := prompts + [SystemMessage(live.value)];
    var dataPrompt := GetDataPrompt(json, data);
    if dataPrompt.Err? { return Err(dataPrompt.message); }
    prompts := prompts + [SystemMessage(dataPrompt.value)];
    var userPrompt := UserPrompt(json, user, fetched.profile);
    if userPrompt.Err? { return Err(userPrompt.message); }
    prompts := prompts + userPrompt.value;
    assert prompts == block + OptionalPrompt(goal.value) + [SystemMessage(live.value)] + [SystemMessage(dataPrompt.value)]
                      + userPrompt.value;
    prompts := PushExtraPrompts(prompts, extraPrompts);
    var kept := KeepWithContent(prompts);
    r := Ok(kept);
  }

  /** The `push(...extraPrompts.map(...))`. */
  method PushExtraPrompts(prompts: seq<ModelMessage>, extraPrompts: seq<string>) returns (r: seq<ModelMessage>)
    ensures r == prompts + ExtraMessages(extraPrompts)
  {
    r := prompts;
    for i := 0 to |extraPrompts|
      invariant r == prompts + ExtraMessages(extraPrompts[..i])
    {
      assert extraPrompts[..i + 1] == extraPrompts[..i] + [extraPrompts[i]];
      assert ExtraMessages(extraPrompts[..i + 1]) == ExtraMessages(extraPrompts[..i]) + [SystemMessage(extraPrompts[i])];
      r := r + [SystemMessage(extraPrompts[i])];
    }
    assert extraPrompts[..|extraPrompts|] == extraPrompts;
  }

  /** The final `filter`, walking the prompts from the end. */
  method KeepWithContent(prompts: seq<ModelMessage>) returns (kept: seq<ModelMessage>)
    ensures kept == WithContent(prompts)
  {
    kept := [];
    var n := |prompts|;
    while n > 0
      invariant 0 <= n <= |prompts|
      invariant kept == WithContent(prompts[n..])
    {
      n := n - 1;
      assert prompts[n..][1..] == prompts[n + 1..];
      if HasContent(prompts[n]) {
        kept := [prompts[n]] + kept;
      }
    }
    assert prompts[0..] == prompts;
  }

  /** With an empty user prompt the assembled prompts are the other pushes, in order. */
  lemma {:induction false} AssembleWithoutUser(block: seq<ModelMessage>, goal: Result<string>, live: Result<string>,
                                               dataPrompt: Result<string>, extraPrompts: seq<string>)
    requires Assemble(block, goal, live, dataPrompt, Ok([]), extraPrompts).Ok?
    ensures Assemble(block, goal, live, dataPrompt, Ok([]), extraPrompts).value
         == block + OptionalPrompt(goal.value) + [SystemMessage(live.value), SystemMessage(dataPrompt.value)]
            + ExtraMessages(extraPrompts)
  {
    var middle := [SystemMessage(live.value)] + [SystemMessage(dataPrompt.value)];
    assert middle == [SystemMessage(live.value), SystemMessage(dataPrompt.value)];
    assert block + OptionalPrompt(goal.value) + [SystemMessage(live.value)] + [SystemMessage(dataPrompt.value)] + []
        == block + OptionalPrompt(goal.value) + middle;
  }

  /**
    Without a user no user-data prompt is pushed: the cached block, the goal prompt if any, the
    live-stats and data prompts, and the extra prompts are all there is.
   */
  lemma {:induction false} NoUserNoUserDataPrompt<H>(fixed: StaticPrompts, personality: string, data: Value,
                              tools: seq<Tool.ToolDef<H>>, extraPrompts: seq<string>,
                              goals: map<string, Goal.GoalText>, fetched: Fetched, json: JsonCodec)
    requires Assembled(fixed, personality, None, data, tools, extraPrompts, goals, fetched, json).Ok?
    ensures |Assembled(fixed, personality, None, data, tools, extraPrompts, goals, fetched, json).value|
         == 4 + |tools| + |OptionalPrompt(Goal.GetGoalPrompt(goals, Get(data, "goalAddress")).value)| + 2 + |extraPrompts|
    ensures Assembled(fixed, personality, None, data, tools, extraPrompts, goals, fetched, json).value
         == CachedBlock(fixed, personality, tools) + OptionalPrompt(Goal.GetGoalPrompt(goals, Get(data, "goalAddress")).value)
            + [SystemMessage(CobuildAiContextPrompt.CobuildAiContextPrompt(fetched.snapshot, fetched.indent).value),
               SystemMessage(GetDataPrompt(json, data).value)]
            + ExtraMessages(extraPrompts)
  {
    var block := CachedBlock(fixed, personality, tools);
    var goal := Goal.GetGoalPrompt(goals, Get(data, "goalAddress"));
    var live := CobuildAiContextPrompt.CobuildAiContextPrompt(fetched.snapshot, fetched.indent);
    var dataPrompt := GetDataPrompt(json, data);
    assert UserPrompt(json, None, fetched.profile) == Ok([]);
    assert Assembled(fixed, personality, None, data, tools, extraPrompts, goals, fetched, json)
        == Assemble(block, goal, live, dataPrompt, Ok([]), extraPrompts);
    AssembleWithoutUser(block, goal, live, dataPrompt, extraPrompts);
  }
}
