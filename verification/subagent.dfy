/** The sub-agent registry and the `task` dispatcher of
    src/deepagents/sub_agent.py. Tools, graphs, compiled agents and the
    language model are opaque handles; running a sub-agent is an oracle
    `invoke` passed in as a parameter. */
module SubAgents {
  import opened Wrappers
  import opened Text

  /** A compiled LangGraph runnable, seen only as a handle. */
  type Graph = nat

  /** A tool as handed to `_create_task_tool`: its name (a `BaseTool`'s
      `name`, or the name `tool(...)` takes from a plain function) and
      whether it already is a `BaseTool`. */
  datatype Tool = Tool(name: string, handle: nat, isBaseTool: bool)

  /** A tool as an agent receives it: the object itself, or the `BaseTool`
      that `tool(...)` wraps around a plain function. */
  datatype ToolRef = Raw(tool: Tool) | Wrapped(tool: Tool)

  /** The `SubAgent` descriptor; `tools` and `graph` are the two optional
      keys. */
  datatype SubAgent = SubAgent(
    name: string,
    description: string,
    prompt: string,
    tools: Option<seq<string>>,
    graph: Option<Graph>)

  /** The `state_schema` argument: left at the library default for the
      general-purpose agent, the caller's schema for every descriptor. */
  datatype Schema = DefaultSchema | GivenSchema(schema: nat)

  /** A registry entry: an agent built by `create_custom_react_agent` from a
      prompt and tools, or a descriptor's graph used unchanged. */
  datatype Agent =
    | ReactAgent(prompt: string, tools: seq<ToolRef>, schema: Schema)
    | Prebuilt(graph: Graph)

  /** The `agents` dict: a map plus the insertion order of its keys, which
      Python dicts keep and the error text of `task` exposes. */
  datatype Registry = Registry(order: seq<string>, agents: map<string, Agent>)

  const GeneralPurpose := "general-purpose"

  predicate Distinct(ks: seq<string>)
  {
    forall i, j :: 0 <= i < j < |ks| ==> ks[i] != ks[j]
  }

  /** `order` lists every key exactly once. */
  ghost predicate Valid(reg: Registry)
  {
    Distinct(reg.order) && forall k :: k in reg.agents <==> k in reg.order
  }

  /** `agents[k] = a`: an existing key keeps its position, a new key goes
      last. */
  function Put(reg: Registry, k: string, a: Agent): (r: Registry)
    requires Valid(reg)
    ensures Valid(r)
    ensures r.agents == reg.agents[k := a]
    ensures k in reg.agents ==> r.order == reg.order
    ensures k !in reg.agents ==> r.order == reg.order + [k]
  {
    if k in reg.agents then Registry(reg.order, reg.agents[k := a])
    else Registry(reg.order + [k], reg.agents[k := a])
  }

  // ---------------------------------------------------------------------
  // The tool map
  // ---------------------------------------------------------------------

  /** The `isinstance` check of the tool loop: a plain function is wrapped,
      a `BaseTool` kept as is. */
  function Convert(t: Tool): (r: ToolRef)
    ensures r.tool == t && (r.Wrapped? <==> !t.isBaseTool)
  {
    if t.isBaseTool then Raw(t) else Wrapped(t)
  }

  /** `tools_by_name` after the loop over `tools`: each assignment
      overwrites the previous tool of the same name. */
  function ToolsByName(tools: seq<Tool>): map<string, ToolRef>
  {
    if tools == [] then map[]
    else
      var last := tools[|tools| - 1];
      ToolsByName(tools[..|tools| - 1])[last.name := Convert(last)]
  }

  /** The tool map's names are exactly the names of the given tools. */
  lemma {:induction false} ToolsByNameKeys(tools: seq<Tool>)
    ensures forall n :: n in ToolsByName(tools) <==> exists j :: 0 <= j < |tools| && tools[j].name == n
  {
    if tools != [] {
      var init := tools[..|tools| - 1];
      ToolsByNameKeys(init);
      assert forall j :: 0 <= j < |init| ==> init[j] == tools[j];
    }
  }

  /** The tool a name maps to is the last tool of that name. */
  lemma {:induction false} ToolsByNameLastWins(tools: seq<Tool>, j: nat)
    requires j < |tools|
    requires forall l :: j < l < |tools| ==> tools[l].name != tools[j].name
    ensures tools[j].name in ToolsByName(tools)
    ensures ToolsByName(tools)[tools[j].name] == Convert(tools[j])
  {
    if j < |tools| - 1 {
      ToolsByNameLastWins(tools[..|tools| - 1], j);
    }
  }

  /** The tools a descriptor receives when it gives no `"tools"` key: the
      caller's list itself, unconverted. */
  function AllTools(tools: seq<Tool>): (r: seq<ToolRef>)
    ensures |r| == |tools| && forall i :: 0 <= i < |r| ==> r[i] == Raw(tools[i])
  {
    seq(|tools|, i requires 0 <= i < |tools| => Raw(tools[i]))
  }

  /** `[tools_by_name[t] for t in names]`: the comprehension evaluates left
      to right, so the KeyError names the first missing tool. */
  function LookupTools(names: seq<string>, byName: map<string, ToolRef>): Result<seq<ToolRef>, string>
  {
    if names == [] then Success([])
    else if names[0] !in byName then Failure(names[0])
    else
      match LookupTools(names[1..], byName)
      case Failure(e) => Failure(e)
      case Success(rest) => Success([byName[names[0]]] + rest)
  }

  /** The lookup succeeds exactly when every name is in the map, and then
      yields the mapped tools in order; otherwise it fails on the first
      missing name. */
  lemma {:induction false} LookupToolsSpec(names: seq<string>, byName: map<string, ToolRef>)
    ensures var r := LookupTools(names, byName);
      && (r.Success? <==> forall i :: 0 <= i < |names| ==> names[i] in byName)
      && (r.Success? ==>
            |r.value| == |names| && forall i :: 0 <= i < |names| ==> r.value[i] == byName[names[i]])
      && (r.Failure? ==>
            exists i :: 0 <= i < |names| && names[i] == r.error && r.error !in byName &&
              forall l :: 0 <= l < i ==> names[l] in byName)
  {
    if names != [] && names[0] in byName {
      LookupToolsSpec(names[1..], byName);
      assert forall l :: 1 <= l < |names| ==> names[l] == names[1..][l - 1];
    }
  }

  // ---------------------------------------------------------------------
  // Building the registry
  // ---------------------------------------------------------------------

  /** The `agents` dict literal with its single "general-purpose" entry. */
  function Initial(tools: seq<Tool>, instructions: string): (r: Registry)
    ensures Valid(r) && r.order == [GeneralPurpose]
    ensures r.agents[GeneralPurpose] == ReactAgent(instructions, AllTools(tools), DefaultSchema)
  {
    Registry([GeneralPurpose], map[GeneralPurpose := ReactAgent(instructions, AllTools(tools), DefaultSchema)])
  }

  /** The entry one descriptor adds in the descriptor loop. The tool lookup comes
      first, so it fails on a missing tool even when a graph is given. */
  function AgentFor(d: SubAgent, tools: seq<Tool>, byName: map<string, ToolRef>, schema: nat): Result<Agent, string>
  {
    var given :=
      if d.tools.Some? then LookupTools(d.tools.value, byName)
      else Success(AllTools(tools));
    match given
    case Failure(e) => Failure(e)
    case Success(ts) =>
      if d.graph.Some? then Success(Prebuilt(d.graph.value))
      else Success(ReactAgent(d.prompt, ts, GivenSchema(schema)))
  }

  /** A descriptor's `"tools"` names a tool the map lacks. */
  predicate MissesTool(d: SubAgent, byName: map<string, ToolRef>)
  {
    d.tools.Some? && exists n :: n in d.tools.value && n !in byName
  }

  lemma AgentForSpec(d: SubAgent, tools: seq<Tool>, byName: map<string, ToolRef>, schema: nat)
    ensures AgentFor(d, tools, byName, schema).Failure? <==> MissesTool(d, byName)
    ensures AgentFor(d, tools, byName, schema).Failure? ==>
      AgentFor(d, tools, byName, schema).error in d.tools.value &&
      AgentFor(d, tools, byName, schema).error !in byName
    ensures d.graph.Some? && !MissesTool(d, byName) ==>
      AgentFor(d, tools, byName, schema) == Success(Prebuilt(d.graph.value))
    ensures d.graph.None? && d.tools.None? ==>
      AgentFor(d, tools, byName, schema) == Success(ReactAgent(d.prompt, AllTools(tools), GivenSchema(schema)))
    ensures d.graph.None? && d.tools.Some? && !MissesTool(d, byName) ==>
      var a := AgentFor(d, tools, byName, schema).value;
      a.ReactAgent? && a.prompt == d.prompt && a.schema == GivenSchema(schema) &&
      |a.tools| == |d.tools.value| &&
      forall i :: 0 <= i < |a.tools| ==> a.tools[i] == byName[d.tools.value[i]]
  {
    if d.tools.Some? {
      var names := d.tools.value;
      LookupToolsSpec(names, byName);
      if LookupTools(names, byName).Failure? {
        var i :| 0 <= i < |names| && names[i] == LookupTools(names, byName).error;
        assert names[i] in names;
      } else {
        forall n | n in names ensures n in byName {
          var i :| 0 <= i < |names| && names[i] == n;
        }
      }
    }
  }

  /** The descriptor loop over the descriptors still to come,
      starting from `reg`. */
  function RegisterAll(reg: Registry, ds: seq<SubAgent>, tools: seq<Tool>, byName: map<string, ToolRef>, schema: nat): Result<Registry, string>
    requires Valid(reg)
    decreases |ds|
  {
    if ds == [] then Success(reg)
    else
      match AgentFor(ds[0], tools, byName, schema)
      case Failure(e) => Failure(e)
      case Success(a) => RegisterAll(Put(reg, ds[0].name, a), ds[1..], tools, byName, schema)
  }

  /** One turn of the descriptor loop when the first descriptor misses a
      tool: registration stops with that failure. */
  lemma RegisterStops(reg: Registry, d: SubAgent, ds: seq<SubAgent>, tools: seq<Tool>, byName: map<string, ToolRef>, schema: nat, e: string)
    requires Valid(reg) && AgentFor(d, tools, byName, schema) == Failure(e)
    ensures RegisterAll(reg, [d] + ds, tools, byName, schema) == Failure(e)
  {
    assert ([d] + ds)[0] == d;
  }

  /** One turn of the descriptor loop when the first descriptor yields an
      entry: registration goes on from the registry holding it. */
  lemma RegisterAdds(reg: Registry, d: SubAgent, ds: seq<SubAgent>, tools: seq<Tool>, byName: map<string, ToolRef>, schema: nat, a: Agent)
    requires Valid(reg) && AgentFor(d, tools, byName, schema) == Success(a)
    ensures RegisterAll(reg, [d] + ds, tools, byName, schema) ==
      RegisterAll(Put(reg, d.name, a), ds, tools, byName, schema)
  {
    assert ([d] + ds)[0] == d && ([d] + ds)[1..] == ds;
  }

  /** The names of `names` not yet in `order`, appended in the order of
      their first occurrence. */
  function AppendNew(order: seq<string>, names: seq<string>): seq<string>
    decreases |names|
  {
    if names == [] then order
    else AppendNew(if names[0] in order then order else order + [names[0]], names[1..])
  }

  function Names(ds: seq<SubAgent>): (ns: seq<string>)
    ensures |ns| == |ds| && forall i :: 0 <= i < |ds| ==> ns[i] == ds[i].name
  {
    seq(|ds|, i requires 0 <= i < |ds| => ds[i].name)
  }

  /** Registration succeeds exactly when no descriptor misses a tool, and a
      failure reports a tool name one of them misses. */
  lemma {:induction false} RegisterAllFails(reg: Registry, ds: seq<SubAgent>, tools: seq<Tool>, byName: map<string, ToolRef>, schema: nat)
    requires Valid(reg)
    ensures RegisterAll(reg, ds, tools, byName, schema).Failure? <==>
      exists i :: 0 <= i < |ds| && MissesTool(ds[i], byName)
    ensures RegisterAll(reg, ds, tools, byName, schema).Failure? ==>
      exists i :: 0 <= i < |ds| && ds[i].tools.Some? &&
        RegisterAll(reg, ds, tools, byName, schema).error in ds[i].tools.value &&
        RegisterAll(reg, ds, tools, byName, schema).error !in byName
    decreases |ds|
  {
    if ds != [] {
      AgentForSpec(ds[0], tools, byName, schema);
      match AgentFor(ds[0], tools, byName, schema)
      case Failure(e) =>
      case Success(a) =>
        RegisterAllFails(Put(reg, ds[0].name, a), ds[1..], tools, byName, schema);
        assert forall i :: 1 <= i < |ds| ==> ds[i] == ds[1..][i - 1];
    }
  }

  /** A successful registration keeps the registry valid and appends the
      descriptor names not yet registered, in first-occurrence order. */
  lemma {:induction false} RegisterAllOrder(reg: Registry, ds: seq<SubAgent>, tools: seq<Tool>, byName: map<string, ToolRef>, schema: nat)
    requires Valid(reg)
    requires RegisterAll(reg, ds, tools, byName, schema).Success?
    ensures Valid(RegisterAll(reg, ds, tools, byName, schema).value)
    ensures RegisterAll(reg, ds, tools, byName, schema).value.order == AppendNew(reg.order, Names(ds))
    decreases |ds|
  {
    if ds != [] {
      var a := AgentFor(ds[0], tools, byName, schema).value;
      RegisterAllOrder(Put(reg, ds[0].name, a), ds[1..], tools, byName, schema);
      assert Names(ds)[1..] == Names(ds[1..]);
    }
  }

  /** After a successful registration the keys are the old keys and the
      descriptor names. */
  lemma {:induction false} RegisterAllKeys(reg: Registry, ds: seq<SubAgent>, tools: seq<Tool>, byName: map<string, ToolRef>, schema: nat)
    requires Valid(reg)
    requires RegisterAll(reg, ds, tools, byName, schema).Success?
    ensures forall k :: k in RegisterAll(reg, ds, tools, byName, schema).value.agents <==>
      k in reg.agents || k in Names(ds)
    decreases |ds|
  {
    if ds != [] {
      var a := AgentFor(ds[0], tools, byName, schema).value;
      var next := Put(reg, ds[0].name, a);
      RegisterAllKeys(next, ds[1..], tools, byName, schema);
      assert RegisterAll(reg, ds, tools, byName, schema) == RegisterAll(next, ds[1..], tools, byName, schema);
      assert Names(ds) == [ds[0].name] + Names(ds[1..]);
    }
  }

  /** A key no descriptor names keeps its entry. */
  lemma {:induction false} RegisterAllUntouched(reg: Registry, ds: seq<SubAgent>, tools: seq<Tool>, byName: map<string, ToolRef>, schema: nat, k: string)
    requires Valid(reg)
    requires RegisterAll(reg, ds, tools, byName, schema).Success?
    requires k in reg.agents && k !in Names(ds)
    ensures k in RegisterAll(reg, ds, tools, byName, schema).value.agents
    ensures RegisterAll(reg, ds, tools, byName, schema).value.agents[k] == reg.agents[k]
    decreases |ds|
  {
    if ds != [] {
      var a := AgentFor(ds[0], tools, byName, schema).value;
      assert Names(ds) == [ds[0].name] + Names(ds[1..]);
      RegisterAllUntouched(Put(reg, ds[0].name, a), ds[1..], tools, byName, schema, k);
    }
  }

  /** After a successful registration a descriptor name maps to the entry
      of the LAST descriptor carrying it. */
  lemma {:induction false} RegisterAllLastWins(reg: Registry, ds: seq<SubAgent>, tools: seq<Tool>, byName: map<string, ToolRef>, schema: nat, i: nat)
    requires Valid(reg)
    requires RegisterAll(reg, ds, tools, byName, schema).Success?
    requires i < |ds| && forall l :: i < l < |ds| ==> ds[l].name != ds[i].name
    ensures AgentFor(ds[i], tools, byName, schema).Success?
    ensures ds[i].name in RegisterAll(reg, ds, tools, byName, schema).value.agents
    ensures RegisterAll(reg, ds, tools, byName, schema).value.agents[ds[i].name] ==
      AgentFor(ds[i], tools, byName, schema).value
    decreases |ds|
  {
    RegisterAllKeys(reg, ds, tools, byName, schema);
    assert Names(ds)[i] == ds[i].name;
    var a := AgentFor(ds[0], tools, byName, schema).value;
    var next := Put(reg, ds[0].name, a);
    if i == 0 {
      assert forall l :: 0 <= l < |ds[1..]| ==> ds[1..][l].name != ds[0].name;
      assert ds[0].name !in Names(ds[1..]);
      RegisterAllUntouched(next, ds[1..], tools, byName, schema, ds[0].name);
    } else {
      assert forall l :: i - 1 < l < |ds[1..]| ==> ds[1..][l].name != ds[1..][i - 1].name;
      RegisterAllLastWins(next, ds[1..], tools, byName, schema, i - 1);
    }
  }

  // ---------------------------------------------------------------------
  // The task tool
  // ---------------------------------------------------------------------

  /** `other_agents_string`: one entry per descriptor. */
  function Listing(subagents: seq<SubAgent>): (r: seq<string>)
    ensures |r| == |subagents|
    ensures forall i :: 0 <= i < |r| ==> r[i] == "- " + subagents[i].name + ": " + subagents[i].description
  {
    seq(|subagents|, i requires 0 <= i < |subagents| => "- " + subagents[i].name + ": " + subagents[i].description)
  }

  /** What `_create_task_tool` produces: the registry the `task` closure
      captures and the descriptor listing that goes into its description. */
  datatype TaskTool = TaskTool(registry: Registry, listing: seq<string>)

  /** `_create_task_tool` as a function; a failure carries the KeyError's
      missing tool name. */
  function BuildTaskTool(tools: seq<Tool>, instructions: string, subagents: seq<SubAgent>, schema: nat): Result<TaskTool, string>
  {
    match RegisterAll(Initial(tools, instructions), subagents, tools, ToolsByName(tools), schema)
    case Failure(e) => Failure(e)
    case Success(reg) => Success(TaskTool(reg, Listing(subagents)))
  }

  /** `_create_task_tool`: fill `tools_by_name`, then assign one `agents`
      entry per descriptor, in order, stopping at the first KeyError.
      `model` is left out since every agent is built from the same one. */
  method CreateTaskTool(tools: seq<Tool>, instructions: string, subagents: seq<SubAgent>, schema: nat)
    returns (res: Result<TaskTool, string>)
    ensures res == BuildTaskTool(tools, instructions, subagents, schema)
  {
    var registry := Initial(tools, instructions);
    var byName := ToolMap(tools);
    assert subagents[0..] == subagents;
    ghost var goal := RegisterAll(registry, subagents, tools, byName, schema);
    var j := 0;
    while j < |subagents|
      invariant j <= |subagents| && Valid(registry)
      invariant goal == RegisterAll(registry, subagents[j..], tools, byName, schema)
    {
      var d := subagents[j];
      assert subagents[j..] == [d] + subagents[j + 1..];
      var entry := DescriptorEntry(d, tools, byName, schema);
      if entry.Failure? {
        RegisterStops(registry, d, subagents[j + 1..], tools, byName, schema, entry.error);
        return Failure(entry.error);
      }
      RegisterAdds(registry, d, subagents[j + 1..], tools, byName, schema, entry.value);
      registry := Put(registry, d.name, entry.value);
      j := j + 1;
    }
    res := Success(TaskTool(registry, Listing(subagents)));
  }

  /** The tool loop of `_create_task_tool`, filling
      `tools_by_name`. */
  method ToolMap(tools: seq<Tool>) returns (byName: map<string, ToolRef>)
    ensures byName == ToolsByName(tools)
  {
    byName := map[];
    var i := 0;
    while i < |tools|
      invariant i <= |tools| && byName == ToolsByName(tools[..i])
    {
      byName := byName[tools[i].name := Convert(tools[i])];
      assert tools[..i + 1][..i] == tools[..i];
      i := i + 1;
    }
    assert tools[..|tools|] == tools;
  }

  /** The body of the descriptor loop: the tool lookup, which
      raises on a missing name, then the choice between the given graph and
      a fresh agent. */
  method DescriptorEntry(d: SubAgent, tools: seq<Tool>, byName: map<string, ToolRef>, schema: nat)
    returns (entry: Result<Agent, string>)
    ensures entry == AgentFor(d, tools, byName, schema)
  {
    var given: seq<ToolRef>;
    if d.tools.Some? {
      var looked := LookupTools(d.tools.value, byName);
      if looked.Failure? {
        return Failure(looked.error);
      }
      given := looked.value;
    } else {
      given := AllTools(tools);
    }
    if d.graph.Some? {
      entry := Success(Prebuilt(d.graph.value));
    } else {
      entry := Success(ReactAgent(d.prompt, given, GivenSchema(schema)));
    }
  }

  /** A successful build registers "general-purpose" first, then every
      descriptor name in first-occurrence order; "general-purpose" keeps
      the default agent unless a descriptor reuses the name; the listing
      covers the descriptors only. */
  lemma BuildRegistry(tools: seq<Tool>, instructions: string, subagents: seq<SubAgent>, schema: nat)
    requires BuildTaskTool(tools, instructions, subagents, schema).Success?
    ensures var r := BuildTaskTool(tools, instructions, subagents, schema).value.registry;
      Valid(r) && |r.order| > 0 && r.order[0] == GeneralPurpose &&
      r.order == AppendNew([GeneralPurpose], Names(subagents))
    ensures var r := BuildTaskTool(tools, instructions, subagents, schema).value.registry;
      forall k :: k in r.agents <==> k == GeneralPurpose || k in Names(subagents)
    ensures var r := BuildTaskTool(tools, instructions, subagents, schema).value.registry;
      GeneralPurpose !in Names(subagents) ==>
        GeneralPurpose in r.agents &&
        r.agents[GeneralPurpose] == ReactAgent(instructions, AllTools(tools), DefaultSchema)
    ensures BuildTaskTool(tools, instructions, subagents, schema).value.listing == Listing(subagents)
  {
    var init := Initial(tools, instructions);
    var byName := ToolsByName(tools);
    RegisterAllOrder(init, subagents, tools, byName, schema);
    RegisterAllKeys(init, subagents, tools, byName, schema);
    if GeneralPurpose !in Names(subagents) {
      RegisterAllUntouched(init, subagents, tools, byName, schema, GeneralPurpose);
    }
    AppendNewKeepsPrefix([GeneralPurpose], Names(subagents));
  }

  /** In a successful build each descriptor name is bound to the entry of
      its last descriptor, even when that name is "general-purpose". */
  lemma BuildLastWins(tools: seq<Tool>, instructions: string, subagents: seq<SubAgent>, schema: nat, i: nat)
    requires BuildTaskTool(tools, instructions, subagents, schema).Success?
    requires i < |subagents| && forall l :: i < l < |subagents| ==> subagents[l].name != subagents[i].name
    ensures AgentFor(subagents[i], tools, ToolsByName(tools), schema).Success?
    ensures var r := BuildTaskTool(tools, instructions, subagents, schema).value.registry;
      subagents[i].name in r.agents &&
      r.agents[subagents[i].name] == AgentFor(subagents[i], tools, ToolsByName(tools), schema).value
  {
    RegisterAllLastWins(Initial(tools, instructions), subagents, tools, ToolsByName(tools), schema, i);
  }

  lemma {:induction false} AppendNewKeepsPrefix(order: seq<string>, names: seq<string>)
    ensures |AppendNew(order, names)| >= |order| && AppendNew(order, names)[..|order|] == order
    decreases |names|
  {
    if names != [] {
      var next := if names[0] in order then order else order + [names[0]];
      AppendNewKeepsPrefix(next, names[1..]);
      assert next[..|order|] == order;
    }
  }

  /** Construction fails exactly when some descriptor's `"tools"` names a
      tool missing from the tool map, whether or not it also gives a graph;
      the failure names such a tool. */
  lemma BuildFails(tools: seq<Tool>, instructions: string, subagents: seq<SubAgent>, schema: nat)
    ensures var byName := ToolsByName(tools);
      BuildTaskTool(tools, instructions, subagents, schema).Failure? <==>
        exists i :: 0 <= i < |subagents| && MissesTool(subagents[i], byName)
    ensures BuildTaskTool(tools, instructions, subagents, schema).Failure? ==>
      var e := BuildTaskTool(tools, instructions, subagents, schema).error;
      (forall t :: t in tools ==> t.name != e) &&
      exists i :: 0 <= i < |subagents| && subagents[i].tools.Some? && e in subagents[i].tools.value
  {
    RegisterAllFails(Initial(tools, instructions), subagents, tools, ToolsByName(tools), schema);
    ToolsByNameKeys(tools);
  }

  /** With no descriptors the registry holds only the general-purpose agent
      and the listing is empty. */
  lemma BuildWithoutDescriptors(tools: seq<Tool>, instructions: string, schema: nat)
    ensures BuildTaskTool(tools, instructions, [], schema) ==
      Success(TaskTool(
        Registry([GeneralPurpose], map[GeneralPurpose := ReactAgent(instructions, AllTools(tools), DefaultSchema)]),
        []))
  {
  }

  // ---------------------------------------------------------------------
  // Dispatching a task
  // ---------------------------------------------------------------------

  datatype ChatMessage = ChatMessage(role: string, content: string)

  /** `ToolMessage(content, tool_call_id=...)`. */
  datatype ToolMessage = ToolMessage(content: string, toolCallId: string)

  /** What `sub_agent.invoke(state)` returns: its messages and, when present,
      its `"files"` entry. */
  datatype AgentRun = AgentRun(messages: seq<ChatMessage>, files: Option<map<string, string>>)

  /** Running a registry entry on a state's messages and files. */
  type Invoker = (Agent, seq<ChatMessage>, map<string, string>) -> AgentRun

  /** What `task` returns: the error string, the `Command` update, or the
      IndexError that `result["messages"][-1]` raises on a run with no
      messages. */
  datatype TaskReply =
    | ErrorText(text: string)
    | Update(files: map<string, string>, messages: seq<ToolMessage>)
    | Raised

  /** The injected `DeepAgentState` that `task` writes to. */
  class State {
    var messages: seq<ChatMessage>
    var files: map<string, string>

    constructor (messages: seq<ChatMessage>, files: map<string, string>)
      ensures this.messages == messages && this.files == files
    {
      this.messages := messages;
      this.files := files;
    }
  }

  function Backticked(keys: seq<string>): (r: seq<string>)
    ensures |r| == |keys| && forall i :: 0 <= i < |r| ==> r[i] == "`" + keys[i] + "`"
  {
    seq(|keys|, i requires 0 <= i < |keys| => "`" + keys[i] + "`")
  }

  const ErrorHead := "Error: invoked agent of type "
  const ErrorMiddle := ", the only allowed types are "

  /** The error f-string of `task`, the key list rendered as Python's list repr. */
  function UnknownAgentError(subagentType: string, order: seq<string>): string
  {
    ErrorHead + subagentType + ErrorMiddle + PyListRepr(Backticked(order))
  }

  /** Keys without single quotes, backslashes, line breaks or tabs appear
      verbatim, each as '`key`', in registration order. */
  lemma UnknownAgentErrorText(subagentType: string, order: seq<string>)
    requires forall i :: 0 <= i < |order| ==> Plain(order[i])
    ensures UnknownAgentError(subagentType, order) ==
      ErrorHead + subagentType + ErrorMiddle + "[" +
      Join(seq(|order|, i requires 0 <= i < |order| => "'`" + order[i] + "`'"), ", ") + "]"
  {
    var items := Backticked(order);
    var reprs := seq(|items|, i requires 0 <= i < |items| => PyStrRepr(items[i]));
    var quoted := seq(|order|, i requires 0 <= i < |order| => "'`" + order[i] + "`'");
    forall i | 0 <= i < |order|
      ensures reprs[i] == quoted[i]
    {
      assert Plain(items[i]) by {
        assert Plain(order[i]);
        forall c | 0 < c < |items[i]| - 1 ensures items[i][c] == order[i][c - 1] {
        }
      }
      PlainRepr(items[i]);
    }
    assert reprs == quoted;
  }

  /** The value `task` returns for the registry captured at construction. */
  function Dispatch(registry: Registry, description: string, subagentType: string,
                    files: map<string, string>, toolCallId: string, invoke: Invoker): TaskReply
  {
    if subagentType !in registry.agents then
      ErrorText(UnknownAgentError(subagentType, registry.order))
    else
      var run := invoke(registry.agents[subagentType], [ChatMessage("user", description)], files);
      if |run.messages| == 0 then Raised
      else Update(run.files.GetOr(map[]),
                  [ToolMessage(run.messages[|run.messages| - 1].content, toolCallId)])
  }

  /** An unknown type yields an error text and nothing else; a known one
      never does, and unless the run returns no messages it yields the run's
      files (or none) and exactly one tool message carrying the run's last
      message and the caller's tool-call id. */
  lemma DispatchOutcome(registry: Registry, description: string, subagentType: string,
                        files: map<string, string>, toolCallId: string, invoke: Invoker)
    ensures var reply := Dispatch(registry, description, subagentType, files, toolCallId, invoke);
      reply.ErrorText? <==> subagentType !in registry.agents
    ensures var reply := Dispatch(registry, description, subagentType, files, toolCallId, invoke);
      reply.ErrorText? ==> reply.text == UnknownAgentError(subagentType, registry.order)
    ensures subagentType in registry.agents ==>
      var reply := Dispatch(registry, description, subagentType, files, toolCallId, invoke);
      var run := invoke(registry.agents[subagentType], [ChatMessage("user", description)], files);
      (reply.Raised? <==> run.messages == []) &&
      (reply.Update? ==>
         |reply.messages| == 1 &&
         reply.messages[0].toolCallId == toolCallId &&
         reply.messages[0].content == run.messages[|run.messages| - 1].content &&
         (run.files.Some? ==> reply.files == run.files.value) &&
         (run.files.None? ==> reply.files == map[]))
  {
  }

  /** `task`: an unknown type leaves the state alone; a known one replaces
      the state's messages with the single user message before the run and
      keeps its files. */
  method Task(registry: Registry, description: string, subagentType: string, state: State,
              toolCallId: string, invoke: Invoker) returns (reply: TaskReply)
    modifies state
    ensures reply == Dispatch(registry, description, subagentType, old(state.files), toolCallId, invoke)
    ensures state.files == old(state.files)
    ensures subagentType !in registry.agents ==> state.messages == old(state.messages)
    ensures subagentType in registry.agents ==> state.messages == [ChatMessage("user", description)]
  {
    if subagentType !in registry.agents {
      return ErrorText(UnknownAgentError(subagentType, registry.order));
    }
    var subAgent := registry.agents[subagentType];
    state.messages := [ChatMessage("user", description)];
    var result := invoke(subAgent, state.messages, state.files);
    if |result.messages| == 0 {
      return Raised;
    }
    reply := Update(result.files.GetOr(map[]),
                    [ToolMessage(result.messages[|result.messages| - 1].content, toolCallId)]);
  }
}
