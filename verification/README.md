# deepagents core: the code REPL and the sub-agent dispatcher, in Dafny

This project models the two pieces of sequential logic in the deepagents
repository (Python, LangGraph).

**The code-REPL orchestrator of `examples/research/repl.py`.** A language
model writes Python inside fences of the form
```` ```python-execute … ``` ````. The orchestrator does four things:

- It finds those fences with the pattern ```` ```python-execute(.+?)``` ```` under
  DOTALL.
- It routes the conversation between three nodes: `agent`, `code` and
  `final_answer`.
- It runs the blocks of the latest message in one persistent sandbox session.
  Running stops at the first failing block, and all reports are combined into
  one human message that carries the executions as metadata.
- At the end, it recovers the user's question from the history and asks the
  model to answer it.

**The sub-agent registry and the `task` tool of `src/deepagents/sub_agent.py`.**
`_create_task_tool` builds a name→tool map and an insertion-ordered
name→agent map:

- `"general-purpose"` comes first.
- Each `SubAgent` descriptor follows. A later descriptor with the same name
  replaces the earlier entry.
- A tool name missing from the map raises `KeyError`.

`task` validates the requested agent name:

- For an unknown name it returns an error string listing the registered names.
- For a known name it replaces the state's messages with the task
  description, runs the agent, and returns the agent's files and one tool
  message correlated with the call.

Modules:

- `Wrappers` (`wrappers.dfy`): `Option` and `Result`.
- `Text` (`text.dfy`):
  - `"sep".join`.
  - Decimal rendering of the block index in the f-strings, with its round trip.
  - The part of Python's `repr` of a `str` and a `list` that the error text of
    `task` uses.
- `Fence` (`fence.dfy`): the `re.findall` scan for the one fixed pattern. It is
  hand-written, and stated against an independent reading of the pattern
  (`MatchStartsAt`, `HasMatch`).
- `Repl` (`repl.dfy`):
  - The messages and execution records.
  - `extract_text_from_results` and `extract_images_from_results`.
  - The report texts.
  - The `execute_code` loop over a `Sandbox` class whose session history grows
    as blocks run.
  - The `final_answer` selection loop.
  - The graph transition function.
- `SubAgents` (`subagent.dfy`):
  - The descriptor and the registry. The registry is a map plus the insertion
    order of its keys, which Python dicts keep and the error text exposes.
  - The construction loops.
  - The `task` method, which writes to a `State` object.

Both the language model and the sandbox's interpreter are functions passed in
as parameters. The interpreter sees the code the session has already run and
the new block.

**Which question `final_answer` recovers.** The loop in `final_answer` walks
the history in reverse. It assigns `question` at every human message without
execution metadata and never leaves the loop early
(`examples/research/repl.py:81-83`). So the last assignment wins, and the last
one made in a reverse walk is the *earliest* such message in the history. The
model states exactly that: `Repl.SelectQuestion` and
`Repl.EarliestQuestionWins`. In the usual history, only the user's opening
message is a human message without metadata, so it is the one recovered
(`Repl.QuestionSurvivesRounds`).

## Model

| member | source | states |
|---|---|---|
| Fence.FindFrom | examples/research/repl.py:48 | The position found is an occurrence of the pattern at or after the start, and no earlier occurrence exists; None means no occurrence at all |
| Fence.MatchAt | examples/research/repl.py:48 | A match is reported at p exactly when the opener sits at p and a closer starts after at least one captured character; the reported closer is the first such one (non-greedy `.+?` under DOTALL) |
| Fence.Spans | examples/research/repl.py:57 | The findall scan reports only real matches at or after its start, in source order and without overlap (each next match starts after the previous closer) |
| Fence.SpansSkipNoMatch | examples/research/repl.py:95 | The scan misses nothing: in every stretch it skipped, before the first match, between two matches and after the last, no match can start |
| Fence.SkipAfterMatch | examples/research/repl.py:95 | After a match the scan resumes past its closer and still misses nothing |
| Fence.SkipPastNoMatch | examples/research/repl.py:95 | Where no match starts, the scan advances one character and still misses nothing |
| Fence.Captures | examples/research/repl.py:95 | One captured group per match, so findall returns as many blocks as there are matches; `Fence.CapturesAt` states each group's text |
| Fence.CapturesAt | examples/research/repl.py:95 | The i-th captured group is exactly the text between the i-th match's opener and its closer |
| Fence.CaptureUnclosed | examples/research/repl.py:48 | What one match captures is non-empty and holds no closer after its first character |
| Fence.BlocksAreNonEmptyAndUnclosed | examples/research/repl.py:48 | Every extracted block is non-empty and contains no closing fence, except one that starts at its first character |
| Fence.HasBlocksIff | examples/research/repl.py:57 | findall returns a non-empty list exactly when the pattern can match somewhere in the text |
| Fence.ExampleOneBlock | examples/research/repl.py:48 | A single closed fence around "A" yields exactly the block "A" |
| Fence.ExampleEmpty | examples/research/repl.py:48 | An empty fence yields no block, since `.+?` needs one character |
| Fence.Blocks | examples/research/repl.py:57 | The findall result: the captures of the scan from position 0. `Fence.CapturesAt`, `Fence.SpansSkipNoMatch`, `Fence.BlocksAreNonEmptyAndUnclosed` and `Fence.HasBlocksIff` state what it holds |
| Repl.Texts | examples/research/repl.py:65 | The kept texts are all non-empty, and the list is empty exactly when no result has a non-empty text; `Repl.TextsSnoc` fixes which texts are kept |
| Repl.TextsAppend | examples/research/repl.py:65 | Filtering texts distributes over concatenation, so the texts keep the order of the results |
| Repl.TextsSnoc | examples/research/repl.py:65 | Appending one result appends its own `text` exactly when that text is non-empty; with `Texts([]) == []` every kept string is a result's text, in result order |
| Repl.ExtractText | examples/research/repl.py:63-65 | The joined text is empty exactly when no result has a non-empty text |
| Repl.ExtractTextAppend | examples/research/repl.py:63-65 | The text of two concatenated result lists is their two texts joined by a newline when both are non-empty, otherwise the non-empty one |
| Repl.ExtractTextSnoc | examples/research/repl.py:63-65 | Appending one result with a non-empty text adds that text, after a newline when the text so far is non-empty; a result without text changes nothing |
| Repl.ChartNotes | examples/research/repl.py:70 | Every emitted line is the fixed chart placeholder; `Repl.ChartNotesCount` states there is one per chart |
| Repl.ChartNotesAppend | examples/research/repl.py:70 | Placeholder lines distribute over concatenation of result lists |
| Repl.ChartNotesSnoc | examples/research/repl.py:70 | Appending one result adds exactly one placeholder line when it has a chart, and none otherwise |
| Repl.ChartNotesCount | examples/research/repl.py:70 | The number of placeholder lines equals the number of results that have a chart |
| Repl.ExtractImages | examples/research/repl.py:68-70 | The chart text is empty exactly when no result has a chart |
| Repl.ExtractImagesSnoc | examples/research/repl.py:68-70 | Appending a result with a chart adds one placeholder line, after a newline when the text so far is non-empty; a result without a chart changes nothing |
| Repl.ChartNotesEmpty | examples/research/repl.py:70 | No placeholder line is emitted exactly when no result has a chart |
| Repl.ChartNotesSame | examples/research/repl.py:70 | Placeholder lines depend only on which results have a chart |
| Repl.ImagesIgnoreContent | examples/research/repl.py:68-70 | Chart data never reaches the message: results with charts at the same places give the same text, whatever the charts hold |
| Text.NatToStringRoundTrip | examples/research/repl.py:110 | The decimal rendering of the block index reads back as the same number |
| Text.NatToString | examples/research/repl.py:110 | `str(index)`: a non-empty string of decimal digits; `Text.NatToStringRoundTrip` states that it reads back as the index |
| Text.Join | examples/research/repl.py:65 | Python's `sep.join`; `Text.JoinAppend` and `Text.JoinOfNonEmptyParts` state how it behaves |
| Text.JoinAppend | examples/research/repl.py:65 | Joining two concatenated lists is joining each, with one separator between them when both are non-empty |
| Text.JoinOfNonEmptyParts | examples/research/repl.py:65 | A join of non-empty parts is empty exactly when there are no parts |
| Repl.SuccessReport | examples/research/repl.py:110-113 | The success f-string; `Repl.ReportHead` and `Repl.ReportNamesIndex` state that it starts with 'Р' and names its block index |
| Repl.ErrorReport | examples/research/repl.py:102-106 | The error f-string; `Repl.ReportHead` and `Repl.ReportNamesIndex` state that it starts with 'В' and names its block index |
| Repl.Report | examples/research/repl.py:101-113 | The error report when the execution has an error, otherwise the success report; `Repl.ReportsSnoc` states which one each execution gets |
| Repl.ReportHead | examples/research/repl.py:102-113 | An error report and a success report start with different characters |
| Repl.ReportNamesIndex | examples/research/repl.py:102-113 | A report determines its block index and whether it reports an error: equal reports have equal indices and the same kind |
| Repl.RunFrom | examples/research/repl.py:98-107 | From block k on, at most one execution per remaining block |
| Repl.RunFromSpec | examples/research/repl.py:98-107 | From block k on: each execution is block k+i run after all earlier blocks; all but the last succeeded; fewer executions than remaining blocks means the last failed |
| Repl.RunSpec | examples/research/repl.py:98-107 | Blocks run strictly in order, each in a session that has run every earlier block; every execution but the last succeeded; stopping early means the last one failed |
| Repl.Run | examples/research/repl.py:98-107 | The executions list of the loop: at most one execution per block; `Repl.RunSpec` and `Repl.RunUnique` state exactly which |
| Repl.RunStopsAtFirstFailure | examples/research/repl.py:98-107 | With the first failure at index k there are exactly k + 1 executions |
| Repl.RunUnique | examples/research/repl.py:98-107 | Run's contract determines it: any execution list meeting it equals Run |
| Repl.Reports | examples/research/repl.py:98-113 | One report per execution |
| Repl.ReportsAppend | examples/research/repl.py:98-113 | Appending an execution appends its report, indexed by its position |
| Repl.ReportsSnoc | examples/research/repl.py:101-113 | Appending an execution appends its error report (with its traceback) or its success report, indexed by its position |
| Repl.ReplyReports | examples/research/repl.py:98-114 | Every report but the last is a success report; the last is an error report carrying the failing traceback exactly when some block failed |
| Repl.NoBlocksEmptyReply | examples/research/repl.py:114-115 | With no block, the reply is a human message with empty content and an empty executions list |
| Repl.ExecutionReply | examples/research/repl.py:114 | The reply message: the reports joined by newlines, with the executions as metadata; `Repl.ReplyReports` and `Repl.NoBlocksEmptyReply` state its content |
| Repl.Sandbox.constructor | examples/research/repl.py:50 | A fresh sandbox session has run no code |
| Repl.Sandbox.RunCode | examples/research/repl.py:99 | Running a block returns the interpreter's outcome for the session so far and adds the block to the session |
| Repl.RunStep | examples/research/repl.py:99-107 | Running the next block either ends the turn's executions on an error or leaves the rest to the following blocks |
| Repl.RunBlocks | examples/research/repl.py:98-113 | The loop's executions are Run of the blocks, its reports are the reports of those executions, and the session has run exactly the blocks that have an execution |
| Repl.ExecuteCode | examples/research/repl.py:92-115 | The reply is the human message of the reports of Run over the last message's blocks, with those executions as metadata; blocks after a failure never reach the session |
| Repl.FirstQuestionFrom | examples/research/repl.py:81-83 | The index found is the first human message without executions at or after k; None means none |
| Repl.Question | examples/research/repl.py:80-83 | The recovered question: the earliest human message without executions, or ""; `Repl.SelectQuestion` proves the reverse loop computes it |
| Repl.SelectQuestion | examples/research/repl.py:80-83 | The reverse loop ends with the content of the earliest human message without executions, or "" if there is none |
| Repl.QuestionStable | examples/research/repl.py:80-83 | Appending messages after a question, or appending only non-questions, does not change the recovered question |
| Repl.FirstQuestionIs | examples/research/repl.py:81-83 | A question with no question before it is the one selected |
| Repl.EarliestQuestionWins | examples/research/repl.py:81-83 | With two user questions, the earlier one is recovered |
| Repl.QuestionSurvivesRounds | examples/research/repl.py:80-83 | After rounds of code and execution replies, the original question is still recovered |
| Repl.AnswerPrompt | examples/research/repl.py:86 | The extra human message with the recovered question quoted in it; `Repl.FinalAnswer` states that it is appended to the history |
| Repl.FinalAnswer | examples/research/repl.py:79-89 | The model is asked once, with the whole history plus the request to answer the recovered question |
| Repl.RoutingIff | examples/research/repl.py:53-60 | The agent routes to code exactly when the pattern matches somewhere in the last message |
| Repl.ShouldContinue | examples/research/repl.py:53-60 | Routes to code or to final_answer from the last message's blocks; `Repl.RoutingIff` states when each is chosen |
| Repl.Successor | examples/research/repl.py:118-134 | The graph's transitions; `Repl.GraphShape` states the shape, including that the entry node agent is re-entered only from code |
| Repl.GraphShape | examples/research/repl.py:118-134 | Code is entered only from the agent and only with a block; final_answer only from the agent without one; code returns to the agent; only final_answer ends; the entry node agent is re-entered only from code |
| SubAgents.Put | src/deepagents/sub_agent.py:41-45 | Assigning a key keeps the registry's key order valid: an existing key keeps its position and a new key goes last |
| SubAgents.Convert | src/deepagents/sub_agent.py:32-33 | A plain function is wrapped as a tool, and a BaseTool is kept as it is |
| SubAgents.ToolsByNameKeys | src/deepagents/sub_agent.py:30-34 | The tool map's names are exactly the names of the given tools |
| SubAgents.ToolsByName | src/deepagents/sub_agent.py:30-34 | The tool map after the tool loop; `SubAgents.ToolsByNameKeys` and `SubAgents.ToolsByNameLastWins` state its keys and values |
| SubAgents.ToolMap | src/deepagents/sub_agent.py:30-34 | The first loop builds exactly the tool map, one assignment per tool in order |
| SubAgents.ToolsByNameLastWins | src/deepagents/sub_agent.py:30-34 | A name maps to the last tool carrying it |
| SubAgents.AllTools | src/deepagents/sub_agent.py:38-39 | A descriptor without "tools" receives the caller's whole tool list, in order |
| SubAgents.LookupToolsSpec | src/deepagents/sub_agent.py:37 | The lookup succeeds exactly when every name is in the map, and then yields the mapped tools in order; otherwise it fails on the first missing name |
| SubAgents.LookupTools | src/deepagents/sub_agent.py:37 | The comprehension over a descriptor's "tools"; `SubAgents.LookupToolsSpec` states when it fails and what it yields |
| SubAgents.Initial | src/deepagents/sub_agent.py:27-29 | Before any descriptor, the registry holds only "general-purpose", built from the instructions and all tools |
| SubAgents.AgentForSpec | src/deepagents/sub_agent.py:36-45 | A descriptor's entry fails exactly when its "tools" names a missing tool, even with a graph; otherwise it is the graph unchanged, or a fresh agent from its prompt with its tools (all tools when "tools" is absent) and the caller's schema |
| SubAgents.AgentFor | src/deepagents/sub_agent.py:36-45 | The entry one descriptor adds; `SubAgents.AgentForSpec` states when it fails and which entry it is |
| SubAgents.DescriptorEntry | src/deepagents/sub_agent.py:36-45 | The loop body's lookup-then-graph-check yields exactly the descriptor's entry, or the missing tool |
| SubAgents.RegisterStops | src/deepagents/sub_agent.py:37 | A descriptor that misses a tool ends registration with that failure |
| SubAgents.RegisterAdds | src/deepagents/sub_agent.py:40-45 | A descriptor that yields an entry is assigned under its name before the rest are processed |
| SubAgents.RegisterAll | src/deepagents/sub_agent.py:35-45 | The descriptor loop; `SubAgents.RegisterAllFails`, `RegisterAllOrder`, `RegisterAllKeys`, `RegisterAllUntouched` and `RegisterAllLastWins` state its result |
| SubAgents.RegisterAllFails | src/deepagents/sub_agent.py:35-45 | The descriptor loop fails exactly when some descriptor misses a tool, and the failure names such a tool |
| SubAgents.RegisterAllOrder | src/deepagents/sub_agent.py:35-45 | The loop keeps the key order valid and appends new names in first-occurrence order |
| SubAgents.RegisterAllKeys | src/deepagents/sub_agent.py:35-45 | The keys afterwards are the old keys plus every descriptor name |
| SubAgents.RegisterAllUntouched | src/deepagents/sub_agent.py:35-45 | A key that no descriptor names keeps its entry |
| SubAgents.RegisterAllLastWins | src/deepagents/sub_agent.py:35-45 | Each descriptor name maps to the entry of the last descriptor with that name |
| SubAgents.Listing | src/deepagents/sub_agent.py:47-49 | One "- name: description" entry per descriptor, in order |
| SubAgents.BuildTaskTool | src/deepagents/sub_agent.py:22-49 | Construction as a function; `SubAgents.BuildRegistry`, `BuildLastWins`, `BuildFails` and `BuildWithoutDescriptors` state its result, and `SubAgents.CreateTaskTool` proves the loops compute it |
| SubAgents.CreateTaskTool | src/deepagents/sub_agent.py:22-49 | The two loops build exactly the registry and listing of the construction function, or fail with the missing tool name |
| SubAgents.BuildRegistry | src/deepagents/sub_agent.py:27-49 | "general-purpose" is always registered first, then descriptor names in first-occurrence order; the keys are exactly "general-purpose" and the descriptor names; "general-purpose" keeps the default agent unless a descriptor reuses the name; the listing covers the descriptors only |
| SubAgents.BuildLastWins | src/deepagents/sub_agent.py:35-45 | Each descriptor name is bound to its last descriptor's entry, "general-purpose" included |
| SubAgents.AppendNewKeepsPrefix | src/deepagents/sub_agent.py:27-29 | Names registered first keep their positions |
| SubAgents.BuildFails | src/deepagents/sub_agent.py:30-41 | Construction fails exactly when a descriptor's "tools" names a tool absent from the given tools, whether or not it has a graph; the error names such a tool |
| SubAgents.BuildWithoutDescriptors | src/deepagents/sub_agent.py:22-49 | With no descriptors, construction never fails and registers only "general-purpose", with an empty listing |
| SubAgents.Backticked | src/deepagents/sub_agent.py:62 | Each registered key, in order, wrapped in backticks |
| Text.PlainRepr | src/deepagents/sub_agent.py:62 | A string without single quotes, backslashes, line breaks or tabs is rendered by repr verbatim between single quotes |
| Text.PyStrRepr | src/deepagents/sub_agent.py:62 | Python's `repr` of a string: the text between two equal quote characters; `Text.PlainRepr` states the plain case |
| Text.PyListRepr | src/deepagents/sub_agent.py:62 | Python's `repr` of a list of strings; `SubAgents.UnknownAgentErrorText` states the text it gives for the registry keys |
| SubAgents.UnknownAgentError | src/deepagents/sub_agent.py:62 | The error f-string of `task`; `SubAgents.UnknownAgentErrorText` states its text |
| SubAgents.UnknownAgentErrorText | src/deepagents/sub_agent.py:61-62 | For plain keys, the error text names the requested type and lists every registered key as '`key`', in registration order |
| SubAgents.DispatchOutcome | src/deepagents/sub_agent.py:61-75 | An unknown type, and only that, yields the error text; a known one yields the run's files (or an empty map) and exactly one tool message with the run's last message and the caller's tool-call id, or raises when the run has no messages |
| SubAgents.Dispatch | src/deepagents/sub_agent.py:61-75 | The value `task` returns; `SubAgents.DispatchOutcome` states each outcome |
| SubAgents.Task | src/deepagents/sub_agent.py:55-75 | An unknown type leaves the state untouched; a known one replaces the state's messages with the single user message holding the description, keeps its files, and hands that state to the agent |

## Left out

- The language model (GigaChat setup, `CODE_PROMPT | llm`, `call_model`) is not modelled: it is a network call. `final_answer`'s request is a parameter `model`, and the agent node's output is any message.
- The e2b sandbox is an oracle `behaviour(history, code)`. The interpreter's real state is represented only by the code the session has run. An exception raised by `sandbox.run_code` itself, such as a timeout, is not modelled: in the source it propagates out of `execute_code` and discards the partial `results` and `executions`.
- `execution.logs.stdout` is flattened into `Execution.stdout`. The rest of the e2b execution record is not modelled.
- `re.MULTILINE` has no effect on a pattern without `^` or `$`. General regular-expression matching is out of scope: only the one fixed pattern is modelled.
- `Repl.ExecuteCode` requires a non-empty message list, as does `Repl.ShouldContinue`. The source's `messages[-1]` raises on an empty list, and the graph always starts from the user's message.
- `Repl.RunBlocks`: the `for` loop of `execute_code` is a separate method from `Repl.ExecuteCode`, which extracts the blocks and builds the reply message. The behaviour is the same.
- `SubAgents.CreateTaskTool`: its first loop is the method `SubAgents.ToolMap` and the body of its second loop is the method `SubAgents.DescriptorEntry`. The behaviour is the same.
- The prompt prose, `TASK_DESCRIPTION_PREFIX`/`SUFFIX` and the `@tool(description=…)` decoration are not modelled: the prefix and suffix text is not part of this model. Only the descriptor listing that goes into the description is modelled.
- `create_custom_react_agent` and the `model` argument are not modelled: `src/deepagents/utils.py` is not part of this model. An agent built from a prompt and tools is a record of those inputs and the schema.
- Tools, graphs and schemas are opaque handles. `tool(...)` wrapping is a `Wrapped` marker, and the wrapped tool's name is taken to be the `name` given with the tool.
- Agent behaviour: `sub_agent.invoke` is an oracle from the agent, messages and files to a run result. An exception raised inside `sub_agent.invoke` is not modelled: in the source it propagates out of `task`, after the state's messages have been replaced.
- The framework's merge of the returned `"files"` update into the parent state is not modelled. Its reducer lives in `deepagents.state`, which is not part of this model.
- Only the `messages` and `files` keys of the agent state are modelled. Other keys of `DeepAgentState` are not part of this model.
- Exceptions are modelled as values. The construction `KeyError` is a `Failure` carrying the missing tool name. The `IndexError` on a run without messages is `Raised`.
- `Text.PyStrRepr` escapes only the backslash, the chosen quote, `\n`, `\r` and `\t`. Other non-printable characters, which Python renders as `\x`, `\u` or `\U` escapes, are kept as they are.
- Loading `.env` files and compiling the graph are not modelled. They are I/O and library behaviour.
