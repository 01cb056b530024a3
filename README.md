# ShardGuard core, modelled in Dafny

ShardGuard stands between a planning LLM, an execution LLM and four MCP tool servers.
In the system's own words:

- the planner breaks a user prompt into sub-prompts, and sensitive values are replaced by opaque placeholders;
- the planner's JSON is checked against a strict plan schema;
- for each sub-prompt, the execution LLM proposes tool intents, which are checked against the tool-intent schema and turned into tool calls without arguments it could have invented;
- the coordination service issues those calls over MCP and validates every result against the step's output schema.

Around this sit:

- a YAML-driven PII redactor, with pseudonymisation, masking and generic placeholders;
- a LangChain flavour of the step executor and its tool wrappers;
- a test harness that scores ShardGuard runs. It checks which tools were detected and whether the sensitive data ended up among the opaque values.

The Dafny project models the decision logic of all of these. Every collaborator that does I/O or is a foreign library is an abstract function-typed parameter:

- the JSON parser (`Parser`) and serializer (`Serializer`);
- the regular-expression searches;
- SHA-256;
- the LLM providers;
- the MCP transport and sessions (`Transport`);
- the `jsonschema` library, for output schemas (`SchemaCheck`);
- the subprocess that runs ShardGuard inside the test harness.

Python values are a small JSON datatype (`Json.Json`). A dict is kept as an ordered association list, and `Get` finds the last binding of a key. Exceptions are data (`Common.Exception`), and an operation that can raise returns `Result`. Asynchronous methods are modelled as sequential ones.

One module per source file:

- `Validator`, `Models`, `Schemas`, `Execution`, `LangchainExecutor` (execution_langChain.py), `LangchainTools` (execution_langchain.py), `McpIntegration`, `Planning`, `Coordination`, `Redaction` and `TestFramework` — one for each source file;
- `Common`, which holds Python's string operations (`find`, `rfind`, slicing, `strip`, `split`, `upper`/`lower`);
- `Json`, which holds dict access.

Where the source mutates state, the model is imperative:

- `Redaction.Redactor` owns its pseudonym map;
- `LangchainTools.Scope` is the closure cell that the wrapped tools share;
- `Coordination.CoordinationService` records the tool requests it issues;
- `TestFramework.ShardGuardTester` owns its test cases and results.

Loops are methods with invariants, proved against specification functions, and the properties of the system are lemmas about those functions.

## Model

| member | source | states |
|---|---|---|
| Common.StripEnds | src/shardguard/core/execution_langChain.py:72 | `str.strip()` leaves a part of the text that neither starts nor ends with whitespace |
| Common.StripSplits | src/shardguard/core/execution_langChain.py:72 | `str.strip()` only removes whitespace: the text is leading whitespace, the result, and trailing whitespace |
| Common.FirstLine | src/shardguard/test_framework.py:255 | `split('\n')[0]`: the text up to the first newline, which is a prefix of the text and holds no newline |
| Validator.ValidateOutput | src/shardguard/utils/validator.py:4-14 | a falsy schema returns without checking; output that satisfies the schema returns nothing; a violation raises `RuntimeError` with `where + " output failed schema validation: " + message`; any other failure of the check propagates unchanged |
| Validator.ValidateOutputPasses | src/shardguard/utils/validator.py:9-12 | nothing is raised exactly when the schema is falsy or the output is valid |
| Validator.ValidateOutputRaises | src/shardguard/utils/validator.py:11-14 | a raise implies a truthy schema and either a violation or an exception of the check itself |
| Models.IntOf | src/shardguard/core/models.py:5 | an `int` field accepts a JSON integer as itself; anything else accepted is a boolean or a float with an integral value |
| Models.StringMapOf | src/shardguard/core/models.py:7 | `Dict[str, str]` accepts exactly an object whose values are all strings, binding for binding |
| Models.StringMapToJson | src/shardguard/core/models.py:7 | a string map dumps to an object with the same bindings in order |
| Models.SubPromptToJson | src/shardguard/core/models.py:4-7 | the dump of a sub-prompt holds its `id`, `content` and `opaque_values` |
| Models.SubPromptsFromJson | src/shardguard/core/models.py:12 | a list of sub-prompts validates exactly when every item does, item by item |
| Models.PlanToJson | src/shardguard/core/models.py:10-12 | the dump of a plan holds `original_prompt` and one dumped item per sub-prompt |
| Models.SubPromptRoundTrip | src/shardguard/core/models.py:4-7 | validating a dumped sub-prompt gives it back |
| Models.PlanRoundTrip | src/shardguard/core/models.py:10-12 | validating a dumped plan gives it back |
| Models.SubPromptRequiresIdAndContent | src/shardguard/core/models.py:5-6 | an object without `id` or without `content` is not a sub-prompt |
| Models.OpaqueValuesDefault | src/shardguard/core/models.py:7 | `opaque_values` defaults to the empty map |
| Models.UndeclaredKeyIgnored | src/shardguard/core/models.py:4-7 | a key the model does not declare (such as `suggested_tools`) changes nothing |
| Models.PlanRequiredFields | src/shardguard/core/models.py:10-12 | a plan needs both `original_prompt` and `sub_prompts`, and an empty `sub_prompts` list is accepted |
| Schemas.NonEmptyStringSchemaMeaning | src/shardguard/core/schemas.py:34-35 | the `{"type": "string", "minLength": 1}` schema accepts exactly the non-empty strings |
| Schemas.IntentBindingMeaning | src/shardguard/core/schemas.py:33-38 | a binding of an intent is `server`/`tool` with a non-empty string, `args` with an object, and nothing else |
| Schemas.IntentSchemaMeaning | src/shardguard/core/schemas.py:30-39 | the item schema, evaluated by its keywords, accepts exactly the objects with `server` and `tool`, the declared field types, and no other key |
| Schemas.ToolIntentsSchemaMeaning | src/shardguard/core/schemas.py:28-40 | `TOOL_INTENTS_SCHEMA` accepts exactly the arrays whose every item is a tool intent |
| Schemas.IdSchemaMeaning | src/shardguard/core/schemas.py:74-78 | `id` is an integer (an integral number) that is at least 1 |
| Schemas.OpaqueValuesSchemaMeaning | src/shardguard/core/schemas.py:84-91 | `opaque_values` is an object in which every key that contains a `[[P<digits>]]` placeholder maps to a string |
| Schemas.SuggestedToolsSchemaMeaning | src/shardguard/core/schemas.py:92-101 | `suggested_tools` is an array of non-empty strings; `minLength` on the array itself has no effect |
| Schemas.SubPromptSchemaMeaning | src/shardguard/core/schemas.py:70-104 | a sub-prompt item is an object with `id`, `content` and `suggested_tools`; every declared field that is present, `opaque_values` included, meets its schema; other keys are allowed, because `additionalProperties` is `{}` |
| Schemas.SubPromptsSchemaMeaning | src/shardguard/core/schemas.py:68-107 | `sub_prompts` is an array with at least one item, each a valid sub-prompt |
| Schemas.PlanningSchemaMeaning | src/shardguard/core/schemas.py:59-110 | `PLANNING_LLM_SCHEMA` accepts exactly the objects with a non-empty `original_prompt` and valid `sub_prompts`; other keys are allowed |
| Schemas.EmptyIntentArrayValid | src/shardguard/core/schemas.py:28-31 | the empty array is a valid intent list |
| Schemas.ExtraKeyRejectsArray | src/shardguard/core/schemas.py:38 | one item with a key other than `server`, `tool` or `args` rejects the whole array |
| Schemas.MissingKeyRejectsArray | src/shardguard/core/schemas.py:32 | one item without `server` or without `tool` rejects the whole array |
| Schemas.BadFieldRejectsArray | src/shardguard/core/schemas.py:34-36 | an empty or non-string `server`/`tool`, or an `args` that is not an object, rejects the whole array |
| Schemas.ArgsOptional | src/shardguard/core/schemas.py:32-36 | an intent with only `server` and `tool` is valid |
| Schemas.EmptySubPromptsRejected | src/shardguard/core/schemas.py:105 | a plan whose `sub_prompts` is empty is rejected |
| Schemas.EmptySuggestedToolsAccepted | src/shardguard/core/schemas.py:92-101 | a plan whose sub-prompt has an empty `suggested_tools` array is accepted |
| Schemas.PlaceholderSearchUnanchored | src/shardguard/core/schemas.py:87 | the placeholder pattern is searched for, not anchored: `"ref [[P12]] x"` matches and `"[[P]]"` does not |
| Schemas.PlaceholderUnicodeDigits | src/shardguard/core/schemas.py:87 | `\d` in the placeholder pattern is any Unicode decimal digit: `"[[P\u0663]]"` and the fullwidth `"[[P\uFF11\uFF12]]"` are placeholders |
| Schemas.OpaqueValuesRule | src/shardguard/core/schemas.py:84-91 | a placeholder key with a non-string value rejects `opaque_values`; a key without a placeholder is unconstrained |
| Execution.TaskText | src/shardguard/core/execution.py:56 | `task or ''`: a falsy task gives the empty text, and a string task is itself |
| Execution.BuildExecPromptLayout | src/shardguard/core/execution.py:50-59 | the prompt opens with the system prompt and `"\n\nTask:\n"`, the task text follows at once, and the fixed trailer ends it; a falsy context gives the same prompt as `{}` |
| Execution.FirstMatchLeftmost | src/shardguard/core/execution.py:77-79 | the search from a position finds the leftmost match start at or after it, cut at the first closing after its `{`, or reports that no later position starts one |
| Execution.ArraySpanAbsent | src/shardguard/core/execution.py:77-79 | the fallback span is absent exactly when no position starts a `[ {...} ]` match |
| Execution.ArraySpanIsLeftmostShortest | src/shardguard/core/execution.py:77-79 | the span found runs from the leftmost match start to its first possible end (the lazy `.*?`) |
| Execution.ArraySpanBrackets | src/shardguard/core/execution.py:77-79 | the span found runs from a `[` to a `]` and is at least four characters long |
| Execution.ExtractJsonArray | src/shardguard/core/execution.py:61-86 | a non-string raises `ValueError`; every list returned satisfies `TOOL_INTENTS_SCHEMA` |
| Execution.ExtractJsonArrayStages | src/shardguard/core/execution.py:69-86 | a direct parse that is a valid intent list is returned as is; otherwise the fallback span is parsed and validated, with its errors propagating; with no span the result is `[]` |
| Execution.ExtractStringNoValueError | src/shardguard/core/execution.py:66-67 | the `ValueError` arises only for non-string input |
| Execution.ProposeToolIntents | src/shardguard/core/execution.py:118-134 | never raises, always gives a valid intent list, and gives `[]` when the provider raises |
| Execution.ProposeToolIntentsReads | src/shardguard/core/execution.py:127-134 | a string reply is extracted as it is, a non-string reply is extracted from its dump, and an extraction error gives `[]` |
| Execution.IntentToCall | src/shardguard/core/execution.py:160 | a tool call copies `server` and `tool`, and `args` is `it.get("args")`, absent when the intent has none |
| Execution.StepContext | src/shardguard/core/execution.py:150 | `step.get("nonsecret_context") or {}` is truthy or the empty object |
| Execution.RunStep | src/shardguard/core/execution.py:146-163 | exactly one tool call per proposed intent, in order, with the content defaulting to `""` |
| Execution.ToolCallsOf | src/shardguard/core/execution.py:158-161 | one tool call per valid intent, in order, each the call that intent describes |
| LangchainExecutor.Lookup | src/shardguard/core/execution_langChain.py:52-54 | `.get` finds a binding of the key, or `None` when the key is absent |
| LangchainExecutor.SpecListChoice | src/shardguard/core/execution_langChain.py:51-61 | `suggested_tools` is used when truthy, else `calls` when truthy, else `[]`; whichever is chosen, a list gives its items, a mapping, string or object is wrapped into a list, and any other value raises ValueError |
| LangchainExecutor.SpecCallRejects | src/shardguard/core/execution_langChain.py:69-82 | a spec is rejected exactly when it is a string with no dot after stripping, or neither a string, a mapping nor an object |
| LangchainExecutor.StringSpecSplit | src/shardguard/core/execution_langChain.py:69-73 | a string spec is stripped and split at its first dot: the server has no dot and server + "." + tool is the stripped text |
| LangchainExecutor.CallsFrom | src/shardguard/core/execution_langChain.py:65-84 | a successful conversion gives one call per spec, each the spec's own conversion |
| LangchainExecutor.InvokeOnePerSpec | src/shardguard/core/execution_langChain.py:65-86 | `invoke` succeeds exactly when every spec converts, and then gives exactly one call per spec, in order |
| LangchainExecutor.IndexByNameKeys | src/shardguard/core/execution_langChain.py:42 | the tool index holds exactly the names of the given tools |
| LangchainExecutor.IndexByNameLast | src/shardguard/core/execution_langChain.py:42 | under each name sits the last tool carrying it |
| LangchainExecutor.LangchainStepExecutor.constructor | src/shardguard/core/execution_langChain.py:37-42 | the given tools indexed by name, or no tools at all |
| LangchainExecutor.LangchainStepExecutor.Invoke | src/shardguard/core/execution_langChain.py:44-86 | the loop over the specs returns exactly the response (or the first error) of the specification |
| LangchainExecutor.CallsFromOk | src/shardguard/core/execution_langChain.py:65-84 | the conversion succeeds exactly when every spec does |
| LangchainExecutor.CallsFirstError | src/shardguard/core/execution_langChain.py:81-82 | the first failing spec decides the error |
| LangchainExecutor.CallsAllOk | src/shardguard/core/execution_langChain.py:84 | calls that match every spec are the conversion's result |
| LangchainTools.Scope.constructor | src/shardguard/core/execution_langchain.py:47-53 | the closure cell starts out empty |
| LangchainTools.EntryParts | src/shardguard/core/execution_langchain.py:50-53 | an entry with a dot splits at the first dot, with a dot-free server; an entry without one is a tool of `unknown-server` |
| LangchainTools.Report | src/shardguard/core/execution_langchain.py:60-64 | the function's dict has three entries: `server`, `tool` and the keyword arguments under `args` |
| LangchainTools.ReportKeys | src/shardguard/core/execution_langchain.py:60-64 | the dict has no key besides `server`, `tool` and `args` |
| LangchainTools.CallTool | src/shardguard/core/execution_langchain.py:60-64 | a tool's function reports the server and tool that the shared cell holds when it is called |
| LangchainTools.ToolsWrapper | src/shardguard/core/execution_langchain.py:43-68 | one tool per entry, in order, named after the entry's tool part, with an empty description; all share one cell, so every function reports the last entry's server and tool |
| LangchainTools.Bind | src/shardguard/core/execution_langchain.py:49-66 | one turn of the loop: the shared cell holds the entry's server and tool, and the new tool, named after the tool part, reads that cell |
| LangchainTools.MakeLangchainTools | src/shardguard/core/execution_langchain.py:90-95 | returns its argument unchanged |
| LangchainTools.EntryPartsDotted | src/shardguard/core/execution_langchain.py:49-51 | `complex-server.sub.read-file` names tool `sub.read-file` of `complex-server`: the split is at the first dot only |
| LangchainTools.EntryPartsBare | src/shardguard/core/execution_langchain.py:52-53 | `read-file`, which has no dot, names tool `read-file` of `unknown-server` |
| McpIntegration.ServerConfigs | src/shardguard/core/mcp_integration.py:20-49 | four servers, in configuration order, each started by the interpreter |
| McpIntegration.ConfigOf | src/shardguard/core/mcp_integration.py:53-57 | a configuration is found exactly when the name is configured, and it is that name's one |
| McpIntegration.Texts | src/shardguard/core/mcp_integration.py:109-111 | the texts of the items that have one, none when no item has text, all of them when every item has text |
| McpIntegration.ContentText | src/shardguard/core/mcp_integration.py:104-112 | empty content gives the no-content sentinel; content without text items gives `""`; a single text item gives its text |
| Json.Display | src/shardguard/core/mcp_integration.py:143-147 | a string prints as itself inside an f-string, as the property descriptions and the redaction kinds do |
| McpIntegration.InRequired | src/shardguard/core/mcp_integration.py:140-142 | `prop in required` is list membership for an array and key membership for an object; it raises exactly for a value that is not an array, object or string |
| McpIntegration.PropLine | src/shardguard/core/mcp_integration.py:139-148 | a property line succeeds exactly when the membership test does and the property info is an object; it holds the name, the description or `No description`, and ` (required)` when required |
| McpIntegration.SchemaLines | src/shardguard/core/mcp_integration.py:135-148 | a schema that is not an object with `properties` adds no lines |
| McpIntegration.ToolText | src/shardguard/core/mcp_integration.py:132-148 | the tool's bullet line, `"  • name: description\n"`, followed by its property lines |
| McpIntegration.ServerSection | src/shardguard/core/mcp_integration.py:125-150 | a server without tools adds nothing; otherwise its heading, its tool lines and a blank line |
| McpIntegration.NoToolsSentence | src/shardguard/core/mcp_integration.py:120-121 | the description is `No MCP tools available.` exactly when no server lists a tool |
| McpIntegration.DescriptionMentionsServers | src/shardguard/core/mcp_integration.py:123-153 | a full description opens with the header and contains the section of every server that lists tools |
| McpIntegration.ToolLines | src/shardguard/core/mcp_integration.py:131-148 | the loop over the tools builds exactly the specified lines |
| McpIntegration.ToolLine | src/shardguard/core/mcp_integration.py:132-148 | one tool's lines, built step by step, are the specified text |
| McpIntegration.PropertyLine | src/shardguard/core/mcp_integration.py:140-148 | the body of the property loop gives the line `PropLine` specifies, or its exception |
| McpIntegration.PropertyLines | src/shardguard/core/mcp_integration.py:139-148 | the loop over the properties builds exactly the specified lines |
| McpIntegration.DescribeListed | src/shardguard/core/mcp_integration.py:118-153 | the nested loops build exactly the specified description |
| McpIntegration.McpClient.ExecuteWithServer | src/shardguard/core/mcp_integration.py:51-78 | an unconfigured server gives `None` with no connection; otherwise the operation's result, or `None` when connecting or the operation raises |
| McpIntegration.McpClient.ToolsOf | src/shardguard/core/mcp_integration.py:51-95 | `tools or []`: an unconfigured server, one whose connection fails and one whose `list_tools` raises all list no tools; otherwise the session's own tool list |
| McpIntegration.McpClient.ServersToCheck | src/shardguard/core/mcp_integration.py:84-86 | a non-empty name is checked alone; otherwise every configured server, in order |
| McpIntegration.McpClient.ListToolsSpec | src/shardguard/core/mcp_integration.py:80-97 | every checked server, in order, with its tools |
| McpIntegration.McpClient.ListTools | src/shardguard/core/mcp_integration.py:82-97 | the loop fills exactly the specified table |
| McpIntegration.McpClient.CallTool | src/shardguard/core/mcp_integration.py:99-114 | `None` for an unconfigured or failing server; otherwise the content text of the call's result |
| McpIntegration.McpClient.GetToolsDescription | src/shardguard/core/mcp_integration.py:116-153 | the description of the tools that every server lists |
| McpIntegration.McpClient.AvailableServers | src/shardguard/core/mcp_integration.py:155-159 | each configured server with its description, in order |
| McpIntegration.NewMcpClient | src/shardguard/core/mcp_integration.py:20-49 | a client configured for the four servers |
| McpIntegration.ServerNamesDistinct | src/shardguard/core/mcp_integration.py:28-49 | the four configured names are distinct |
| McpIntegration.UnconfiguredServer | src/shardguard/core/mcp_integration.py:53-54 | a name outside the four has no configuration |
| McpIntegration.ConfiguredServers | src/shardguard/core/mcp_integration.py:28-49 | each of the four servers is described by its own fixed sentence |
| McpIntegration.BraceSpan | src/shardguard/core/mcp_integration.py:303-308 | the greedy dot-all `\{.*\}` match runs from the first `{` to the last `}` after it |
| McpIntegration.ExtractJsonFromResponse | src/shardguard/core/mcp_integration.py:298-318 | the brace span when it parses, else the response unchanged |
| McpIntegration.ExtractedSpan | src/shardguard/core/mcp_integration.py:303-313 | what comes out changed starts with `{` and ends with `}`, occurs in the response with no `{` before it, and parses |
| McpIntegration.ExtractWholeObject | src/shardguard/core/mcp_integration.py:303-313 | a response that is exactly a parseable object comes back unchanged |
| McpIntegration.BraceSpanWhole | src/shardguard/core/mcp_integration.py:303-304 | a text bracketed by braces is its own span |
| McpIntegration.ExtractIdempotent | src/shardguard/core/mcp_integration.py:298-318 | extracting twice gives what extracting once gives |
| McpIntegration.FallbackPlan | src/shardguard/core/mcp_integration.py:249-261 | the fallback holds the prompt as `original_prompt` and one sub-prompt |
| McpIntegration.FallbackStepParses | src/shardguard/core/mcp_integration.py:253-258 | the fallback sub-prompt has id 1, the given content, and no opaque values |
| McpIntegration.FallbackStepValid | src/shardguard/core/mcp_integration.py:253-258 | the fallback sub-prompt passes the schema exactly when its content is non-empty |
| McpIntegration.FallbackPlanParses | src/shardguard/core/mcp_integration.py:249-261 | the fallback validates as a one-step plan |
| McpIntegration.FallbackPlanValid | src/shardguard/core/mcp_integration.py:249-261 | the fallback passes the planning schema exactly when the prompt and the content are non-empty |
| McpIntegration.EnhancedPrompt | src/shardguard/core/mcp_integration.py:233-236 | the asynchronous planner adds the description unless it equals the no-tools sentence; the synchronous one (lines 268-271) adds it unless it contains `No MCP tools available` |
| McpIntegration.EnhancedPromptVariants | src/shardguard/core/mcp_integration.py:233-236 | the two tests agree unless a tool's text mentions the sentence's words |
| McpIntegration.PlanReply | src/shardguard/core/mcp_integration.py:241-261 | a reply is passed through the extractor; a provider exception gives the fallback with `Error occurred: ` and its message |
| McpIntegration.ProviderKwargs | src/shardguard/core/mcp_integration.py:180-184 | the base URL for `ollama`, the API key for `gemini`, in any case, and nothing otherwise |
| McpIntegration.McpPlanningLlm.constructor | src/shardguard/core/mcp_integration.py:165-188 | the settings as given, the provider arguments for the provider type, and a client for the four servers |
| McpIntegration.McpPlanningLlm.GeneratePlan | src/shardguard/core/mcp_integration.py:228-261 | a failure to describe the tools propagates; otherwise the reply to the enhanced prompt, extracted or replaced by the fallback |
| McpIntegration.McpPlanningLlm.ToolsDescriptionSync | src/shardguard/core/mcp_integration.py:202-216 | the fixed mock description inside a running event loop, otherwise the client's description |
| McpIntegration.McpPlanningLlm.GeneratePlanSync | src/shardguard/core/mcp_integration.py:263-296 | the same, with the mock description inside a running loop and the containment test on the description |
| Planning.ParseFailure | src/shardguard/core/planning.py:36-48 | the fallback quotes at most the first 100 characters of the response in its content |
| Planning.PlanningLlm.constructor | src/shardguard/core/planning.py:13-19 | an Ollama implementation with the given model and base URL, and those exposed as attributes |
| Planning.PlanningLlm.GeneratePlan | src/shardguard/core/planning.py:21-23 | exactly what the implementation's synchronous `generate_plan_sync` returns |
| Planning.PlanningLlm.AvailableToolsDescription | src/shardguard/core/planning.py:25-27 | exactly the implementation's synchronous description |
| Planning.PlanningLlm.ExtractJsonFromResponse | src/shardguard/core/planning.py:29-49 | when the delegate changes the response its result is returned, and it parses; when it gives the response back, the dumped fallback is returned instead |
| Planning.ExactObjectFallsBack | src/shardguard/core/planning.py:31-33 | a response that is exactly a valid JSON object still gets the fallback |
| Planning.SurroundedObjectExtracted | src/shardguard/core/planning.py:31-49 | the object is extracted from text around it that has no braces |
| Planning.ParseFailureMeaning | src/shardguard/core/planning.py:36-48 | the fallback is a one-step plan with id 1 quoting the response, and it passes the planning schema exactly when the response is non-empty |
| Redaction.FlagValue | src/shardguard/utils/redaction.py:10-15 | `FLAG_MAP.get(name.upper(), 0)`: one of the four flags, and non-zero exactly for their names, in any case |
| Redaction.FlagsOfAppend | src/shardguard/utils/redaction.py:37-39 | the OR of the flags distributes over concatenation, so their order does not matter |
| Redaction.FlagsWithinKnown | src/shardguard/utils/redaction.py:37-39 | only the four known flags can be set, and each name's flag is included |
| Redaction.FlagNames | src/shardguard/utils/redaction.py:34-36 | a single flag string is a one-element list; a list gives its names |
| Redaction.SingleFlagIsList | src/shardguard/utils/redaction.py:35-36 | a single flag name and the one-element list of it give the same names |
| Redaction.FoldFlags | src/shardguard/utils/redaction.py:37-39 | the loop computes the OR of the flags |
| Redaction.EntryRule | src/shardguard/utils/redaction.py:31-44 | a missing `name` raises `KeyError('name')`, then a missing `pattern` raises `KeyError('pattern')`; a rule keeps the name, takes its kind from `kind` or else the name, and compiles the pattern with the folded flags |
| Redaction.EntriesRules | src/shardguard/utils/redaction.py:29-45 | one rule per entry, in order, each the entry's own rule |
| Redaction.EntriesRulesFirstError | src/shardguard/utils/redaction.py:30-44 | loading fails with the error of the first entry that fails |
| Redaction.NoRulesKey | src/shardguard/utils/redaction.py:30 | a configuration without `rules` loads no rules |
| Redaction.LoadRules | src/shardguard/utils/redaction.py:26-45 | the loops over the entries and the flag names give exactly the specified rules |
| Redaction.LoadedRules | src/shardguard/utils/redaction.py:29-45 | rules that match every entry are the loaded rules |
| Redaction.Hash | src/shardguard/utils/redaction.py:47-48 | the first 12 characters of the hex digest |
| Redaction.Token | src/shardguard/utils/redaction.py:53 | a fresh token `<KIND:hash>` is 15 characters longer than its kind when the digest is a hex digest |
| Redaction.MaskMeaning | src/shardguard/utils/redaction.py:56-60 | for every `mask_keep`: a value no longer than it becomes as many asterisks; with `1 <= k < len` the last `k` characters are kept and the length too; with `k = 0` the asterisks are followed by the whole value, which leaks; with `k < 0` the mask is longer than the value and ends with its tail from index `-k` |
| Redaction.PseudoStep | src/shardguard/utils/redaction.py:50-54 | a known key `kind|value` returns its stored token and leaves the map alone; a new key stores and returns a fresh token; a non-string kind raises because of `upper()` |
| Redaction.PseudoStepGrows | src/shardguard/utils/redaction.py:51-53 | the map only grows by at most the one key, existing tokens never change, and the token returned is the one stored |
| Redaction.PseudoStepMemoised | src/shardguard/utils/redaction.py:52-54 | asking again gives the identical token and the same map |
| Redaction.PseudoKeyCollision | src/shardguard/utils/redaction.py:51 | kind `a|b` with value `c` and kind `a` with value `b|c` share one key and so one token |
| Redaction.ReplaceStep | src/shardguard/utils/redaction.py:62-68 | `pseudonymize` gives the pseudonym, `mask` the mask, any other strategy `<REDACTED:kind>` with the kind not upper-cased |
| Redaction.ReplaceStepGrows | src/shardguard/utils/redaction.py:62-68 | no strategy forgets or changes a pseudonym |
| Redaction.RedactRulesAppend | src/shardguard/utils/redaction.py:71-75 | the last rule runs on the output of all the rules before it |
| Redaction.SubFromGrows | src/shardguard/utils/redaction.py:74 | a substitution keeps every pseudonym |
| Redaction.RedactGrows | src/shardguard/utils/redaction.py:70-75 | redaction never forgets or changes a pseudonym, so tokens stay the same across calls |
| Redaction.RedactNoRules | src/shardguard/utils/redaction.py:70-75 | with no rules the text comes back unchanged |
| Redaction.RedactNoMatches | src/shardguard/utils/redaction.py:70-75 | when no pattern matches, the text and the map come back unchanged |
| Redaction.GenericSubKeepsMap | src/shardguard/utils/redaction.py:67-68 | under the generic strategy a substitution succeeds and leaves the map untouched |
| Redaction.Redactor.constructor | src/shardguard/utils/redaction.py:19-24 | the settings and rules as given, and an empty pseudonym map |
| Redaction.NewRedactor | src/shardguard/utils/redaction.py:19-45 | `__init__` with `strategy="pseudonymize"` and `mask_keep=4` by default: the rules are exactly what `_load_rules` gives for the file's document, and a load error (a missing `name` or `pattern`, a non-string flag, a pattern that does not compile) escapes the constructor |
| Redaction.Redactor.Pseudonymize | src/shardguard/utils/redaction.py:50-54 | the result and the new map are those of the pseudonym step on the old map |
| Redaction.Redactor.Replace | src/shardguard/utils/redaction.py:62-68 | the result and the new map are those of the replace step on the old map |
| Redaction.Redactor.Sub | src/shardguard/utils/redaction.py:74 | one rule applied across the matches, left to right, keeping the text between them |
| Redaction.Redactor.Redact | src/shardguard/utils/redaction.py:70-75 | the rules in order, each on the previous output, and the new map extends the old one |
| Coordination.FormatEscaped | src/shardguard/core/prompts.py:23-34 | doubled braces in the template come out as single braces |
| Coordination.FormatPieces | src/shardguard/core/prompts.py:6-35 | a template written as pieces formats to the expansion of those pieces |
| Coordination.FormatLoneClose | src/shardguard/core/coordination.py:66 | a lone `}` raises `ValueError` |
| Coordination.FormatOtherField | src/shardguard/core/coordination.py:66 | a field other than `user_prompt` raises `KeyError` |
| Coordination.EscapePlain | src/shardguard/core/prompts.py:6-35 | text without braces needs no escaping |
| Coordination.FormatPrompt | src/shardguard/core/coordination.py:64-66 | the template with the user input substituted verbatim between `USER_PROMPT:\n` and `\nEND.\n`, and the doubled braces made single |
| Coordination.FormatPromptContainsInput | src/shardguard/core/coordination.py:64-66 | the formatted prompt contains the input and is longer than it |
| Coordination.ToDict | src/shardguard/core/coordination.py:28-52 | a dict comes back unchanged, a model is dumped, and anything else raises `TypeError` |
| Coordination.ToDictSubPrompt | src/shardguard/core/coordination.py:44-45 | a dumped sub-prompt validates back to itself |
| Coordination.ToDictIdempotent | src/shardguard/core/coordination.py:39-40 | normalising the normalised step changes nothing |
| Coordination.CheckTool | src/shardguard/core/coordination.py:54-55 | always `None` |
| Coordination.PlanFromText | src/shardguard/core/coordination.py:62 | a plan exactly when the text parses to a valid plan; otherwise a validation error |
| Coordination.CallArgs | src/shardguard/core/coordination.py:95-97 | `per_tool_args` binds exactly what the call's arguments bind, and is empty without them |
| Coordination.CallsIssued | src/shardguard/core/coordination.py:93-99 | whatever each call's validation gives, the requests issued are those of the proposed calls, in order, and no more than there are calls |
| Coordination.CallsAllPass | src/shardguard/core/coordination.py:93-101 | nothing is raised exactly when every call's result passes validation, and then every call is issued |
| Coordination.CallsStop | src/shardguard/core/coordination.py:99-101 | a raise is the validation failure of the last call issued, and every earlier call passed |
| Coordination.NoSchemaIssuesAll | src/shardguard/core/coordination.py:91-101 | without an output schema every call is issued and nothing is raised |
| Coordination.IssueCall | src/shardguard/core/coordination.py:95-101 | one call: the request carries the call's server, tool and arguments, and the raise is that call's validation outcome |
| Coordination.IssueEach | src/shardguard/core/coordination.py:93-101 | the loop, for any function that runs a call as `_execute_step_tools` does: the requests of the calls up to the first failing one, in order, and that failure |
| Coordination.IssueCalls | src/shardguard/core/coordination.py:93-101 | the loop issues and validates exactly as specified |
| Coordination.StepResponse | src/shardguard/core/coordination.py:112 | one tool call per intent that the task's new execution LLM proposes |
| Coordination.SubtasksIndependent | src/shardguard/core/coordination.py:103-113 | a task at any position, once the tasks before it raised nothing, issues the calls its own step gives after theirs, whatever they were; its raise ends the run, and otherwise the tasks after it follow |
| Coordination.SubtasksBadTask | src/shardguard/core/coordination.py:109 | a task that cannot be normalised stops the run with `TypeError` before any of its calls |
| Coordination.CoordinationService.constructor | src/shardguard/core/coordination.py:22-26 | the planner as given, and `args` empty |
| Coordination.CoordinationService.PlanFor | src/shardguard/core/coordination.py:60-62 | the planner is asked once with the prompt; its exception propagates, a valid answer is the plan, and any other answer is a validation error |
| Coordination.CoordinationService.HandlePrompt | src/shardguard/core/coordination.py:57-62 | exactly that plan for the formatted prompt, with `check_tool`'s answer ignored |
| Coordination.CoordinationService.ExecuteStepTools | src/shardguard/core/coordination.py:84-101 | the calls issued on a new client and the first validation failure are those specified, and `args` does not change |
| Coordination.CoordinationService.HandleTask | src/shardguard/core/coordination.py:105-113 | one task: the requests its step's calls issue are recorded after the earlier ones, its exception is the one specified for it, and `args` does not change |
| Coordination.CoordinationService.HandleEach | src/shardguard/core/coordination.py:103-114 | the loop, for any function that runs a task as `handle_subtasks` does: the requests of the tasks up to the first that raises are recorded in order, that exception comes back, and `args` does not change |
| Coordination.CoordinationService.HandleSubtasks | src/shardguard/core/coordination.py:103-114 | the tasks in order, each with its own execution LLM; the first exception propagates, and `args` does not change |
| TestFramework.Dedupe | src/shardguard/test_framework.py:189 | `list(set(...))`: no duplicates, and the same elements |
| TestFramework.Keys | src/shardguard/test_framework.py:212 | a dict's keys, each once |
| TestFramework.Values | src/shardguard/test_framework.py:212 | `.values()`: the value of each key, in key order |
| TestFramework.Subscript | src/shardguard/test_framework.py:168 | `d[k]` on an object is the binding, and a missing key raises `KeyError` |
| TestFramework.Iterate | src/shardguard/test_framework.py:168 | iterating a list gives its items, a dict its keys, and a string its characters; anything else raises |
| TestFramework.JsonCandidate | src/shardguard/test_framework.py:158-162 | there is a candidate exactly when the output contains `{` |
| TestFramework.JsonCandidateWithoutCloser | src/shardguard/test_framework.py:159-162 | without `\n}\n`, `end` is 2, so the candidate is at most two characters, and empty when `{` comes later |
| TestFramework.JsonCandidateSpan | src/shardguard/test_framework.py:158-162 | with a closer after the first `{`, the candidate runs from that `{` through the last `\n}\n` |
| TestFramework.SubPromptsOf | src/shardguard/test_framework.py:167-168 | no `sub_prompts` key gives nothing, and a list gives its items |
| TestFramework.MergeOne | src/shardguard/test_framework.py:169-170 | one sub-prompt's `opaque_values` merged, as specified |
| TestFramework.MergeEach | src/shardguard/test_framework.py:166-170 | the loop, for any step that merges as one sub-prompt's turn does: the fold of the sub-prompts from the empty map, stopping at the first error |
| TestFramework.MergeOpaque | src/shardguard/test_framework.py:166-170 | the loop merges exactly the specified map, or raises the first error |
| TestFramework.MergeOpaqueMeaning | src/shardguard/test_framework.py:166-170 | for object sub-prompts whose values are objects, each key holds the value of the last sub-prompt that declares it |
| TestFramework.HitName | src/shardguard/test_framework.py:179 | `server.tool` when the server is non-empty, else the tool alone |
| TestFramework.Hits | src/shardguard/test_framework.py:178-180 | one name per regular-expression hit, in order |
| TestFramework.ExtendOne | src/shardguard/test_framework.py:185-186 | one sub-prompt's `suggested_tools` added, as specified |
| TestFramework.ExtendEach | src/shardguard/test_framework.py:183-186 | the loop, for any step that extends as one sub-prompt's turn does: the fold of the sub-prompts from the given tools, stopping at the first error |
| TestFramework.ExtendSuggested | src/shardguard/test_framework.py:183-186 | the loop extends the tools exactly as specified |
| TestFramework.SuggestedExtends | src/shardguard/test_framework.py:183-186 | the suggested tools are appended after the tools already found |
| TestFramework.ToolsPartKeepsHits | src/shardguard/test_framework.py:178-186 | the hits come first, followed by the suggested tools |
| TestFramework.JsonPart | src/shardguard/test_framework.py:158-172 | no `{` gives no data; a malformed candidate gives the error `Failed to parse JSON: ...`; data is what the candidate parses to, and a candidate without errors gives data |
| TestFramework.DecodeJson | src/shardguard/test_framework.py:161-172 | the JSON branch decodes exactly as specified |
| TestFramework.CollectHits | src/shardguard/test_framework.py:178-180 | the loop collects exactly the hit names |
| TestFramework.ParseOutput | src/shardguard/test_framework.py:149-191 | the parse gives exactly the specified result |
| TestFramework.ParseOutputTools | src/shardguard/test_framework.py:175-189 | the tools have no duplicates, and a tool is in them exactly when it is a hit or a suggested tool |
| TestFramework.SuggestedMeaning | src/shardguard/test_framework.py:183-186 | for well-formed sub-prompts, a tool is collected exactly when some sub-prompt suggests it |
| TestFramework.AnyHolds | src/shardguard/test_framework.py:210-213 | when all opaque values are strings, whether the data is a substring of one of them |
| TestFramework.SensitiveSpec | src/shardguard/test_framework.py:193-222 | a successful check always reports the data as protected |
| TestFramework.ValidateSensitiveDataProtection | src/shardguard/test_framework.py:193-222 | the loop gives exactly the specified warnings, and `protected` is always true |
| TestFramework.ExposedItems | src/shardguard/test_framework.py:205-215 | the items that need a warning are well formed |
| TestFramework.Warnings | src/shardguard/test_framework.py:217-220 | one warning per exposed item |
| TestFramework.SensitiveWarningsExact | src/shardguard/test_framework.py:202-222 | exactly one warning, in order, for each item other than `<any>` whose data is in no opaque value |
| TestFramework.SensitiveWarningsFold | src/shardguard/test_framework.py:202-220 | the loop's warnings are the warnings of the exposed items |
| TestFramework.MissingList | src/shardguard/test_framework.py:236 | a lowered expected tool is missing exactly when it is not detected |
| TestFramework.MissingTools | src/shardguard/test_framework.py:233-236 | the missing tools are the set difference of the lowered names, each once |
| TestFramework.ValidateToolUsage | src/shardguard/test_framework.py:224-242 | passes exactly when every lowered expected tool is detected; on failure, exactly one warning listing the missing tools |
| TestFramework.ExtraToolsIgnored | src/shardguard/test_framework.py:233-242 | extra detected tools never make a passing check fail |
| TestFramework.LowerAll | src/shardguard/test_framework.py:233-234 | every name lowered, in order |
| TestFramework.ToolUsageIgnoresCase | src/shardguard/test_framework.py:233-234 | lowering the inputs first changes nothing |
| TestFramework.Status | src/shardguard/test_framework.py:282-287 | FAILED exactly when there are errors, WARNING exactly when only warnings, PASSED exactly when neither, and never SKIPPED |
| TestFramework.CommandErrors | src/shardguard/test_framework.py:253-255 | output starting with `ERROR:` contributes its first line as the error, and other output contributes none |
| TestFramework.RunTestOutcome | src/shardguard/test_framework.py:244-309 | not SKIPPED, always protected, the id, prompt and raw output kept; an `ERROR:` output fails with its first line as the first error; PASSED exactly without errors and warnings; a missing expected tool prevents PASSED; the detected tools have no duplicates |
| TestFramework.RunAllMeaning | src/shardguard/test_framework.py:311-319 | at most one result per case, one per case when nothing is raised, none SKIPPED, each carrying its case's id |
| TestFramework.RunAllRaised | src/shardguard/test_framework.py:317-319 | once a case raises, the later cases do not run |
| TestFramework.SuccessRate | src/shardguard/test_framework.py:341 | with no results the rate raises `ZeroDivisionError`; otherwise it lies between 0 and 100 |
| TestFramework.GuardedSuccessRate | src/shardguard/test_framework.py:335-341 | guarded as the average time is, the rate never raises, lies between 0 and 100, is 0 for no results, and otherwise equals the unguarded rate |
| TestFramework.EmptySummaryRaises | src/shardguard/test_framework.py:341 | the empty run raises where the guarded rate gives 0 |
| TestFramework.CountsAddUp | src/shardguard/test_framework.py:330-333 | the passed, warning and failed counts add up to the number of results when none is SKIPPED |
| TestFramework.CaseOf | src/shardguard/test_framework.py:77-85 | a case carries the entry's fields, with provider defaulting to `ollama` and model to `llama3.2` |
| TestFramework.ShardGuardTester.constructor | src/shardguard/test_framework.py:60-64 | no cases and no results |
| TestFramework.ShardGuardTester.LoadTestCases | src/shardguard/test_framework.py:71-87 | one case per entry is appended in order, and the results are untouched |
| TestFramework.ShardGuardTester.RunTest | src/shardguard/test_framework.py:244-309 | exactly the specified result for the case's output |
| TestFramework.ShardGuardTester.RunEach | src/shardguard/test_framework.py:311-319 | the loop over the cases: for a function giving what `run_test` gives, the cases are kept and the results of the cases run before the first exception are appended, in order, and that exception is returned |
| TestFramework.ShardGuardTester.PrintSummary | src/shardguard/test_framework.py:324-341 | the summary raises `ZeroDivisionError` exactly when there are no results, because the success rate's division is unguarded |
| TestFramework.ShardGuardTester.RunAllTests | src/shardguard/test_framework.py:311-322 | the results of the cases, in order, are appended and the cases are kept; no result is ever SKIPPED; an exception from a case is raised, and otherwise the summary raises `ZeroDivisionError` exactly when there were no earlier results and no cases |
| TestFramework.ShardGuardTester.Counts | src/shardguard/test_framework.py:379-382 | the report's passed, warning and failed counts add up to the number of results |

## Left out

- I/O in general:
  - the MCP stdio transport, the `ClientSession` and the debug logging of connection errors are behind the abstract transport;
  - the LLM providers and `LLMProviderFactory` are abstract reply functions;
  - the `httpx` client and `close` are not modelled;
  - the asyncio event-loop handling becomes one boolean: is a loop running?
- Concurrency: every `async` method is modelled as sequential code.
- `make_execution_llm` and the `GenericExecutionLLM` constructor are reduced to an abstract factory that yields an execution LLM. Their provider arguments are modelled once, in `McpIntegration.ProviderKwargs`.
- The real JSON parser and `json.dumps`, the regular-expression engine, `jsonschema` for output schemas, and SHA-256 are abstract functions. The two schemas of `schemas.py` are modelled concretely. So are the regular expressions whose matches the logic depends on (`\{.*\}` and `\[\s*\{.*?\}\s*\]`).
- `cli.py` is not part of this model. It is a command-line UI, and it imports an `AsyncCoordinationService` that coordination.py does not define.
- `GenericExecutionLLMWrapper`, `make_execution_agent` and `log_tool_call` in execution_langchain.py wrap the LangChain library, which is not shown.
- How the redactor and the test harness read their YAML, the demo and unit-test block of redaction.py, the test harness's subprocess, report file and printing, and `_load_config`: all are I/O.
- `print_summary` is modelled through its status counts and its success rate, the one step that can raise. Its timing sums and averages are floating point, and the rest is output. `generate_report` writes a file and is not modelled; it runs only after a summary that did not raise.
- The execution time of a test result: it is a float measured by the clock.
- A retry or tool-allowlist state machine is not in the code. `check_tool` is an empty stub, and the redactor is never called by the coordination service, so neither is modelled.
- The executor's parse can raise inside `_extract_json_array` when the fallback span is malformed, but `propose_tool_intents` catches it and gives `[]`. Both are modelled. No code-fence stripping exists in the code.
- `Schemas.IsDigit`: the decimal digits (category Nd) are those of Unicode 15.0 and 15.1, the tables of Python 3.12 and 3.13. Digits that a later Unicode version adds are not digits in the model.
- `Common.Upper`, `Common.Lower`: ASCII only. Python's `str.upper`/`str.lower` are Unicode-aware, and no ASCII-only input changes this.
- `Models.IntOf`: pydantic's lax coercion of integer strings, such as `"5"`, is not modelled. Such input is rejected.
- `TestFramework.Dedupe`, `TestFramework.MissingTools`: `list(set(...))` and `', '.join(missing_tools)` use the unspecified iteration order of a Python set. The model keeps first-appearance order, and the lemmas state only membership and absence of duplicates.
- `TestFramework.MergeOne`: `dict.update` with a sequence of key-value pairs is modelled as a `TypeError`, like any other non-dict argument.
- `TestFramework.ExtendOne`: a non-string suggested tool is a `TypeError` at once. In Python it fails later, when the tools are hashed or lowered.
- Exception messages are modelled only where the source writes them out. The text of a Python-generated `KeyError`/`TypeError` and the `JSONDecodeError` detail are placeholders.
- `McpIntegration.ServerConfigs`: `os.path.join` of the servers directory and a file name is modelled as `dir + "/" + file`. The interpreter path is a parameter.
- `McpIntegration.McpClient.ToolsOf`: a session's tool list is a list of tools, so the falsy values `tools or []` also replaces are only the empty list and a failure.
- `Coordination.FormatPrompt`: the planning template is written as literal text and brace pieces. `str.format` is modelled for `user_prompt` and doubled braces only. Other replacement fields raise `KeyError`, and a lone `}` raises `ValueError`; conversions and format specs are not modelled.
- `Coordination.CoordinationService.HandlePrompt`: `handle_prompt` awaits a synchronous `generate_plan`, which fails at run time. The model treats the planner as an abstract function that answers the prompt.

## Findings

| source | as written | input that shows it | evidently intended | confidence | as-written member | corrected member |
|---|---|---|---|---|---|---|
| src/shardguard/test_framework.py:341 | the success rate `(passed+warnings)/total*100` divides by `total` without a guard | a tester with no earlier results and no test cases: `run_all_tests` raises `ZeroDivisionError` from `print_summary`, and `generate_report` never runs | the guard the average time has at line 335, `... if total > 0 else 0` | not executed; the division is unguarded as written | TestFramework.EmptySummaryRaises | TestFramework.GuardedSuccessRate |

`TestFramework.ShardGuardTester.RunAllTests` and `PrintSummary` follow the code as written, so they raise on the empty run. `GuardedSuccessRate` is proved never to raise, to lie between 0 and 100, and to agree with the unguarded rate whenever that rate exists.
