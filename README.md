# Octopus core, modelled in Dafny

This project models the deterministic core of Octopus, a terminal multi-agent coding assistant written in Python. The model covers:

- the session policy that decides which tools an agent sees;
- how old tool output is pruned from the conversation;
- the PLAN → EXECUTE mode machine, the `ask_user` gate and the delegation quota;
- how a delegated sub-agent's result is chosen;
- how chat messages and tool calls are normalised for providers with and without native tool calling;
- the small stores (configuration, slash commands, output styles, task history, decision trajectory);
- the Model Context Protocol client and the bundled file-system server;
- the text and state helpers of the terminal UI;
- two maintenance scripts.

One Dafny module models each source file:

- `Session` (session.dfy) models octopus/core/session.py: tool filtering and pruning as functions; the session as a class whose methods change mode, question, quota and history fields.
- `SubAgent` (sub_agent.dfy) models octopus/core/sub_agent.py: the sub-agent loop as a method proved against a step function.
- `MessageTypes` (message_types.dfy) models octopus/core/types.py: `OctopusMessage` as a class with an in-place rewrite; dict conversions as functions.
- `ProviderManager` (provider_manager.dfy) models octopus/llm/provider_manager.py: request assembly and tool-call extraction; the loops as methods.
- `OllamaAdapters` (ollama_adapters.dfy) models octopus/core/adapters/ollama_adapters.py: both text-protocol adapters; the copy-and-scan loop as a method.
- `OpenAIAdapter` (openai_adapter.dfy) models octopus/core/adapters/openai_adapter.py: pure functions.
- `McpProtocol` (mcp_protocol.dfy) models octopus/mcp/protocol.py: `JSONRPCClient` as a class over an abstract process.
- `InternalFsServer` (internal_fs_server.dfy) models octopus/tools/internal_fs_server.py: argument cleaning, result framing and the read-dispatch loop.
- `Config` (config_store.dfy) models octopus/core/config_store.py: `ConfigStore` as a class.
- `Commands` (commands.dfy) models octopus/core/commands.py: `SlashCommandRegistry` as a class.
- `OutputStyles` (output_styles.dfy) models octopus/core/output_styles.py: `OutputStyleManager` as a class.
- `TaskHistory` (task_history.dfy) models octopus/core/task_history.py: `TaskHistory` as a class over its in-memory list.
- `TrajectoryLogger` (trajectory_logger.dfy) models octopus/core/trajectory_logger.py: `TrajectoryLogger` as a class.
- `Environment` (environment.dfy) models octopus/tools/environment.py: pure selection functions.
- `TuiApp` (tui_app.dfy) models octopus/tui_app.py: `ShellInput` and `ActivityWidget` as classes; timer, URL and error test as functions.
- `PatchSession` (patch_session.dfy) models patch_session.py: the line-rewriting loop as a method.
- `CleanupTasks` (cleanup_tasks.dfy) models cleanup_tasks.py: the filter loop as a method.

Four helper modules give Python's own semantics to the rest:

- `Wrappers`: `Option`, and `Result` carrying the text of a Python exception;
- `PyStr`: string stripping, splitting, searching, slicing past the end, decimal rendering, and the non-greedy `OPEN(.*?)CLOSE` block matching;
- `PyDict`: an insertion-ordered `dict`;
- `Json`: decoded JSON values, with Python truthiness and `in`.

Some things become parameters of the functions that use them:

- `json.loads` and `json.dumps`;
- regular-expression searches whose pattern is not a plain block;
- clocks;
- `shutil.which`, `platform` and the file system;
- the language model.

Dicts and lists are values here. A result that Python builds as a fresh dict or list therefore never shares state with its input. The one shallow copy whose sharing the source can observe is listed under "## Left out".

## Model

| member | source | states |
|---|---|---|
| MessageTypes.XmlBlocks | octopus/core/types.py:58-71 | one `<tool_code>` block per tool call, in order, each built from the call's name and arguments |
| MessageTypes.SanitizeAssistant | octopus/core/types.py:56-79 | an assistant message with tool calls loses them; its content is the old content, then a blank line when that was non-empty, then the blocks joined by newlines; id and name are kept |
| MessageTypes.SanitizeToolResult | octopus/core/types.py:81-89 | a tool result becomes a user message "[Tool Result: name]" plus its content, "unknown" standing for a missing name; the call id and name are cleared |
| MessageTypes.SanitizeOther | octopus/core/types.py:56-89 | any other message is left exactly as it was |
| MessageTypes.SanitizedIsTextOnly | octopus/core/types.py:50-89 | after the rewrite no message is a tool result and none carries structured tool calls |
| MessageTypes.Sanitized | octopus/core/types.py:50-89 | the rewritten message is not a tool result and carries no structured calls; a tool result becomes a user message and every other role is kept; a message with neither is unchanged, and a rewritten one always has content |
| MessageTypes.SanitizeIdempotent | octopus/core/types.py:50-89 | rewriting twice is the same as rewriting once |
| MessageTypes.ToolCallsToJson | octopus/core/types.py:46-48 | one dict per tool call |
| MessageTypes.GetWithOpt | octopus/core/types.py:46-48 | an omitted optional field is not found; a set one is found under its key |
| MessageTypes.FromDict | octopus/core/types.py:14-19 | a message validated from a dict came from a dict whose "role" is its role |
| MessageTypes.LookupKey | octopus/core/types.py:46-48 | `to_dict()` holds each declared field exactly when it is set, with its value, and nothing else |
| MessageTypes.LookupInToDict | octopus/core/types.py:46-48 | each field of `to_dict()` is the value when set and missing when `None` |
| MessageTypes.ToDictKeys | octopus/core/types.py:46-48 | `to_dict()` always has the role and has each optional field exactly when it is set; structured tool calls survive as dicts |
| MessageTypes.ToDict | octopus/core/types.py:46-48 | the dict starts with the role and has one more entry for each optional field that is set |
| MessageTypes.ToolCallLookups | octopus/core/types.py:5-12 | a dumped tool call holds its id, type and function name and arguments under their keys |
| MessageTypes.FunctionLookups | octopus/core/types.py:5-7 | a dumped function part holds its name and its arguments |
| MessageTypes.ToolCallRoundTrip | octopus/core/types.py:5-12 | validating a dumped tool call gives the same call |
| MessageTypes.ToolCallsRoundTrip | octopus/core/types.py:9-17 | validating a dumped list of tool calls gives the same list |
| MessageTypes.OptStringOf | octopus/core/types.py:16-19 | an optional string field that was dumped reads back as it was |
| MessageTypes.CallsFieldOf | octopus/core/types.py:17 | a dumped `tool_calls` field reads back as the same calls, or `None` when omitted |
| MessageTypes.ToDictRoundTrip | octopus/core/types.py:14-48 | validating `to_dict()` of a message gives the same message |
| MessageTypes.FromDictOfFields | octopus/core/types.py:14-19 | a dict whose role and four optional fields read as a message's fields validates to that message |
| MessageTypes.OctopusMessage.constructor | octopus/core/types.py:14-19 | a new message object holds the given fields |
| MessageTypes.OctopusMessage.Copy | octopus/core/types.py:27-28 | `from_any` on a message object gives a new object with the same fields |
| MessageTypes.OctopusMessage.SanitizeForXmlFallback | octopus/core/types.py:50-89 | the object's fields become `Sanitized` of the old fields |
| MessageTypes.FromAny | octopus/core/types.py:30-32 | `from_any` on a dict fails exactly when validation fails, with its error; otherwise it gives a new object holding the validated fields |
| OllamaAdapters.FunctionsOf | octopus/core/adapters/ollama_adapters.py:37 | one function description per tool, in order; the list is produced exactly when every tool has a `function` entry |
| OllamaAdapters.FunctionsOfSessionTools | octopus/core/adapters/ollama_adapters.py:37 | the tool dicts a session builds always yield their function descriptions |
| OllamaAdapters.Instruction | octopus/core/adapters/ollama_adapters.py:28-38 | the injected text starts with the adapter's protocol text and exists exactly when every tool has a `function` entry |
| OllamaAdapters.Copies | octopus/core/adapters/ollama_adapters.py:25 | copying succeeds exactly when every message is a dict or a list, and the copies equal the originals |
| OllamaAdapters.Extended | octopus/core/adapters/ollama_adapters.py:43 | `+=` on a string content appends the text; it succeeds exactly on a string or a list |
| OllamaAdapters.FirstSystemFrom | octopus/core/adapters/ollama_adapters.py:41-42 | the index found holds a system message and none before it does; no index means no system message |
| OllamaAdapters.InjectShape | octopus/core/adapters/ollama_adapters.py:41-48 | only the first system message has the instruction appended to its content; without one, a new system message is put first |
| OllamaAdapters.InjectAtSystem | octopus/core/adapters/ollama_adapters.py:42-44 | a message whose role is "system" is the one that receives the instruction |
| OllamaAdapters.PreparedLength | octopus/core/adapters/ollama_adapters.py:20-48 | without tools the messages come back unchanged; with tools the list grows by at most one |
| OllamaAdapters.PrepareMessages | octopus/core/adapters/ollama_adapters.py:155-175 | the copy-and-scan loop of either adapter returns what the injection specification describes |
| OllamaAdapters.Escaped | octopus/core/adapters/ollama_adapters.py:91 | a triple-quoted block's escaped text has no raw newline left |
| OllamaAdapters.EscapeRoundTrip | octopus/core/adapters/ollama_adapters.py:91 | decoding the escaped text as a JSON string body gives the original text back |
| OllamaAdapters.WithoutTrailingCommas | octopus/core/adapters/ollama_adapters.py:93 | removing trailing commas never lengthens the text |
| OllamaAdapters.TrailingCommasKeepEssential | octopus/core/adapters/ollama_adapters.py:93 | only commas and whitespace are removed; every other character survives, in order |
| OllamaAdapters.NoCommaUnchanged | octopus/core/adapters/ollama_adapters.py:93 | text without a comma passes through unchanged |
| OllamaAdapters.CommaBeforeBracket | octopus/core/adapters/ollama_adapters.py:93 | a comma directly before a closing bracket is removed and the bracket kept |
| OllamaAdapters.SanitizedJson | octopus/core/adapters/ollama_adapters.py:237-240 | the sanitiser of the XML adapter (the same two substitutions as `_sanitize_json_from_llm` at lines 89-94): without a triple quote it only removes trailing commas |
| OllamaAdapters.FallbackCall | octopus/core/adapters/ollama_adapters.py:103-142 | a pattern contributes one call, with its fixed id, exactly when it matched |
| OllamaAdapters.FallbackCalls | octopus/core/adapters/ollama_adapters.py:96-142 | the fallback finds at most four calls |
| OllamaAdapters.FourParts | octopus/core/adapters/ollama_adapters.py:103-142 | the four contributions concatenated keep the fixed id order and each id is present exactly when its part is |
| OllamaAdapters.FallbackOrder | octopus/core/adapters/ollama_adapters.py:96-142 | fallback calls come in the order write, read, list, shell, one for each pattern that matched and none other |
| OllamaAdapters.Attempt | octopus/core/adapters/ollama_adapters.py:60-76 | a text that does not decode, or decodes to a scalar, falls back to the four per-tool patterns (`FallbackCalls`) over the fallback text; a decoded list falls back only when `name` (and `arguments`, when required) is among its items, and otherwise gives nothing; at most four calls |
| OllamaAdapters.Narrowed | octopus/core/adapters/ollama_adapters.py:187-191 | with a `{` before a last `}` the block is exactly the text from the first `{` through the last `}`; with the last `}` before the first `{` it is empty; without both it is left as it is |
| OllamaAdapters.ParseResponse | octopus/core/adapters/ollama_adapters.py:177-235 | the content is returned unchanged, with at most four tool calls |
| OllamaAdapters.JsonCalls | octopus/core/adapters/ollama_adapters.py:50-87 | the JSON adapter finds at most four calls |
| OllamaAdapters.XmlCalls | octopus/core/adapters/ollama_adapters.py:177-230 | the XML adapter finds at most four calls, from the first `<tool_code>` block or else the generic object search |
| OllamaAdapters.AttemptOnDict | octopus/core/adapters/ollama_adapters.py:194-204 | a decoded dict gives one call exactly when it has `name` (and `arguments`, when required), with arguments defaulting to `{}` |
| OllamaAdapters.XmlAdapterOnBlock | octopus/core/adapters/ollama_adapters.py:177-204 | with a `<tool_code>` block, only the first one is read, stripped and narrowed to its outer braces; a decoded dict gives one call with id "xml_heuristic" exactly when it has `name`, its arguments defaulting to `{}`; a text that does not decode falls back to the four per-tool patterns (`FallbackCalls`) over the narrowed text |
| OllamaAdapters.JsonAdapterNeedsBoth | octopus/core/adapters/ollama_adapters.py:58-73 | the JSON adapter accepts a decoded object only with both `name` and `arguments`, under id "json_heuristic" |
| OllamaAdapters.XmlAdapterNeedsName | octopus/core/adapters/ollama_adapters.py:208-224 | without a tag block the XML adapter accepts a decoded object with `name` alone, under id "json_fallback_heuristic" |
| Config.DefaultsFillOnlyEmpty | octopus/core/config_store.py:77-105 | defaults fill exactly the empty maps (providers openai, anthropic and ollama_local; server internal_fs; roles architect and developer), never touch a non-empty map or the active role, and a second application changes nothing |
| Config.WithDefaults | octopus/core/config_store.py:77-105 | after defaults every map is non-empty, a non-empty map is untouched, and the active role is kept |
| Config.StrsJson | octopus/core/config_store.py:139-141 | a saved list of strings has one entry per string |
| Config.PairsJson | octopus/core/config_store.py:139-141 | a saved string mapping has one entry per pair |
| Config.EncodeEntries | octopus/core/config_store.py:139-141 | a saved section has one entry per configuration entry, under the same name and in the same order, holding `asdict` of the entry |
| Config.EncodeProvider | octopus/core/config_store.py:9-18 | `asdict` of a provider has exactly the declared fields as keys, in declaration order |
| Config.EncodeMcpServer | octopus/core/config_store.py:20-26 | `asdict` of an MCP server has exactly the declared fields as keys, in declaration order |
| Config.EncodeRole | octopus/core/config_store.py:28-40 | `asdict` of a role has exactly the declared fields as keys, in declaration order |
| Config.SaveDocument | octopus/core/config_store.py:136-143 | the saved document has the keys providers, mcp_servers, roles and active_role, in that order; each section is a mapping with the names of its entries in order, and the active role is stored as it is |
| Config.DecodeProvider | octopus/core/config_store.py:9-18 | `ProviderConfig(**v)` fails for a non-mapping, a missing name or type, or an undeclared key; a built provider has the name and type given, and the declared defaults ("gpt-4o", "auto", no models) for fields not given |
| Config.DecodeMcpServer | octopus/core/config_store.py:20-26 | `MCPServerConfig(**v)` fails for a non-mapping, a missing name or command, or an undeclared key; a built server has the name and command given, and is enabled with no arguments and no environment unless given |
| Config.DecodeRole | octopus/core/config_store.py:28-40 | `RoleConfig(**v)` fails for a non-mapping, a missing name, provider, model or system prompt, or an undeclared key; a built role has the name and provider given, temperature 0.7, autonomy "balanced" and no allowed tools unless given |
| Config.Section | octopus/core/config_store.py:116-128 | a missing or falsy section gives no entries; a mapping gives its entries; it fails exactly for a truthy section that is not a mapping |
| Config.Overlay | octopus/core/config_store.py:118-129 | a section loads completely exactly when each of its entries can be built; entries already present keep their place, and new names go after them |
| Config.Loaded | octopus/core/config_store.py:107-134 | a missing file or a document that is falsy or not a mapping changes nothing; a load never drops or reorders a name already present in any map; the active role is kept or becomes the document's (default "architect") |
| Config.LoadNothing | octopus/core/config_store.py:107-114 | a missing file, or a document that is empty or null, leaves the configuration untouched |
| Config.LoadNullSections | octopus/core/config_store.py:116-131 | null or missing sections load as empty ones, and a missing active role becomes "architect" |
| Config.OverlayKeepsOthers | octopus/core/config_store.py:118-129 | loading a section leaves every name it does not mention as it was, and keeps names distinct |
| Config.OverlayStoresEntry | octopus/core/config_store.py:118-129 | when a section loads completely, each name holds the entry built from its last occurrence |
| Config.StringsRoundTrip | octopus/core/config_store.py:139-141 | a saved list of strings reads back as the same list |
| Config.PairsRoundTrip | octopus/core/config_store.py:139-141 | a saved string mapping reads back as the same mapping |
| Config.ProviderLookups | octopus/core/config_store.py:9-18 | every provider field is written under its own key |
| Config.ProviderRoundTrip | octopus/core/config_store.py:119 | a saved provider entry is rebuilt as the same provider by `ProviderConfig(**v)` |
| Config.ProviderOnlyKeys | octopus/core/config_store.py:9-18 | a saved provider entry holds only keys the provider constructor accepts |
| Config.ProviderTextsRead | octopus/core/config_store.py:9-14 | the name, type, base URL and key variable of a saved provider read back unchanged |
| Config.ProviderRestRead | octopus/core/config_store.py:15-18 | the default model, models path, model list and tool mode of a saved provider read back unchanged |
| Config.McpServerLookups | octopus/core/config_store.py:20-26 | every MCP server field is written under its own key |
| Config.McpServerOnlyKeys | octopus/core/config_store.py:20-26 | a saved MCP server entry holds only keys the server constructor accepts |
| Config.McpServerFieldsRead | octopus/core/config_store.py:20-26 | every field of a saved MCP server reads back unchanged |
| Config.McpServerRoundTrip | octopus/core/config_store.py:124 | a saved MCP server entry is rebuilt as the same server by `MCPServerConfig(**v)` |
| Config.RoleLookups | octopus/core/config_store.py:28-40 | every role field is written under its own key |
| Config.RoleRoundTrip | octopus/core/config_store.py:129 | a saved role entry is rebuilt as the same role by `RoleConfig(**v)` |
| Config.RoleOnlyKeys | octopus/core/config_store.py:28-40 | a saved role entry holds only keys the role constructor accepts |
| Config.RoleTextsRead | octopus/core/config_store.py:30-33 | the name, provider, model and system prompt of a saved role read back unchanged |
| Config.RoleRestRead | octopus/core/config_store.py:34-40 | the temperature, MCP servers, allowed tools and autonomy level of a saved role read back unchanged |
| Config.OverlayRebuilds | octopus/core/config_store.py:118-129 | loading the saved entries of a section onto its own first entries rebuilds the section, with no failure |
| Config.LoadedComplete | octopus/core/config_store.py:111-131 | a document whose three sections load completely yields exactly what they hold, and its active role |
| Config.SaveSections | octopus/core/config_store.py:136-143 | the saved document's three sections are the saved entries, and it holds the active role |
| Config.SavedAt | octopus/core/config_store.py:138-143 | each top-level key of the saved document is found with its value |
| Config.SectionOfObject | octopus/core/config_store.py:117 | a section stored as a mapping yields its entries |
| Config.OverlayAll | octopus/core/config_store.py:118-129 | loading the saved entries of a section with distinct names into an empty map rebuilds it |
| Config.SaveLoadRoundTrip | octopus/core/config_store.py:107-143 | saving a configuration and loading the document into a fresh store reproduces every entry and the active role |
| Config.ConfigStore.constructor | octopus/core/config_store.py:52-75 | an existing file is loaded, even when that leaves the maps empty; otherwise the defaults are written |
| Config.ConfigStore.EnsureDefaults | octopus/core/config_store.py:77-105 | the configuration becomes `WithDefaults` of the old one |
| Config.ConfigStore.Load | octopus/core/config_store.py:107-134 | the configuration becomes `Loaded` of the old one and the parsed document |
| Config.ConfigStore.Save | octopus/core/config_store.py:136-145 | the document written is `SaveDocument` of the configuration |
| Config.ConfigStore.GetRole | octopus/core/config_store.py:147-148 | a role is found exactly when the name is a key of the roles, and it is the role stored under that name |
| Config.ConfigStore.GetProvider | octopus/core/config_store.py:150-151 | a provider is found exactly when the name is a key of the providers, and it is the provider stored under that name |
| Config.OverlayLoop | octopus/core/config_store.py:118-129 | the loop over a section's items gives exactly `Overlay`: entries assigned one by one until one cannot be built |
| OpenAIAdapter.PrepareMessages | octopus/core/adapters/openai_adapter.py:13-16 | the messages are returned unchanged, whatever the tools |
| OpenAIAdapter.Standardised | octopus/core/adapters/openai_adapter.py:29-42 | a call keeps its name, takes its id or "call_unknown", keeps non-string arguments, and decodes string arguments, being skipped exactly when they do not decode |
| OpenAIAdapter.StandardisedAll | octopus/core/adapters/openai_adapter.py:24-42 | never more standardised calls than calls given |
| OpenAIAdapter.ParseResponse | octopus/core/adapters/openai_adapter.py:18-47 | the content passes through; no tool calls gives an empty list |
| OpenAIAdapter.StandardisedAppend | octopus/core/adapters/openai_adapter.py:24-42 | standardising distributes over concatenation, so skipping a call never reorders the others |
| OpenAIAdapter.SkipsUndecodable | octopus/core/adapters/openai_adapter.py:40-42 | a call whose string arguments do not decode contributes nothing |
| OpenAIAdapter.AllDecodableKept | octopus/core/adapters/openai_adapter.py:24-39 | when every call decodes, every call is kept one for one, in order |
| ProviderManager.ResolveStrategy | octopus/llm/provider_manager.py:98-110 | an explicit tool mode wins; "auto" means text-only tools exactly for ollama and native tools for every other provider type |
| ProviderManager.ToolLines | octopus/llm/provider_manager.py:15-19 | one description line per tool, in order |
| ProviderManager.ToolSystemPrompt | octopus/llm/provider_manager.py:10-44 | the instruction is empty exactly when there are no tools; otherwise it has the fixed head and the fixed rules at the end |
| ProviderManager.PromptListsEveryTool | octopus/llm/provider_manager.py:15-26 | every tool offered is described in the instruction |
| ProviderManager.StripFences | octopus/llm/provider_manager.py:55-59 | a cleaned block neither starts nor ends with whitespace |
| ProviderManager.UnfenceStart | octopus/llm/provider_manager.py:57 | a leading fence is dropped; text without one is unchanged |
| ProviderManager.UnfenceEnd | octopus/llm/provider_manager.py:58 | a trailing fence is dropped; text without one is unchanged |
| ProviderManager.BlockCall | octopus/llm/provider_manager.py:61-86 | a block that does not decode contributes nothing; a block that decodes gives the call `DataCall` reads from the decoded value |
| ProviderManager.DataCall | octopus/llm/provider_manager.py:66-86 | an object with `name` and `arguments` gives that call, its arguments dumped; an object without both is read by `ToolKeyCall`; a scalar raises (`in` on it fails); a call comes only from an object |
| ProviderManager.ToolKeyCall | octopus/llm/provider_manager.py:75-83 | without a `tool` key nothing is extracted; `tool` in a list raises; an object with `tool` gives the call named by it, with `parameters`, or else `arguments` (default `{}`), dumped as its arguments |
| ProviderManager.CallsOf | octopus/llm/provider_manager.py:53-88 | at most one call per block |
| ProviderManager.CallsOfAppend | octopus/llm/provider_manager.py:53-88 | the calls of consecutive runs of blocks are the calls of each run, in order |
| ProviderManager.SkipsUndecodable | octopus/llm/provider_manager.py:84-86 | a block that does not decode is skipped; the others keep their calls and their order |
| ProviderManager.SkipsNothing | octopus/llm/provider_manager.py:53-88 | a block that yields no call changes nothing around it |
| ProviderManager.CallsOfStep | octopus/llm/provider_manager.py:53 | each block extends the calls of the blocks before it |
| ProviderManager.CallsOfFailsLater | octopus/llm/provider_manager.py:53-88 | an uncaught error in one block ends the whole parse with that error |
| ProviderManager.ParseXmlToolCalls | octopus/llm/provider_manager.py:46-88 | the loop over the blocks returns the block-by-block calls |
| ProviderManager.XmlToolCalls | octopus/llm/provider_manager.py:46-88 | the specification of the block parser: at most one call per `<tool_code>` block, and no calls when the content holds no complete block |
| ProviderManager.CollectCalls | octopus/llm/provider_manager.py:53-86 | the append loop computes the block-by-block calls for any per-block step |
| ProviderManager.PostProcess | octopus/llm/provider_manager.py:173-183 | a reply is rewritten only with tools, under "xml_fallback", with content mentioning `<tool_code>` and at least one call extracted; under those conditions an extraction error is passed on, no call leaves the reply alone, and calls rewrite it with exactly those calls and `CleanedContent` of the old content |
| ProviderManager.CleanedContent | octopus/llm/provider_manager.py:182-183 | the content with every block removed and then stripped, or `None` exactly when that is empty; kept content has no whitespace at either end |
| ProviderManager.WithoutBlocksShorter | octopus/llm/provider_manager.py:182 | removing blocks never lengthens the text |
| ProviderManager.RewriteRemovesBlocks | octopus/llm/provider_manager.py:176-183 | a rewritten reply has had at least one whole block cut from its text |
| ProviderManager.Decoded | octopus/llm/provider_manager.py:118 | one message object per dict, in order, each the dict's validation result |
| ProviderManager.SanitizedAll | octopus/llm/provider_manager.py:121-123 | every message is rewritten for the text-only mode, one for one |
| ProviderManager.FirstSystem | octopus/llm/provider_manager.py:153-157 | the index found is the first system message; none means no message is a system message |
| ProviderManager.Prepared | octopus/llm/provider_manager.py:116-126 | preparing the messages fails exactly when one of them does not validate |
| ProviderManager.RequestFields | octopus/llm/provider_manager.py:112-146 | model name is "type/model", temperature defaults to 0.2, api key only from a non-empty variable, api base only from a non-empty URL, native tools with `tool_choice` "auto" exactly under the native strategy |
| ProviderManager.NativeKeepsMessages | octopus/llm/provider_manager.py:116-126 | outside "xml_fallback" the messages go out exactly as validated |
| ProviderManager.XmlRequestIsTextOnly | octopus/llm/provider_manager.py:120-162 | under "xml_fallback" no message sent is a tool result or carries structured tool calls |
| ProviderManager.InjectedShape | octopus/llm/provider_manager.py:148-162 | only the first system message gains the instruction after a blank line, or a new system message is put first |
| ProviderManager.BuildRequest | octopus/llm/provider_manager.py:98-162 | the steps as written build the request `RequestOf` describes |
| ProviderManager.RequestOf | octopus/llm/provider_manager.py:98-162 | the specification of steps 1-3 of `chat_complete`: a message that fails validation fails the request; a built request names "type/model" and carries the key and base of `ApiKey` and `ApiBase` |
| ProviderManager.ApiKey | octopus/llm/provider_manager.py:135-137 | a key is sent exactly when the provider names a variable and that variable holds a non-empty value, and it is that value |
| ProviderManager.ApiBase | octopus/llm/provider_manager.py:139-140 | a base URL is sent exactly when `base_url` is non-empty, and it is `base_url` |
| ProviderManager.AttachTools | octopus/llm/provider_manager.py:142-162 | the tool step as written computes `WithTools` |
| ProviderManager.WithTools | octopus/llm/provider_manager.py:142-162 | the specification of the tool step: it never changes the model name, the temperature, the key or the base URL of the request |
| ProviderManager.PrepareMessages | octopus/llm/provider_manager.py:116-126 | validation and the in-place rewrite as written compute `Prepared` |
| ProviderManager.DecodedStep | octopus/llm/provider_manager.py:118 | each message extends the validated prefix, or the first failure is kept |
| ProviderManager.DecodedFailsLater | octopus/llm/provider_manager.py:118 | once a message fails to validate, the whole list fails with its error |
| ProviderManager.FirstSystemIndex | octopus/llm/provider_manager.py:153-157 | the `enumerate` loop finds the first system message |
| ProviderManager.FirstSystemUnique | octopus/llm/provider_manager.py:153-157 | the first system message is determined by its defining property |
| McpProtocol.MessageShapes | octopus/mcp/protocol.py:40-57 | requests carry version "2.0", their method, params and id; notifications carry no id |
| McpProtocol.ReadFrom | octopus/mcp/protocol.py:72-96 | the reader consumes a prefix of the output lines, at least one line when there is one |
| McpProtocol.FirstMatchWins | octopus/mcp/protocol.py:85-96 | after skipping undecodable lines and other ids, the first response with the expected id gives its `result` (or raises on `error`), consuming exactly up to it |
| McpProtocol.NoMatchRaises | octopus/mcp/protocol.py:77-83 | a stream without the expected response ends in an error, with every line consumed |
| McpProtocol.Iterated | octopus/mcp/protocol.py:110 | iteration succeeds exactly on containers; a list yields its items |
| McpProtocol.ToolDefs | octopus/mcp/protocol.py:109-116 | one definition per listed tool, in order, produced exactly when every tool has a `name`; description defaults to "" and schema to `{}` |
| McpProtocol.TextOf | octopus/mcp/protocol.py:133-140 | no content items means empty text |
| McpProtocol.TextOfAppend | octopus/mcp/protocol.py:135-140 | the text of concatenated items is the concatenation of their texts |
| McpProtocol.IgnoresOtherItems | octopus/mcp/protocol.py:137 | an item not of type `text` contributes nothing |
| McpProtocol.Definitions | octopus/mcp/protocol.py:109-116 | the loop of `list_tools` computes `ToolDefs` |
| McpProtocol.Text | octopus/mcp/protocol.py:135-140 | the loop of `call_tool` computes `TextOf` |
| McpProtocol.JsonRpcClient.constructor | octopus/mcp/protocol.py:15-24 | a new client has handed out no id, is not started, has sent nothing and read nothing |
| McpProtocol.JsonRpcClient.NextId | octopus/mcp/protocol.py:59-62 | each id is one more than the last, starting at 1; nothing else changes |
| McpProtocol.JsonRpcClient.Send | octopus/mcp/protocol.py:64-70 | sending before `start` raises and writes nothing; afterwards the message is written |
| McpProtocol.JsonRpcClient.ReadResponse | octopus/mcp/protocol.py:72-96 | the outcome and the unread lines are those `ReadFrom` gives |
| McpProtocol.JsonRpcClient.Start | octopus/mcp/protocol.py:26-57 | `initialize` goes out with a fresh id, and the `initialized` notification follows only when its response arrives |
| McpProtocol.JsonRpcClient.ListTools | octopus/mcp/protocol.py:98-116 | one `tools/list` request with a fresh id; once sent, the result is `ListingOf` the response read back for that id |
| McpProtocol.ListingOf | octopus/mcp/protocol.py:107-116 | an error response is passed on; a result that is not a dict raises; otherwise each item of `tools` (default empty) becomes a definition, and an empty result lists nothing |
| McpProtocol.JsonRpcClient.CallTool | octopus/mcp/protocol.py:118-140 | one `tools/call` request with a fresh id; once sent, the result is `CallTextOf` the response read back for that id |
| McpProtocol.CallTextOf | octopus/mcp/protocol.py:130-140 | an error response is passed on; a result that is not a dict raises; otherwise the text of the `content` items (default empty) is joined, and an empty result gives "" |
| McpProtocol.ToolDefsFailsLater | octopus/mcp/protocol.py:110-115 | a tool without a name fails the whole listing with its error |
| McpProtocol.TextOfFailsLater | octopus/mcp/protocol.py:136-138 | an item that fails fails the whole text with its error |
| InternalFsServer.Unquoted | octopus/tools/internal_fs_server.py:133-134 | one pair of matching surrounding quotes is removed; anything else is left alone |
| InternalFsServer.CleanArg | octopus/tools/internal_fs_server.py:123-147 | a falsy argument is ""; the result never has whitespace at either end and is never longer than the argument's text |
| InternalFsServer.StripTrimmed | octopus/tools/internal_fs_server.py:135 | stripping an already trimmed text changes nothing |
| InternalFsServer.CleanArgKeepsPlain | octopus/tools/internal_fs_server.py:123-147 | a trimmed, unquoted argument comes back unchanged |
| InternalFsServer.CleanArgUnquotes | octopus/tools/internal_fs_server.py:127-135 | a quoted trimmed text comes back without its quotes |
| InternalFsServer.ResolvePythonCommand | octopus/tools/internal_fs_server.py:104-121 | only a command starting with `python` or `python3`, when `python` is not on the path, is rewritten, with `py`, `python3` or the running interpreter in its place |
| InternalFsServer.RewriteKeepsArguments | octopus/tools/internal_fs_server.py:110-119 | a rewritten command splits into the interpreter followed by the original arguments, word for word |
| InternalFsServer.InterpreterIsWord | octopus/tools/internal_fs_server.py:113-119 | the substituted interpreter is a single non-empty word |
| InternalFsServer.GlobText | octopus/tools/internal_fs_server.py:259-265 | no files gives the fixed message; up to 100 files are listed one per line; more shows the first 100 and then "... (n more)" with n the number of files left out |
| InternalFsServer.GlobListsFirstHundred | octopus/tools/internal_fs_server.py:264 | every one of the first 100 paths appears in the listing |
| InternalFsServer.ShellText | octopus/tools/internal_fs_server.py:326-332 | the text of a finished command starts with its exit code and the stdout header |
| InternalFsServer.CallOutcome | octopus/tools/internal_fs_server.py:149-347 | a name that is none of the six tools gives "Unknown tool: ..." with the error flag |
| InternalFsServer.HandleCallTool | octopus/tools/internal_fs_server.py:149-357 | the call is answered exactly when its params are a dict, with the outcome framed as one text item and the error flag |
| InternalFsServer.EmptyPatternRefused | octopus/tools/internal_fs_server.py:270-275 | an empty search pattern is refused without looking at the file system |
| InternalFsServer.CallToolTextRoundTrip | octopus/tools/internal_fs_server.py:349-357 | what the client's `call_tool` reads back from the answer is exactly the outcome's text |
| InternalFsServer.ToolEntries | octopus/tools/internal_fs_server.py:29-102 | one entry per handled tool, in the listed order, each found under "name" with the name of its tool |
| InternalFsServer.RequiredAreDeclared | octopus/tools/internal_fs_server.py:29-102 | every argument a tool requires is one of the properties its schema declares |
| InternalFsServer.InitializeAgrees | octopus/tools/internal_fs_server.py:373-378 | the server answers `initialize` with the protocol revision the client asks for |
| InternalFsServer.EntryName | octopus/tools/internal_fs_server.py:33 | each entry is found under its name |
| InternalFsServer.ListedToolsAreHandled | octopus/tools/internal_fs_server.py:29-102 | a client reading the tool list gets one definition per handled tool, in order, each of which the server dispatches |
| InternalFsServer.MethodResult | octopus/tools/internal_fs_server.py:373-386 | a result comes only for `initialize`, `tools/list` or `tools/call`; only `tools/call` can fail |
| InternalFsServer.Step | octopus/tools/internal_fs_server.py:365-389 | a reply is written only for a request method with a non-null id |
| InternalFsServer.ReplyShape | octopus/tools/internal_fs_server.py:368-371 | a reply carries version "2.0" and the request's id |
| InternalFsServer.NoReplyWithoutRequest | octopus/tools/internal_fs_server.py:383-389 | notifications, unknown methods and messages without an id get no reply |
| InternalFsServer.Turn | octopus/tools/internal_fs_server.py:361-364 | a line that does not decode and a falsy message (an empty dict among them) end the loop; a truthy message that is not a dict crashes it; a dict goes on with the reply its step gives, or ends with the step's error |
| InternalFsServer.Served | octopus/tools/internal_fs_server.py:359-389 | never more replies than input lines |
| InternalFsServer.ServedNext | octopus/tools/internal_fs_server.py:361-389 | a stopping line ends the run; any other line adds its reply in front of the rest |
| InternalFsServer.Serve | octopus/tools/internal_fs_server.py:359-389 | the read-dispatch loop writes the replies `Served` describes and stops for the same reason |
| InternalFsServer.RepliesFromTurns | octopus/tools/internal_fs_server.py:361-389 | every reply is what one line's turn wrote |
| InternalFsServer.RepliesAnswerRequests | octopus/tools/internal_fs_server.py:365-389 | every reply answers a decoded dict message with a non-null id and a request method |
| Session.Kept | octopus/core/session.py:346-368 | a name filter never lengthens the tool list |
| Session.KeptMember | octopus/core/session.py:346-368 | a tool is kept exactly when it is one of the input tools and its name passes the test |
| Session.KeptAppend | octopus/core/session.py:346-368 | filtering distributes over concatenation, so kept tools keep their relative order |
| Session.RoleTools | octopus/core/session.py:152-156 | a role with an empty allowed list gets no tools |
| Session.RoleToolsMember | octopus/core/session.py:147-163 | a tool is kept exactly when it is one of the input tools and its name is in the role's allowed list |
| Session.FilterToolsByRole | octopus/core/session.py:147-163 | the loop returns exactly `RoleTools`: the allowed tools in their order, none for an empty list |
| Session.ToolsForMode | octopus/core/session.py:337-370 | the mode's tools are never more than the session's tools |
| Session.ToolsForModeMember | octopus/core/session.py:337-370 | a tool is offered in a mode exactly when the mode table allows its name: PLAN read-only tools and `ask_user`; EXECUTE read-only tools and `delegate_task` for the architect, everything but `ask_user` for other roles; REVIEW read-only tools |
| Session.ToolsForModeAppend | octopus/core/session.py:346-368 | the mode's tools keep the session's order |
| Session.ModeToolConsequences | octopus/core/session.py:337-370 | `ask_user` is offered only in PLAN; `write_file` and `run_shell_command` only in EXECUTE and never to the architect |
| Session.PrunedMessage | octopus/core/session.py:381-404 | a pruned message is still a message dict |
| Session.PrunedPrefix | octopus/core/session.py:378-406 | pruning a prefix gives one message per message |
| Session.PruneHistory | octopus/core/session.py:372-406 | the loop returns exactly the pruning specification over the whole history |
| Session.PrunedFailsLater | octopus/core/session.py:381-404 | once a message cannot be pruned, the whole pruning fails with that error |
| Session.PrunedAt | octopus/core/session.py:381-404 | each pruned message is the pruning of the message at the same place, recent or not by its index |
| Session.PruneSpec | octopus/core/session.py:372-406 | pruning keeps the length; system messages and the last `keep` messages are unchanged; an old tool message with content over 500 characters gets its two 200-character ends and the length as content, every other field kept; any other message, old user, assistant and short tool messages among them, is kept as it is |
| Session.DigitsBound | octopus/core/session.py:398 | a number has at most one more decimal digit than a tenth of its value |
| Session.TruncationShrinks | octopus/core/session.py:396-398 | the replacement content is shorter than the content it replaces |
| Session.TruncatedContent | octopus/core/session.py:398 | the replacement starts with the first 200 characters, the marker and the original length, and ends with the last 200 characters |
| Session.TallySum | octopus/core/session.py:302-309 | starting from an empty dict, every key holds exactly the sum of what was added under it |
| Session.FallbackProvider | octopus/core/session.py:311-315 | a fallback provider never has the current name |
| Session.FallbackIsFirst | octopus/core/session.py:311-315 | there is no fallback exactly when every provider has the current name; otherwise it is the first provider in configuration order that does not |
| Session.InWordsIff | octopus/core/session.py:420-423 | the word-list test is list membership |
| Session.Approves | octopus/core/session.py:420-423 | an answer approves exactly when its stripped, lower-cased text is one of the approval words |
| Session.ShortAnswer | octopus/core/session.py:490-493 | an input is a short answer exactly when its stripped, lower-cased text has fewer than five characters or is one of the command words |
| Session.NeverReview | octopus/core/session.py:408-474 | starting in PLAN and moving only from PLAN to EXECUTE, the session never reaches REVIEW |
| Session.DelegationBumps | octopus/core/session.py:768 | each delegation of a message adds one to the count of its target role |
| Session.BumpsCount | octopus/core/session.py:768 | the counts added for a role add up to the number of delegations to it |
| Session.DelegationQuota | octopus/core/session.py:766-773 | within one user message, a delegation is refused exactly when its role already had three delegations before it |
| Session.FourthDelegationRefused | octopus/core/session.py:766-773 | of four delegations to one role in one message, the first three go ahead and the fourth is refused |
| Session.OctopusSession.constructor | octopus/core/session.py:41-87 | a new session is in PLAN mode with nothing approved, asked or delegated, no pending question, and only the role's system prompt in its history |
| Session.OctopusSession.StartInput | octopus/core/session.py:325-328 | each user message clears the abort flag, the delegation counts and the post-approval question count |
| Session.OctopusSession.BeginTurn | octopus/core/session.py:408-500 | the mode only stays or moves from PLAN to EXECUTE; no question is pending afterwards; the new state is the answered-question state when a question was pending, and the new-input state otherwise |
| Session.OctopusSession.AnswerQuestion | octopus/core/session.py:410-449 | the answer becomes the result of the pending `ask_user` call; an approval word under a plan-approval question switches to EXECUTE with the EXECUTE instruction, anything else adds the plan feedback and stays in PLAN |
| Session.OctopusSession.NewInput | octopus/core/session.py:451-500 | a text approval of a question asked in plain text in PLAN switches to EXECUTE; an input that is not a short answer opens a task when none is open; the input joins the history (twice after a text approval, as written) |
| Session.OctopusSession.NoteTextQuestion | octopus/core/session.py:632-678 | with `AsksInText` as its specification predicate (some phrase of lines 634-655 occurs in the lower-cased reply): a reply asking for approval in text is remembered in PLAN; in EXECUTE it adds the blocking system message, counts one more post-approval question and skips the reply's tool calls; otherwise nothing changes |
| Session.OctopusSession.AskUser | octopus/core/session.py:687-742 | the question is put to the user exactly in PLAN, for a plan approval, under a non-autonomous role, within two questions, and then ends the turn; in every other case the call gets the refusal text as its result, and the counts change as the source counts them |
| Session.OctopusSession.Delegate | octopus/core/session.py:763-780 | the target role's count goes up by one; beyond three the call is refused with the error result, otherwise the to-do id is "task_<role>_<count>" |
| Session.OctopusSession.UpdateStats | octopus/core/session.py:297-309 | without usage nothing changes; otherwise the total tokens (0 when missing) are added for the model, and for "role:model" when a role is given |
| Commands.PutAllLookup | octopus/core/commands.py:130-131 | after storing a command under a list of keys, exactly those keys lead to it and every other key is as before |
| Commands.RegisterLookup | octopus/core/commands.py:108-131 | after `register`, the name and every alias lead to the new command, and every other key is as before |
| Commands.ParseCommand | octopus/core/commands.py:143-152 | no command exactly when the input does not start with "/" or has no word after it; the name is the lower-cased first word; the arguments are the rest of the text after that word with leading whitespace removed, and split into the remaining words |
| Commands.LStripIdempotent | octopus/core/commands.py:147 | stripping leading whitespace twice is stripping it once |
| Commands.SplitOnceWords | octopus/core/commands.py:147-152 | `split(maxsplit=1)` is empty exactly when a full split is; its first part is the first word, and its rest splits into the remaining words |
| Commands.FirstWord | octopus/core/commands.py:147-151 | when there is a word, both splits start with it |
| Commands.RestWords | octopus/core/commands.py:147-152 | the rest after the first word splits into the remaining words of the full split |
| Commands.SplitLStrip | octopus/core/commands.py:147 | leading whitespace does not change a split |
| Commands.StyleCommand | octopus/core/commands.py:254-279 | the style switches exactly when the stripped, lower-cased argument is one of the three styles, and to that style; an empty argument shows the current style and the choices; anything else is an error |
| Commands.StyleChoice | octopus/core/commands.py:256-279 | for a normalised name: empty shows the styles, a known style is set, anything else is refused with the error text |
| Commands.ResetCommand | octopus/core/commands.py:386-408 | the session is reset exactly when the stripped, lower-cased argument is "confirm"; otherwise the warning is shown |
| Commands.Listed | octopus/core/commands.py:203-207 | the listing has at most as many commands as the table has entries |
| Commands.ListedOnce | octopus/core/commands.py:199-212 | each command name is listed once; every command of the table has its name listed; everything listed is a command of the table |
| Commands.ListedStep | octopus/core/commands.py:204-207 | one more table entry adds its command to the listing exactly when its name was not seen yet |
| Commands.LinesSnoc | octopus/core/commands.py:207-212 | listing one more command adds its line at the end and its name to the names seen |
| Commands.HelpCommand | octopus/core/commands.py:180-215 | no argument shows the full listing; an argument shows a command's detailed help, and is an error exactly when the stripped name, without a leading "/", is not registered |
| Commands.SlashCommandRegistry.constructor | octopus/core/commands.py:31-106 | the table is the nine built-in commands registered in order; each of their names and aliases leads to the command that owns it, and no other key is registered |
| Commands.RegisterAllLookup | octopus/core/commands.py:108-131 | after registering a list of commands, a key leads to the last command that answers to it, or to what the table held before when none does |
| Commands.NewCommand | octopus/core/commands.py:108-126 | `register` keeps the name, description and handler; missing aliases become none; an empty usage becomes "/name" |
| Commands.OwnerAnswers | octopus/core/commands.py:31-106 | a built-in command answers to a key exactly when it is the owner of that key |
| Commands.BuiltinTable | octopus/core/commands.py:31-106 | in the built-in table a key leads to the command of its owner, and a key no built-in answers to is absent |
| Commands.BuiltinKeys | octopus/core/commands.py:31-106 | the built-in table, for every key at once: a key leads to the command of its owner, and a key no built-in answers to is absent |
| Commands.SlashCommandRegistry.Register | octopus/core/commands.py:108-131 | the table becomes the old one with the new command stored under its name and then under each alias; every key still leads to a command that answers to it |
| Commands.SlashCommandRegistry.Execute | octopus/core/commands.py:133-165 | input is left unhandled exactly when it does not parse as a command; an unregistered name gives the "Unknown command" error, whose text `UnknownText` spells out as at line 164; a registered name runs its command's handler with the argument text and the current style |
| Commands.SlashCommandRegistry.Dispatch | octopus/core/commands.py:155-161 | a registered command is always handled |
| Commands.SlashCommandRegistry.FullHelp | octopus/core/commands.py:199-215 | the loop over the table with its set of seen names builds exactly the full listing `HelpPage`, the specification function of the header, one line per distinct command and the footer |
| SubAgent.SubTools | octopus/core/sub_agent.py:34-44 | the sub-agent's tool list is no longer than the session's tool list |
| SubAgent.SubToolsMember | octopus/core/sub_agent.py:34-44 | a tool is offered exactly when it is in the session's tools, not excluded for the role and in the role's allowed list; `ask_user` is never offered, and `delegate_task` never to a reviewer or developer |
| SubAgent.NoAllowedNoTools | octopus/core/sub_agent.py:39 | a role without allowed tools gets no tools |
| SubAgent.ToolResult | octopus/core/sub_agent.py:96-101 | a call whose name is missing or has no server yields "Error" |
| SubAgent.CallStep | octopus/core/sub_agent.py:70-117 | a call fails with the `items` AttributeError exactly when its arguments do not decode to an object; otherwise it appends exactly the tool message carrying the tool's result, sets the placeholder flag exactly when it was set or the call is a `read_file` whose non-empty result mentions a placeholder, replaces the captured output exactly when the call is a `run_shell_command` whose result contains "STDOUT", and keeps the text result |
| SubAgent.CallsRunOk | octopus/core/sub_agent.py:70-86 | the calls of one turn all run exactly when every call's arguments decode to an object |
| SubAgent.CallsRunPlaceholder | octopus/core/sub_agent.py:103-108 | after the calls of one turn the placeholder flag is set exactly when it was set before or some `read_file` call's result mentions a placeholder |
| SubAgent.CallsRunCaptured | octopus/core/sub_agent.py:110-111 | after the calls of one turn the captured output is the result of the last `run_shell_command` call that contains "STDOUT", or the earlier capture when there is none |
| SubAgent.SelectResult | octopus/core/sub_agent.py:119-139 | the result is never empty; a placeholder gives the rejection text; otherwise a non-empty result file wins; with no result file a non-empty final answer is the result; then captured shell output; then the last message's truthy content as text; with none of these, "No result produced." |
| SubAgent.RunSubAgentLoop | octopus/core/sub_agent.py:2-139 | the loop returns exactly what the specification `SubAgentRun` gives: the bounded sequence of turns, then the result selection |
| SubAgent.SubAgentRun | octopus/core/sub_agent.py:2-139 | the specification of the sub-agent loop: a run that does not fail reports a non-empty result, and an aborted run or one with no iterations never fails |
| SubAgent.CallsRunExtends | octopus/core/sub_agent.py:70-117 | the calls of one turn append one message each, keep the earlier messages as a prefix and never clear the placeholder flag |
| SubAgent.LoopExtends | octopus/core/sub_agent.py:24-117 | over the whole loop the sub-conversation only grows and a flagged placeholder stays flagged |
| SubAgent.PlaceholderRejects | octopus/core/sub_agent.py:103-108 | once a placeholder is flagged the delegated task is rejected, whatever the later turns do |
| SubAgent.QuietRunKeepsLastText | octopus/core/sub_agent.py:60-67 | when every remaining turn is text only, each adds its reply and the text of the last one becomes the result |
| OutputStyles.LookupStyle | octopus/core/output_styles.py:33-67 | a configuration exists exactly for "minimal", "balanced" and "detailed", each with the level of its own name |
| OutputStyles.ShowFlag | octopus/core/output_styles.py:113-124 | an element without a `show_` flag is shown; the detailed style shows every element; the minimal style shows exactly the elements without a flag |
| OutputStyles.OutputStyleManager.ShouldShow | octopus/core/output_styles.py:113-124 | `should_show` shows an element without a flag, shows everything under the detailed style, and under the minimal style only elements without a flag |
| OutputStyles.ArgsText | octopus/core/output_styles.py:168-170 | the joined `key=repr` pairs when they fit in 80 characters; otherwise their first 80 characters followed by "..." |
| OutputStyles.OutputStyleManager.constructor | octopus/core/output_styles.py:84-87 | the given name is kept; the configuration is that style's, or the balanced one for an unknown name |
| OutputStyles.OutputStyleManager.SetStyle | octopus/core/output_styles.py:89-103 | the result is true exactly for a known name; then name and configuration switch to it, otherwise both are unchanged |
| OutputStyles.OutputStyleManager.Truncate | octopus/core/output_styles.py:126-146 | text within the limit (twice the style maximum for code), or under a style that does not truncate, is returned as is; longer text keeps its first limit characters followed by the marker giving the number of characters dropped |
| OutputStyles.OutputStyleManager.FormatToolCall | octopus/core/output_styles.py:148-178 | the display always starts with the bold tool name and is only the name when neither arguments nor result are shown; shown arguments follow the name in parentheses as `ArgsText`; a shown result ends the display after a new line and "  -> ", truncated as a result |
| OutputStyles.OutputStyleManager.FormatReasoning | octopus/core/output_styles.py:180-199 | reasoning is hidden exactly when the style hides it; otherwise it is the truncated text, prefixed with "[model] " when model info is shown and a model id is given |
| OutputStyles.TruncateKeepsPrefix | octopus/core/output_styles.py:144-146 | truncated text starts with the first limit characters of the original |
| OutputStyles.TruncatesBeyondLimit | octopus/core/output_styles.py:137-146 | only the detailed style never truncates; the other two cut text beyond the limit, and the cut is marked by a new line right at the limit; text that fits as a result also fits as code, whose limit is doubled |
| TaskHistory.KeepLast | octopus/core/task_history.py:40-42 | a history longer than fifty keeps exactly its last fifty entries; a shorter one is kept whole |
| TaskHistory.CappedSummary | octopus/core/task_history.py:50-51 | a stored summary has at most 203 characters, starts with the first 200 characters of the given one, and is the given one when that is at most 200 long |
| TaskHistory.FirstWithId | octopus/core/task_history.py:47-48 | the index found holds the id and no earlier entry does; none found means no entry holds the id |
| TaskHistory.UpdateTouchesFirstMatch | octopus/core/task_history.py:46-53 | the update keeps the length and every entry with another id; an entry with the id gets the new status, unless an earlier entry had the id, in which case it is unchanged; the first entry with the id gets the new status and, when the summary is non-empty, that summary as stored (`CappedSummary`: at most 200 characters, then "..."), and keeps every other field; with no such entry the history is unchanged |
| TaskHistory.StatusUpdated | octopus/core/task_history.py:46-53 | the specification of `update_status`: the history keeps its length, and every entry keeps its id and its prompt |
| TaskHistory.Incomplete | octopus/core/task_history.py:55-57 | the result holds exactly the in-progress tasks of the history |
| TaskHistory.ReversedAppend | octopus/core/task_history.py:57 | reversing a concatenation reverses and swaps its parts |
| TaskHistory.InProgressAppend | octopus/core/task_history.py:57 | the in-progress filter distributes over concatenation |
| TaskHistory.IncompleteIsReversedFilter | octopus/core/task_history.py:55-57 | the incomplete tasks are the in-progress tasks in history order, reversed (newest first) |
| TaskHistory.Deleted | octopus/core/task_history.py:59-61 | the result is no longer than the history and holds exactly the tasks matching the key neither by id nor by timestamp text |
| TaskHistory.DeleteIdempotent | octopus/core/task_history.py:59-61 | deleting twice by the same key is the same as deleting once |
| TaskHistory.DeleteAbsent | octopus/core/task_history.py:59-61 | a key that no task matches leaves the history unchanged |
| TaskHistory.TaskHistory.constructor | octopus/core/task_history.py:8-10 | the history starts as the loaded list |
| TaskHistory.TaskHistory.AddTask | octopus/core/task_history.py:28-44 | the id is the millisecond clock reading as text; the new entry is appended, with an empty result summary, and the history is cut to its last fifty entries; the new entry is the last one |
| TaskHistory.TaskHistory.UpdateStatus | octopus/core/task_history.py:46-53 | the search loop leaves the history as `StatusUpdated` describes: only the first entry with the id changes |
| TaskHistory.TaskHistory.GetIncompleteTasks | octopus/core/task_history.py:55-57 | the result holds exactly the in-progress tasks of the history |
| TaskHistory.TaskHistory.DeleteTask | octopus/core/task_history.py:59-62 | the history becomes `Deleted` of the old history |
| TaskHistory.TaskHistory.ClearHistory | octopus/core/task_history.py:64-67 | the history becomes empty |
| TrajectoryLogger.Clash | octopus/core/trajectory_logger.py:35-42 | the metadata key found collides with a name `log_decision` binds itself; none found means no key collides |
| TrajectoryLogger.DecisionBumps | octopus/core/trajectory_logger.py:98-99 | one count of 1 per step, under that step's decision point, in step order |
| TrajectoryLogger.CountOf | octopus/core/trajectory_logger.py:98-99 | a decision point is counted at most once per step |
| TrajectoryLogger.TotalPut | octopus/core/trajectory_logger.py:99 | storing a count changes the sum of the counts by the difference from the old count |
| TrajectoryLogger.SumForCounts | octopus/core/trajectory_logger.py:98-99 | the counts bumped for a decision point add up to the number of steps with that decision point |
| TrajectoryLogger.CountsAreExact | octopus/core/trajectory_logger.py:97-99 | each decision point's count is the number of steps that have it, and the counts add up to the number of steps |
| TrajectoryLogger.TrajectoryLogger.constructor | octopus/core/trajectory_logger.py:27-33 | a new logger has the session id, the start time and an empty trajectory |
| TrajectoryLogger.TrajectoryLogger.LogDecision | octopus/core/trajectory_logger.py:35-52 | exactly one step, carrying the given fields and clock reading, is appended |
| TrajectoryLogger.TrajectoryLogger.LogToolCall | octopus/core/trajectory_logger.py:54-63 | a "tool_selection" step is appended whose metadata is the arguments followed by the extra metadata; an extra key that repeats a bound keyword raises and leaves the trajectory unchanged |
| TrajectoryLogger.TrajectoryLogger.LogError | octopus/core/trajectory_logger.py:65-73 | an "error_handling" step is appended with the four recovery options, the recovery action (or "unknown" when empty) as choice and the error message as reasoning |
| TrajectoryLogger.TrajectoryLogger.GetSummary | octopus/core/trajectory_logger.py:92-107 | an empty trajectory gives just a zero total; otherwise the number of steps, the elapsed time, the exact per-decision counts and the first and last decision points |
| Environment.PythonCommand | octopus/tools/environment.py:38 | `which("python")` when it is truthy, otherwise whatever `which("python3")` gives |
| Environment.ShellFor | octopus/tools/environment.py:54-75 | PowerShell exactly on Windows, bash exactly on Linux and Darwin, no shell on any other OS |
| Environment.ManagerFor | octopus/tools/environment.py:53-78 | the manager found is one with an install template; chocolatey is preferred over winget on Windows, apt (apt-get or apt) comes first on Linux, homebrew only on Darwin; on Linux yum, dnf and pacman are chosen exactly when found and every manager before them in the order apt-get/apt, yum, dnf, pacman is missing; no Linux manager means none of them was found; an OS other than Windows, Linux and Darwin has no manager |
| Environment.CheckEnvironment | octopus/tools/environment.py:14-80 | the report carries the OS, its version and architecture, the shell of that OS and the detected package manager; the Python executable is `python` when found, else `python3`, else none, and the version reported is that executable's |
| Environment.ManagerMatchesShell | octopus/tools/environment.py:53-78 | a detected package manager implies a known shell; chocolatey and winget imply PowerShell; homebrew implies Darwin |
| Environment.Template | octopus/tools/environment.py:100-119 | every install command contains the package name |
| Environment.InstallCommand | octopus/tools/environment.py:97-121 | a command exists exactly for the seven known managers; it names the package, or under winget its winget id |
| Environment.GetInstallCommand | octopus/tools/environment.py:83-97 | without environment information the machine is probed and its manager used; a command is then returned exactly when a manager was detected |
| Environment.WingetPassThrough | octopus/tools/environment.py:103-109 | a package without a winget id is installed under its own name |
| Environment.ManualUrl | octopus/tools/environment.py:141-146 | a download page is suggested exactly for the three OSes that have a shell |
| Environment.SuggestPythonInstall | octopus/tools/environment.py:124-148 | the suggestion reports the OS, its package manager, the install command for "python3" under that manager and the OS's download page |
| Environment.ManualUrlOnlyOs | octopus/tools/environment.py:141-146 | the suggested download page depends on the OS alone |
| TuiApp.ShellInput.constructor | octopus/tui_app.py:135-139 | a new input line has an empty history, is not browsing it, and has no saved input |
| TuiApp.ShellInput.HistoryUp | octopus/tui_app.py:141-149 | with no history nothing changes; the first press saves the typed input and shows the newest entry; later presses move to older entries, stopping at the oldest; the cursor goes to the end |
| TuiApp.ShellInput.HistoryDown | octopus/tui_app.py:151-159 | when not browsing nothing changes; past the newest entry browsing ends and the saved input returns; otherwise the next newer entry is shown; the cursor goes to the end |
| TuiApp.ShellInput.AddToHistory | octopus/tui_app.py:161-165 | a non-empty command is kept unless it repeats the last one, so no entry repeats its predecessor; browsing ends |
| TuiApp.TimerParts | octopus/tui_app.py:515-516 | hours, minutes and seconds recompose the elapsed seconds, with minutes and seconds below 60 |
| TuiApp.TimerText | octopus/tui_app.py:512-520 | the timer shows hours only when there is at least one, each part padded to two digits |
| TuiApp.TimerWidth | octopus/tui_app.py:517-520 | under an hour the timer is "MM:SS"; from one hour to a hundred it is "HH:MM:SS" |
| TuiApp.NatToStringInjective | octopus/tui_app.py:635 | different numbers print differently |
| TuiApp.StepIdInjective | octopus/tui_app.py:634-635 | different step numbers give different ids |
| TuiApp.StepDisplay | octopus/tui_app.py:638-650 | a shell step shows its command cut to 77 characters plus "..." when longer than 80; another tool shows its name; otherwise the text |
| TuiApp.RemoveTags | octopus/tui_app.py:746 | removing tags never lengthens the text |
| TuiApp.StreamDisplay | octopus/tui_app.py:750-752 | up to 500 characters are shown whole; longer text shows "..." and its last 500 characters |
| TuiApp.ActivityWidget.constructor | octopus/tui_app.py:621-630 | a new panel has no steps and is not streaming |
| TuiApp.ActivityWidget.AddStep | octopus/tui_app.py:632-660 | each step gets a fresh "step_N" id never used before, its text is filed under it, it becomes the current step and its display line is mounted |
| TuiApp.ActivityWidget.StartStreaming | octopus/tui_app.py:728-735 | the buffer starts as the prefix and the label shows it, or "..." |
| TuiApp.ActivityWidget.AppendStreaming | octopus/tui_app.py:737-758 | the buffer grows by the text (restarted when streaming was off) and the label shows the tail of the buffer cleaned as intended (see Findings); for a buffer without '<' this is also the label of the code as written |
| TuiApp.ActivityWidget.EndStreaming | octopus/tui_app.py:760-773 | the whole buffer is handed back, the buffer is emptied and streaming stops |
| TuiApp.RemoveTagsPlain | octopus/tui_app.py:746 | text without '<' passes through tag removal unchanged |
| TuiApp.NoTagIn | octopus/tui_app.py:746-747 | text without '<' holds no opening tag |
| TuiApp.CleanAsWrittenShowsCode | octopus/tui_app.py:744-747 | as written, tags are removed before blocks are replaced, so a complete tool-call block shows its code |
| TuiApp.CleanStreamHidesCode | octopus/tui_app.py:744-747 | replacing blocks first shows a complete tool-call block as "[tool call]" |
| TuiApp.CleanAgreeOnPlainText | octopus/tui_app.py:746-747 | both cleanings leave text without '<' unchanged |
| TuiApp.CleanAsWritten | octopus/tui_app.py:746-747 | cleaning as written never lengthens the buffer |
| TuiApp.CleanStream | octopus/tui_app.py:744-747 | cleaning as intended never lengthens the buffer |
| TuiApp.HideBlocksShrinks | octopus/tui_app.py:747 | replacing each tool-call block by "[tool call]" never lengthens the text |
| TuiApp.RStripSlash | octopus/tui_app.py:899 | the result has no trailing slash, is a prefix of the input, and everything dropped is a slash |
| TuiApp.ModelsUrl | octopus/tui_app.py:891-915 | a model-list URL exists exactly for openai, deepseek, openrouter and anthropic, and ends in "/models"; anthropic has a fixed URL; a configured base URL is used, otherwise openai uses https://api.openai.com/v1, deepseek https://api.deepseek.com, and openrouter gives a bare "/models" |
| TuiApp.ModelsEndpoint | octopus/tui_app.py:899-903 | the endpoint ends in "/models"; a base already ending so is only stripped of trailing slashes; otherwise an openai base not ending in "/v1" gets "/v1/models" appended, and any other base "/models" |
| TuiApp.ModelsEndpointIdempotent | octopus/tui_app.py:899-903 | feeding the endpoint back in as the base URL gives the same endpoint |
| TuiApp.OpenAIInsertsV1 | octopus/tui_app.py:899-903 | an openai host with a trailing slash gets "/v1/models" in place of the slash |
| TuiApp.ExitZeroIsNoError | octopus/tui_app.py:2400-2407 | a report of exit code 0 is an error only through the markers or the metadata flag |
| TuiApp.IsToolError | octopus/tui_app.py:2400-2408 | "Error:", "Failed" or "Exception" in the content, or a truthy `is_error` flag, always mark an error; without "exit code" in the content nothing else does |
| TuiApp.OtherExitCodeIsError | octopus/tui_app.py:2405-2407 | any mention of an exit code other than 0 marks an error |
| CleanupTasks.PromptOf | cleanup_tasks.py:30 | a task object without "prompt" reads as ""; a string prompt is read as is; the read fails exactly when the task is not an object or its prompt is not a string |
| CleanupTasks.Verdict | cleanup_tasks.py:30-42 | a task is kept exactly when its prompt can be read and is not trash by its specification predicate `IsTrash`, the `is_trash` test of lines 34-40 (under four characters once stripped, an ignore keyword once lower-cased, or starting with "odp"); an unreadable prompt gives the reading error |
| CleanupTasks.Cleanup | cleanup_tasks.py:26-45 | the loop returns the tasks that the verdict keeps, or the error of the first task it cannot judge; the removed count plus the kept count is the number of tasks |
| CleanupTasks.KeptFailsLater | cleanup_tasks.py:29-30 | once a task raises, the whole clean-up raises with that same error |
| CleanupTasks.KeptMembers | cleanup_tasks.py:42-45 | a task is in the result exactly when it is one of the input tasks and the verdict keeps it |
| CleanupTasks.CleanupKeepsTasks | cleanup_tasks.py:8-45 | the result holds exactly the input tasks whose prompt is readable and not trash |
| CleanupTasks.KeptReadable | cleanup_tasks.py:29-30 | a successful clean-up could judge every input task |
| CleanupTasks.KeptInOrder | cleanup_tasks.py:42-43 | the kept tasks are a subsequence of the input: relative order is preserved |
| CleanupTasks.NoPromptDropped | cleanup_tasks.py:30-36 | a task without a prompt is removed, since "" is shorter than four characters |
| CleanupTasks.UnreadableStops | cleanup_tasks.py:30 | if every earlier task is readable and this one is not, the clean-up fails with this task's error |
| CleanupTasks.CleanupIdempotent | cleanup_tasks.py:29-45 | cleaning an already cleaned list returns that list unchanged |
| PatchSession.Rewrite | patch_session.py:166-192 | the loop emits exactly the lines of the line-by-line specification `Output` from the start state (nothing inserted, nothing replaced, not skipping) |
| PatchSession.Step | patch_session.py:171-192 | one pass of the loop body: the inserted and replaced flags, once set, stay set; at most two lines come out; a line is dropped only while skipping, and dropping it changes no flag |
| PatchSession.OutputAppend | patch_session.py:171-192 | running two stretches of lines one after the other gives the concatenated output and the state after both |
| PatchSession.CopiedUnchanged | patch_session.py:186-192 | outside the skipped region, lines that trigger neither pending rewrite are copied unchanged and change no flag |
| PatchSession.SkippedDropped | patch_session.py:186-190 | while skipping, once the method is in and the branch replaced, lines without the `tools_map` marker are dropped |
| PatchSession.OneLine | patch_session.py:171-192 | a single line is one step of the loop body |
| PatchSession.Extend | patch_session.py:171-192 | running a stretch and one more line gives the stretch's output followed by that line's step |
| PatchSession.ThroughSkipped | patch_session.py:172-190 | up to the end of the old branch, the method text is inserted before the `process_user_input` line, the branch is replaced by the new text and its old lines are gone |
| PatchSession.Patched | patch_session.py:166-192 | on the usual layout the result is: lines before, the method text, the `process_user_input` line, the lines between, the new branch, then everything from the `tools_map` line on |
| PatchSession.SkipEnds | patch_session.py:186-192 | the `tools_map` line ends the skip and it and all later lines are copied |
| PatchSession.InsertedWhileSkipping | patch_session.py:172-190 | the insertion test runs before the skip test: a `process_user_input` line met while skipping is still emitted, preceded by the method text |
| PatchSession.SkippingWithoutMethod | patch_session.py:180-190 | while skipping before the method is in, lines without either marker are dropped |

## Left out

- Config.SaveLoadRoundTrip: is exact, entry order included, only for the document the model itself parses. `yaml.dump` at octopus/core/config_store.py:145 sorts mapping keys by default, so a reload from the written file returns the providers, MCP servers and roles in name order rather than in insertion order.
- Language-model calls: `completion`, streaming, chunk assembly and usage objects (octopus/llm/provider_manager.py:164-185, 256-298) are outside the model. Only the request sent and the post-processing of a reply are modelled.
- Subprocesses and I/O are reduced to the lines written and read:
  - the MCP server process (start, pipes, stderr, `stop`);
  - the shell commands and file operations of the file-system server (reading, writing and diffing files, listing and recovery search, glob, content search, running commands);
  - these appear only as the oracles of `InternalFsServer.Host`.
- `clean_arg`'s path normalisation through `Path.resolve` is not modelled. The model keeps the quote and whitespace cleaning.
- Persistence is not modelled:
  - the YAML reading and writing of the configuration, since `load` works on an already-parsed document;
  - loading and saving the task-history file;
  - saving the trajectory;
  - the backup and the file I/O of the clean-up script;
  - reading and writing the file in the patch script, whose inserted texts are parameters.
- `resume_session` (octopus/core/session.py:89-136) parses log files and is not modelled.
- The delegation sub-loop written inline in session.py (octopus/core/session.py:783-1090) is not modelled separately. It repeats the sub-agent loop of octopus/core/sub_agent.py, which is modelled.
- Other session start-up code is not modelled: MCP connection start-up, dynamic tool refresh, emergency tools, shutdown and abort. None of it makes a policy decision.
- The app-dependent slash-command handlers (`/clear`, `/todo`, `/model`, `/role`, `/status`, `/config` and the rest) act on the UI application. The model represents them only by which handler is selected (`Commands.Delegated`).
- A handler that raises is reported as "Command error"; the model does not raise from handlers.
- `check_similarity` and its duplicate warning use a floating-point `SequenceMatcher` ratio. Time-based ids, timestamps and durations are parameters.
- The random `call_...` ids of extracted tool calls are not modelled.
- `OutputStyleManager`'s plain accessors (`get_style`, `get_style_name`, `get_available_styles`) are not modelled.
- UI widgets, styling, mounting, timers and worker threads are not modelled. The Ollama model fetch and the models-directory scan are not modelled either. Only the state and text of the widgets listed above are kept.
- `PyStr.Lower` lower-cases ASCII letters only. Python's `str.lower` also folds other alphabets.
- Session.PrunedMessage: an old tool message whose content is a list of more than 500 items is formatted through `repr` in Python. The model has no `repr` of decoded values and reports this case as an error instead.
- Session.OctopusSession.UpdateStats: the per-model tallies and the per-role tallies are kept apart. In the source both live in one `session_stats` dictionary, so a model named "by_role" collides with the role table (octopus/core/session.py:297-309). A usage whose `total_tokens` is present but `None` makes the source raise on the addition; the model counts it as 0.
- Session.OctopusSession.Delegate: the delegation target is any JSON value used as a key. In the source an unhashable target (a list or an object) raises a `TypeError` when it is looked up in `delegation_counts` (octopus/core/session.py:766-768); the model counts it like any other target.
- TuiApp.ActivityWidget.AddStep: a shell step's command is modelled as a string. The source would also accept a non-string value and fail on its length.
- OllamaAdapters.ParseResponse: its own contract bounds only the number of calls. The order of the fallback calls is stated by `FallbackOrder`; the acceptance rules by `JsonAdapterNeedsBoth`, `XmlAdapterNeedsName` and, for the `<tool_code>` block path, `XmlAdapterOnBlock`.
- Config.DecodeProvider: a field that is present with the wrong type, or null (`default_model: null`, `default_model: 5`), is an error here. The untyped dataclass accepts it, so in the source the load goes on with the later entries. The typed records are what the sessions and the provider manager read; the round-trip lemmas are about such typed entries.
- Config.DecodeMcpServer: a present field of the wrong type or null is an error here, where the dataclass accepts it (as for `DecodeProvider`).
- Config.DecodeRole: a present field of the wrong type or null is an error here, where the dataclass accepts it (as for `DecodeProvider`).
- Config.ConfigStore.Load: because of the three decoders above, a document with a wrongly typed or null field stops loading at that entry. The source would load that entry and every later one, and the active role.
- MessageTypes.FromAny: pydantic's `extra: allow` (octopus/core/types.py:21-22) keeps unknown keys through validation and `to_dict`. The five-field message drops them.
- MessageTypes.FromAny: the `model_dump()`, `dict()` and `dict(msg)` branches for other message objects (octopus/core/types.py:34-44) are not modelled. Messages enter the model as decoded JSON values, so such objects (octopus/llm/provider_manager.py:118) appear as dicts.
- TuiApp.ActivityWidget.AppendStreaming: the label is built with the corrected cleaning `CleanStream`, not the tags-first order of the code as written (see Findings). For a buffer without '<' the two labels are the same, and the contract says so.
- The Ollama adapters' `prepare_messages` copies each message with a shallow `m.copy()` (octopus/core/adapters/ollama_adapters.py:25). When the system message's content is a list, `+=` at line 43 extends the caller's own list as well. Messages are values here, so the caller's messages never change.
- The progress and error messages printed by the scripts and by `_parse_xml_tool_calls` are not modelled.

## Findings

| source | as written | input that shows it | evidently intended | confidence | as-written member | corrected member |
|---|---|---|---|---|---|---|
| octopus/tui_app.py:744-747 | the streaming label removes every `<tool_code>` and `</tool_code>` tag before replacing whole tool-call blocks, so the block pattern can never match and a complete block is shown as its raw code | a streaming buffer of `<tool_code>ls</tool_code>` is shown as `ls` | a complete tool-call block is shown as "[tool call]", and only stray tags of an unfinished block are removed | not executed | TuiApp.CleanAsWrittenShowsCode | TuiApp.CleanStreamHidesCode |
