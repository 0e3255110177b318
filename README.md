# Academic-search agent: tool client and orchestration loop

A Dafny model of the two pieces of logic in this repository that sit on
top of imported libraries:

* **The result-normalising tool client** (`GiiispMCPClient` in
  `mcp_sdk.py`). It builds the endpoint URL `http://giiisp.com:<port>/sse`,
  checks the requested tool against the tool names the session
  discovers, calls the tool, and folds the content items of the answer
  into one value. Each text item becomes its parsed JSON, or its raw text
  when it is not JSON. Non-text items are dropped. No entry gives `None`,
  one entry gives that entry and more give the list. Every failure also
  gives `None`.
* **The agent** (`ClaudeAcademicAgent` in `claude_agent.py`). It covers:
  * the tool menu offered to the chat engine;
  * the fixed routing table that maps the eight menu names to a client,
    a remote tool and an argument adaptation with defaults;
    `execute_tool` maps each outcome to a payload;
  * the bounded `run` loop that keeps the conversation history;
  * `_trim_api_key` and the key checks of `main`.

Foreign parts become inputs:
* The SSE transport and the MCP session are a `Server` value per
  endpoint URL. It says whether connect and initialise succeed, which
  tool names are discovered, and which content the remote tool answers
  with.
* `json.loads` is a parameter `loads` with three outcomes: a value, a
  decode error, or any other exception.
* The chat API is an `Engine`: a function from the history sent to the
  reply, or to the exception raised.

Modules: `Values` (Python values, `Option`), `Sequences` (positions of
the elements that pass a test), `PyText` (`str(int)`, `str.replace`,
`str.strip`), `McpSdk` (`mcp_sdk.py`), `AgentTools` (menu, routing,
`execute_tool`), `ApiKey` (`_trim_api_key`, the checks of `main`) and
`ClaudeAgent` (history, `run`, `main`).

Two behaviours of `call_tool` worth noting:
* A tool name that is not found gives plain `None`. The discovered names
  are only printed, not returned.
* A transport failure also gives plain `None`, with no error object that
  names the service.

## Model

| member | source | states |
|---|---|---|
| `McpSdk.BaseUrl` | mcp_sdk.py:16 | definition: the prefix, str(port), then "/sse"; characterised by BaseUrlRoundTrip and BaseUrlInjective |
| `McpSdk.GiiispMCPClient.constructor` | mcp_sdk.py:13-16 | port and service name are stored unchanged (default name "Unknown"); base_url is "http://giiisp.com:" + str(port) + "/sse" |
| `McpSdk.BaseUrlRoundTrip` | mcp_sdk.py:16 | the port can be read back from the base URL |
| `McpSdk.BaseUrlInjective` | mcp_sdk.py:16 | distinct ports give distinct endpoint URLs |
| `PyText.NatToString` | mcp_sdk.py:16 | str of a natural number is a non-empty run of decimal digits in canonical form: "0" exactly for zero, and no leading zero otherwise |
| `PyText.IntToStringRoundTrip` | mcp_sdk.py:16 | parsing str(i) back gives i, negative ports included |
| `Sequences.Positions` | mcp_sdk.py:50-51 | the selected indices are strictly increasing, each passes the test, and no passing index is missed |
| `McpSdk.Extracted` | mcp_sdk.py:49-58 | definition: the fold of the content items into final_data, or None when json.loads raises something other than a decode error; characterised by ExtractedFails and ExtractedEntries |
| `McpSdk.Collapse` | mcp_sdk.py:60-66 | definition: no entry is None, one entry is that entry, more are the list; characterised by CallToolOutcome |
| `McpSdk.CallToolResult` | mcp_sdk.py:28-70 | a failing connect, initialise or list, a name not among the discovered names, or a failing call each give None |
| `McpSdk.ExtractedFails` | mcp_sdk.py:50-58 | the fold aborts exactly when some text item makes json.loads raise something other than a decode error |
| `McpSdk.ExtractedEntries` | mcp_sdk.py:49-58 | final_data has exactly one entry per text item, in response order: the parsed value when it is JSON, the unchanged raw text otherwise; non-text items add nothing |
| `McpSdk.CallToolOutcome` | mcp_sdk.py:49-70 | no text item gives None, one gives that entry itself, two or more give the ordered list of all entries; a non-decode failure of json.loads gives None |
| `McpSdk.CaseMismatchNotFound` | mcp_sdk.py:35-41 | "SearchWorks" against the discovered ["search_works"] is not found: no call, result None |
| `McpSdk.TwoTextItems` | mcp_sdk.py:49-66 | a JSON text, an image and a plain text give the two-element list [parsed, raw] in response order |
| `McpSdk.GiiispMCPClient.CallTool` | mcp_sdk.py:18-70 | the loop over the content yields CallToolResult against the server behind base_url; session.call_tool is reached exactly when every earlier stage succeeded and the name was discovered, and otherwise the result is None |
| `AgentTools.ClientUrlsDistinct` | claude_agent.py:38-47 | no two of the eight clients share an endpoint |
| `AgentTools.ToolDefinitions` | claude_agent.py:54-197 | the menu has eight entries with pairwise distinct names |
| `AgentTools.RouteOf` | claude_agent.py:209-259 | every route names a client that the client table holds |
| `AgentTools.RoutedNamesAreOffered` | claude_agent.py:209-259 | every name the routing table accepts is on the menu |
| `AgentTools.EntryAgrees` | claude_agent.py:54-259 | each menu entry is routed, and its schema agrees with its route: same required keys, exactly the keys sent in order, and the schema defaults (rows 5, count 10, pageSize 10, limit 5, retmax 10) are the defaults filled in |
| `AgentTools.OfferedNamesAreRouted` | claude_agent.py:54-259 | every menu entry is routed and agrees with its route |
| `AgentTools.MenuMatchesRouting` | claude_agent.py:54-262 | a name is routed if and only if the menu offers it |
| `AgentTools.FirstMissing` | claude_agent.py:242-246 | the reported key is the first required key, in dictionary order, that the input lacks; none is reported exactly when all are present |
| `AgentTools.AdaptedArgs` | claude_agent.py:209-258 | definition: the argument dictionary each route builds from tool_input, with the required keys copied and the optional key defaulted; characterised by AdaptedArgsContents |
| `AgentTools.AdaptedArgsContents` | claude_agent.py:209-259 | adapted arguments hold exactly the required keys plus the optional one; required values are copied verbatim, and a supplied optional value passes through unchanged, else the default is used |
| `Values.ErrorObject` | claude_agent.py:262 | an error payload is the dictionary with the single key "error" |
| `AgentTools.ExecuteTool` | claude_agent.py:199-274 | an unknown name gives {"error": "未知工具: <name>"}; a missing required key gives {"error": str(KeyError)}; a falsy result gives {"error": "未获取到数据"}; a truthy result is passed on |
| `AgentTools.NoCallBeforeRouting` | claude_agent.py:207-262 | for an unknown name or a missing key the payload does not depend on any service or on json.loads (no remote call) |
| `AgentTools.OneEndpointPerTool` | claude_agent.py:209-259 | a routed request depends only on the service behind its client's endpoint |
| `AgentTools.PayloadTruthy` | claude_agent.py:261-274 | execute_tool never raises and never hands the engine an empty payload |
| `PyText.RemoveAll` | claude_agent.py:374 | replace leaves no occurrence of the character, never lengthens the text, and keeps exactly the other characters that occur |
| `PyText.RemoveAllAppend` | claude_agent.py:374 | replace works piece by piece, so the characters that stay keep their order and their number |
| `PyText.RemoveAllAbsent` | claude_agent.py:374 | a text without the character comes back unchanged |
| `PyText.Strip` | claude_agent.py:374 | definition: drop the leading, then the trailing, characters that pass the test; characterised by StripShape |
| `PyText.StripShape` | claude_agent.py:374 | strip cuts a maximal run of the stripped characters from each end and keeps the middle slice unchanged |
| `ApiKey.TrimApiKey` | claude_agent.py:370-374 | definition: "" for None or "", otherwise replace, then the three strips; characterised by TrimApiKeySlice and TrimApiKeyEnds |
| `ApiKey.StripKey` | claude_agent.py:374 | definition: strip(), then strip('"'), then strip("'"); characterised by StripKeySlice, which TrimApiKeySlice builds on |
| `ApiKey.TrimApiKeySlice` | claude_agent.py:370-374 | None or "" give ""; otherwise the result is one slice of the BOM-free key, and only whitespace and quotes are cut from its ends |
| `ApiKey.TrimApiKeyEnds` | claude_agent.py:370-374 | the trimmed key holds no U+FEFF and neither starts nor ends with a single quote |
| `ApiKey.KeyCheck` | claude_agent.py:407-446 | main goes on exactly when the variable is set and non-empty and the trimmed key has at least 20 characters, and then it uses the trimmed key |
| `ClaudeAgent.FinalText` | claude_agent.py:325-328 | definition: the texts of the text blocks, concatenated in order; characterised by FinalTextAppend, and JoinText is proved equal to it |
| `ClaudeAgent.JoinText` | claude_agent.py:325-328 | the final_text loop yields the texts of the text blocks, concatenated in order |
| `ClaudeAgent.FinalTextAppend` | claude_agent.py:325-328 | the answer of a reply split in two is the two answers joined: order kept, non-text blocks add nothing |
| `ClaudeAgent.ToolResultsFor` | claude_agent.py:341-353 | definition: one tool_result per tool_use block, built from execute_tool; characterised by ToolResultsMatchBlocks, and DispatchTools is proved equal to it |
| `ClaudeAgent.ToolRound` | claude_agent.py:337-359 | definition: the assistant turn with the reply's blocks, then the user turn with the tool results; TakeToolRound is proved to append exactly it |
| `ClaudeAgent.ToolResultsMatchBlocks` | claude_agent.py:341-353 | exactly one tool_result per tool_use block, in block order, with the block's id and its own execute_tool payload |
| `ClaudeAgent.DispatchTools` | claude_agent.py:341-353 | the tool_results loop yields exactly ToolResultsFor of the reply's blocks, the list ToolResultsMatchBlocks characterises |
| `ClaudeAgent.ClaudeAcademicAgent.TakeToolRound` | claude_agent.py:335-359 | the tool_use branch appends exactly two turns: the assistant's blocks, then one user turn holding the tool results |
| `ClaudeAgent.Loop` | claude_agent.py:299-367 | definition: the remaining iterations of the while loop from a given history; characterised by LoopToolStep, LoopStops and LoopShape |
| `ClaudeAgent.RunSpec` | claude_agent.py:290-367 | definition: the history reset to the instruction, then the loop with max(max_iterations, 0) iterations; characterised by RunBounded, and Run is proved equal to it |
| `ClaudeAgent.LoopToolStep` | claude_agent.py:335-359 | after a tool_use reply the loop goes on from the history extended by that tool round, one engine call later, with one iteration fewer |
| `ClaudeAgent.LoopStops` | claude_agent.py:320-367 | with no budget left, or a reply other than tool_use, the run ends without touching the history; end_turn returns the joined text, any other stop reason returns "任务未完成（达到最大迭代次数）", an engine exception propagates |
| `ClaudeAgent.LoopShape` | claude_agent.py:297-367 | at most budget engine calls; the history only grows by whole tool rounds; the run ends either with the budget spent and the not-completed message or with one more call whose reply settles the outcome |
| `ClaudeAgent.RunBounded` | claude_agent.py:289-367 | a run makes at most max(max_iterations, 0) engine calls and keeps the instruction as the first turn; its history is at most 1 + 2·budget turns, and it holds only tool rounds after that turn |
| `ClaudeAgent.ResolveApiKey` | claude_agent.py:32 | definition: the argument when it is given and non-empty, else the environment's ANTHROPIC_API_KEY; the constructor's contract uses it |
| `ClaudeAgent.ResolveBaseUrl` | claude_agent.py:33 | definition: the argument when it is given and non-empty, else the environment's ANTHROPIC_BASE_URL, else "https://api.580ai.net/v1"; the constructor's contract uses it |
| `ClaudeAgent.ClaudeAcademicAgent.constructor` | claude_agent.py:26-35 | the key is the argument, else the environment's; the base URL is the argument, else the environment's, else "https://api.580ai.net/v1"; both arguments default to None; the history starts empty |
| `ClaudeAgent.ClaudeAcademicAgent.Run` | claude_agent.py:276-367 | the loop produces RunSpec's outcome, history and number of engine calls; max_iterations defaults to 10 |
| `ClaudeAgent.MainFlow` | claude_agent.py:401-467 | main stops before creating the agent exactly when the key check fails; otherwise it runs the instruction with 15 iterations, and the agent's chat client gets the trimmed key |

## Left out

- Printing, emoji logs, the console re-encoding and the event-loop policy are output only.
- `asyncio`: the code runs strictly in sequence, so calls are ordinary calls.
- The SSE transport, `ClientSession` and the Anthropic client are foreign libraries. They appear only as the `Server` and `Engine` inputs.
- `McpSdk.Server` and the `net` input are fixed for a whole run. The code opens a new connection and lists the tools again on every call, so a service can fail in one round and answer in the next, or answer the same query differently. The model cannot express either: each endpoint's reachability, tool list and answers are the same on every call, and `respond` is a function of the tool name and arguments alone. In particular, two identical tool requests in one run always get the same payload here.
- The model name, `max_tokens` and the tool menu are sent with every engine call. They are fixed, so the `Engine` input only receives the history.
- JSON text syntax is not modelled: `json.loads` is the `loads` parameter and `json.dumps` is not modelled. A payload is the value handed to `json.dumps`, and serialisation is assumed never to fail.
- Floating-point values are reals: no NaN, no infinities, no rounding.
- The free-text descriptions in the tool menu are text for the engine and have no behaviour.
- `AgentTools.AdaptedArgs`: arguments are a map, so the order of the dictionary's keys is not kept. The order of evaluation (which missing key is reported) is kept by `FirstMissing`.
- `McpSdk.GiiispMCPClient.CallTool`: exceptions raised while the connection and session context managers close are not modelled.
- `_load_env_file` reads the `.env` file and writes `os.environ`, which is file and environment I/O. `KeyCheck` and `MainFlow` take the environment as it is after loading.
- `MainFlow` takes the survey instruction as a parameter instead of the fixed text. Writing the report file and printing its preview are file and console I/O. The text of a `Ran` outcome is what the file would receive.
- `TrimApiKey` takes `Option<string>` so that `None` is covered. Its callers always pass a string.
- The per-service scripts under 00-07text, demo_mcp_tools.py, test_mcp_tools.py and quick_test.py are not part of this model. They repeat the connect, list and call sequence with printing, network calls and Markdown writing.
