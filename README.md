# Odoo support tools and MCP tool dispatch, modelled in Dafny

This project models the original, sequential logic of a voice support agent for
the Odoo ERP. The agent exposes Odoo operations as tools in two places: to a
speech-to-speech session (`OdooTools`) and to an MCP (Model Context Protocol)
server. Three pieces are modelled:

- **The error-message analyser** (`analyze_error`). A fixed table of seven
  error patterns, each with a piece of advice. The analyser lower-cases the
  message and each pattern. It appends one "Possible cause" line per pattern
  found in the message, in table order. It appends a fallback sentence when
  no pattern matched.
- **Two report builders of the agent tools.** The first is the tail selection
  of `get_server_logs` (`all_lines[-lines:]` under a header). The second is
  the installed-modules report of `get_installed_modules`.
- **The MCP server.** It has a catalog of eight tool descriptors
  (`list_tools`). It also has the name dispatch of `call_tool`, which reads
  each tool's arguments and turns an unknown name, a missing argument key or a
  handler exception into one text item.

Files:

- `strings.dfy` (module `Strings`) holds the string helpers. `Lower` is ASCII
  case folding. `IsSubstring` is the meaning of Python's `p in s`, and
  `Contains` implements it. `Concat` is `"".join`, and `Count` counts a
  character.
- `agent_tools.dfy` (module `AgentTools`) models `backend/agent/tools.py`.
  - `analyze_error` is the method `AnalyzeError`. Its loop is the method
    `AppendCauses`, which takes the table as an argument. `AppendCauses` is
    proved to append `Concat(CauseLines(Matching(table, message)))` to its
    header, and `AnalyzeError` is proved equal to the specification function
    `Analysis`.
  - The log tail is the function `RecentLines`. The whole tool, with the file
    access abstracted, is the function `ServerLogs`.
  - The modules report is the method `GetInstalledModules`, proved against
    `ModulesReport`.
- `mcp_server.dfy` (module `McpServer`) models `backend/mcp/server.py`.
  - The catalog is the constant `Catalog`, returned by `ListTools`.
  - The if/elif chain of `call_tool` is the function `Dispatch`. It gives a
    handler call, `UnknownTool` or `KeyMissing(key)` before any handler runs.
  - `CallTool` wraps that route into the single text item.
  - The Odoo handlers (`OdooMCPTools`) are a function parameter
    `handlers: Invocation -> Outcome`. Python's `str()` of a result is a
    parameter `render`.
  - `SchemaDispatch` is an independent reference. It derives the dispatch of
    a catalog entry from its schema alone, and `DispatchFollowsCatalog` proves
    that the handwritten chain agrees with it.

Some behaviour of the code worth knowing, which the model reproduces:

- There is no model allowlist. `search_records` forwards any model name to the
  handler, which passes it straight to Odoo.
- No input validation happens before dispatch. `call_tool` does not check that
  `module_name` is non-empty or that `user_id` is a positive integer. It only
  reads the keys.
- An unknown tool name is not a distinct error kind. It yields the rendering of
  the dictionary `{"error": "Unknown tool: <name>"}` as an ordinary result.
- Only `lines > 0` asks for the last `lines` lines. `lines = 0` returns the
  whole file, because `-0 == 0` in Python. A negative `lines` drops the first
  `-lines` lines.

## Model

| member | source | states |
|---|---|---|
| Strings.LowerChar | backend/agent/tools.py:244 | lower-casing leaves no upper-case ASCII letter and changes a character only by mapping `A`-`Z` to `a`-`z` |
| Strings.ContainsIff | backend/agent/tools.py:244 | the substring search returns true exactly when the pattern occurs at some position of the text, as Python's `in` on strings does |
| AgentTools.MatchesIff | backend/agent/tools.py:244 | a table row is used exactly when its lower-cased pattern is a substring of the lower-cased message |
| AgentTools.AppendCauses | backend/agent/tools.py:243-245 | the loop appends to the header the cause line of every matching row and of no other, in table order |
| AgentTools.AnalyzeError | backend/agent/tools.py:225-250 | the result is the specified analysis: header, one cause line per matching row, then the fallback sentence exactly when the text is still the bare header; the result always starts with `"Error Analysis for: " + message + "\n\n"` |
| AgentTools.CauseLinesEmptyIff | backend/agent/tools.py:247-248 | the comparison of the result with the bare header succeeds exactly when no row matched, since every cause line is non-empty |
| AgentTools.Matching | backend/agent/tools.py:243-245 | no more rows match than the table holds |
| AgentTools.MatchingMembers | backend/agent/tools.py:243-245 | a row is among the matched rows if and only if it is in the table and its pattern matches |
| AgentTools.MatchingInTableOrder | backend/agent/tools.py:231-245 | the matched rows are a subsequence of the table, so cause lines come in the dictionary's insertion order |
| AgentTools.MatchingCount | backend/agent/tools.py:243-245 | the number of cause lines equals the number of table indices whose pattern matches |
| AgentTools.SolutionsTable | backend/agent/tools.py:231-239 | the table has seven rows with pairwise distinct patterns, as dictionary keys |
| AgentTools.CauseLinesNewlines | backend/agent/tools.py:245 | when the solutions are single lines, the cause text holds exactly one line break per matched row |
| AgentTools.AnalysisShape | backend/agent/tools.py:241-248 | at most seven cause lines, one per matching index; no match if and only if no row matches; then the result is header plus fallback, otherwise header plus cause lines with no fallback |
| AgentTools.MatchingIgnoresCase | backend/agent/tools.py:244 | messages that are equal after lower-casing match the same rows |
| AgentTools.AnalysisIgnoresCase | backend/agent/tools.py:241-248 | messages that are equal after lower-casing get the same analysis after their headers |
| AgentTools.RecentLines | backend/agent/tools.py:216 | `all_lines[-lines:]` is a contiguous suffix in original order; it holds `min(lines, n)` lines for positive `lines`, every line for `lines = 0`, and drops the first `min(-lines, n)` lines for negative `lines` |
| AgentTools.ServerLogsTail | backend/agent/tools.py:216-218 | for positive `lines` the tool returns `"Recent Server Logs:\n"` and then the last `min(lines, n)` lines joined unchanged, which is a suffix of the file's text |
| AgentTools.ServerLogsZero | backend/agent/tools.py:216-218 | asking for zero lines returns the header and then the whole file |
| AgentTools.ServerLogsDefault | backend/agent/tools.py:205 | with the default argument of 50, `min(50, n)` lines are returned |
| AgentTools.GetInstalledModules | backend/agent/tools.py:57-71 | a successful read yields the report of the records; a failed one yields `"Error retrieving modules: " + reason` |
| AgentTools.ModulesReportStep | backend/agent/tools.py:66-67 | reading one more record appends exactly that record's line to the report |
| AgentTools.ModulesReportAppend | backend/agent/tools.py:65-67 | the report keeps read order: the lines of later records come after those of earlier ones |
| AgentTools.ModuleLineBreak | backend/agent/tools.py:67 | a module line with single-line fields holds exactly one line break |
| AgentTools.ModulesReportLineCount | backend/agent/tools.py:65-67 | with single-line fields the report has exactly one line per record plus the header line |
| McpServer.ListTools | backend/mcp/server.py:22-123 | the catalog lists exactly eight tools, one per handler, with pairwise distinct names and object schemas |
| McpServer.RequiredKeysDeclared | backend/mcp/server.py:25-123 | every key a schema lists as required is one of its declared properties |
| McpServer.EveryHandlerCatalogued | backend/mcp/server.py:128-148 | whenever `call_tool` invokes a handler, the name asked for is a catalogued tool's and the handler is that tool's |
| McpServer.FirstMissingSpec | backend/mcp/server.py:131-148 | the first missing required key is a required key absent from the arguments; there is none exactly when all required keys are present |
| McpServer.DispatchFollowsCatalog | backend/mcp/server.py:128-148 | for every catalogued tool the if/elif chain does what the tool's schema says: KeyError for the first missing required key, else the tool's handler called with one argument per declared property in order, absent optional ones as None |
| McpServer.RequiredKeysChecked | backend/mcp/server.py:128-148 | no catalogued name reaches the "Unknown tool" branch; a KeyError names a missing required key; the handler is reached if and only if all required keys are present, and it gets one argument per declared property |
| McpServer.UnknownIffNotCatalogued | backend/mcp/server.py:128-150 | the "Unknown tool" branch is taken if and only if the name is not in the catalog |
| McpServer.UnknownToolResponse | backend/mcp/server.py:149-152 | a name outside the catalog yields the rendering of `{"error": "Unknown tool: <name>"}`, the same whatever the handlers are, so no handler runs |
| McpServer.CallTool | backend/mcp/server.py:125-155 | every call returns a list of exactly one item of type "text" |
| McpServer.ErrorsBecomeText | backend/mcp/server.py:128-155 | for a catalogued tool, when a required key of its schema is missing the response is `"Error: '<key>'"` for the first such key, whatever the handlers are; otherwise the schema's handler call is made, a raised exception yields `"Error: " + message` and a result yields its rendering |
| McpServer.ZeroArgumentToolsIgnoreArguments | backend/mcp/server.py:129-146 | `list_modules`, `list_users`, `get_database_info` and `get_company_info` ignore the arguments mapping and call their handler with no argument |
| McpServer.FirstMissingIgnoresOptional | backend/mcp/server.py:131-141 | removing a key that no schema requires never changes which required key the KeyError names |
| McpServer.OptionalArgumentsMayBeOmitted | backend/mcp/server.py:137-142 | a declared property that is not required (`fields` of `search_records`) never decides whether the handler is reached; the handler gets its value in that property's position, or None when it is absent |

## Left out

- Strings.LowerChar: models ASCII case folding only. Python's `str.lower` also folds non-ASCII letters, so messages that differ only in non-ASCII case may match differently in the model.
- AgentTools.CauseLinesNewlines: states the one-line-per-cause count under the assumption that solutions hold no line break. The assumption is not discharged for the seven concrete solution texts.
- Every Odoo-backed operation is left out: the connection classes, `check_odoo_status`, `install_module`, `update_module`, `get_user_info`, `create_user`, `reset_user_password`, and every handler of `OdooMCPTools`. They are thin wrappers over a remote RPC library. In the MCP model their results are the `handlers` parameter.
- The module records of `get_installed_modules` are given as already-rendered strings. How Python formats non-string field values (for example `False` for a missing version) is not modelled. The search-and-read is an input `ModuleQuery`.
- File access in `get_server_logs` (the existence check, open and `readlines`) is an input `LogFile`. The log path, read from the environment with a default, is the parameter `logFile`; only its use in the "not found" message is modelled.
- Python's `str()` of handler results and of the unknown-tool dictionary is the abstract `render` parameter, not Python's repr.
- The KeyError text is modelled as the key in single quotes, which is Python's repr for the plain keys used here.
- A non-mapping `arguments` value is not modelled; arguments are a `map<string, PyValue>`.
- Logging (server.py:154), async/await, the stdio transport (server.py:160-172) and server creation are not modelled. Every call is treated as sequential.
- backend/api/main.py, backend/agent/agent.py, backend/agent/prompts.py and the package `__init__` files are not part of this model. They are network plumbing, session startup, string constants and re-exports.
- The loop of `analyze_error` runs in `AppendCauses`, which takes the table as a parameter. `AnalyzeError` passes the fixed table to it.
