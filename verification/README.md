# Chat, inference and MCP core of the VIKI AI service, in Dafny

This project models the core of the VIKI AI back end. It covers five areas:

- **Chat endpoints.** Creating a chat session with its first message, adding a user message, editing a user message (which rewinds the conversation to it), deleting a message or a session, and listing a session's messages one page at a time.
- **Data layer.** The chat tables behind those endpoints, with the role constraint, the session-to-message cascade and the creation-time order.
- **Inference.** `configure_llm` builds a client for one of the supported providers, with the proxy variables set only while the client is built. `generate_llm_response` picks between a tool-using agent and a direct model call.
- **MCP test connection.** A bounded retry with exponential backoff. It splits the tool's command, overlays the tool's environment and reports what the server offers.
- **Startup file rewrite.** The line rewrite of `flyway.conf`.

There is one Dafny module per source file. Two more modules (`Text`, `Wrappers`) hold the Python string built-ins and `Option`/`Result`. The form of each module follows the form of its source file:

- **Objects:** the process environment (`Proxy.Environ`) and the database (`ChatApi.ChatStore`) are changed in place, so they are classes.
- **Loops:** the retry loop, the flyway rewrite loop, tool collection and the message-deletion loop are methods. Each is proved equal to a specification function.
- **Pure decisions:** the provider table, name derivation and prompt mapping are functions.

Several things are inputs rather than computed. These are:

- identifiers (uuid4) and clock readings;
- the outcome of each connection attempt;
- the tools a server yields;
- what a model invocation returns.

## Model

| member | source | states |
|---|---|---|
| ChatApi.GetUsername | service/viki_ai/app/apis/chat.py:28-32 | The `x-username` header when present and non-empty, otherwise "SYSTEM"; never empty. |
| ChatApi.ChatName | service/viki_ai/app/apis/chat.py:99-102 | The name as written: the stripped message when it fits in 240 characters; otherwise the stripped first 240 characters followed by "...", so at most 243 characters. |
| ChatApi.ChatNameOverflows | service/viki_ai/app/apis/chat.py:100-102 | A 241-character message of letters gets a 243-character name, wider than the 240-character column. |
| ChatApi.SessionName | service/viki_ai/app/models/chat.py:11 | Corrected name: always fits the 240-character column and agrees with `ChatName` for messages that fit; a longer message gives its stripped first 237 characters followed by "...". |
| ChatApi.PromptHistory | service/viki_ai/app/apis/chat.py:323-343 | The agent's system prompt first when non-empty, then the mapped rows; never longer than the rows plus one. |
| ChatApi.MappedAppend | service/viki_ai/app/apis/chat.py:332-343 | Mapping rows to prompts works row by row, so it keeps the rows' order. |
| ChatApi.MappedFaithful | service/viki_ai/app/apis/chat.py:334-343 | Every prompt comes from a row with the matching role and the same content, and every row with a recognised role contributes one. |
| ChatApi.ToolRowsDropped | service/viki_ai/app/apis/chat.py:342-343 | A row stored as "tool_input" or "tool_response" is dropped from the history, because the mapping only knows "tool". |
| ChatApi.NoToolPrompts | service/viki_ai/app/models/chat.py:37-39 | When every row obeys the role constraint, the history never holds a tool message. |
| ChatApi.ModelReply | service/viki_ai/app/apis/chat.py:131-192 | No reply when the agent's LLM row is missing. A reply is always the content of a direct, non-streaming call of the configured model on the prompts; conversely, when the model builds and that call answers with a message, its content is the reply. |
| ChatApi.AssistantRow | service/viki_ai/app/apis/chat.py:164-176 | One "assistant" row carrying the reply text in the session when there is a reply, none otherwise. |
| ChatApi.Locate | service/viki_ai/app/apis/chat.py:401-410 | The index of a row with the given id in the given session, or -1 exactly when there is none. |
| ChatApi.Page | service/viki_ai/app/apis/chat.py:569-571 | `offset(skip).limit(limit)`: the exact length, and row i of the page is row skip+i. |
| ChatApi.PageOfSession | service/viki_ai/app/apis/chat.py:553-573 | A page of a session holds at most `limit` rows, all of that session, in creation order. |
| ChatApi.EditRewind | service/viki_ai/app/apis/chat.py:428-443 | After an edit the edited row is kept. Any other row is kept exactly when it is not a later message of the same session. |
| ChatApi.EditLeavesOtherSessions | service/viki_ai/app/apis/chat.py:433-443 | An edit leaves every other session's messages unchanged. |
| ChatApi.AddSession | service/viki_ai/app/models/chat.py:7-20 | Adding a new session whose name fits the column keeps the tables well formed. |
| ChatApi.FirstTurnPrompt | service/viki_ai/app/apis/chat.py:141-149 | The first turn's prompts are the history of a session that holds only the first message. |
| ChatApi.NewSessionHistory | service/viki_ai/app/apis/chat.py:105-176 | A new session's messages are its first message followed by the reply row, if any. |
| ChatApi.KeptWellFormed | service/viki_ai/app/apis/chat.py:428-443 | What an edit keeps still satisfies the table invariants. |
| ChatApi.ChatStore.constructor | service/viki_ai/app/models/chat.py:7-42 | An empty store is well formed. |
| ChatApi.ChatStore.Insert | service/viki_ai/app/apis/chat.py:293-305 | Appends one row and keeps the tables well formed and chronological. |
| ChatApi.ChatStore.InsertReply | service/viki_ai/app/apis/chat.py:357-372 | Appends the assistant row exactly when there is a reply. |
| ChatApi.ChatStore.CreateSessionWithMessage | service/viki_ai/app/apis/chat.py:81-211 | 404 when the agent is unknown, with nothing stored. Otherwise it adds the session with its corrected name and stores the user row and the reply row, if any. The session then holds exactly those rows, and both are returned. |
| ChatApi.ChatStore.CreateChatMessage | service/viki_ai/app/apis/chat.py:264-380 | 404 for an unknown session, then 404 for a missing agent, with nothing stored in either case. Otherwise it appends the user row and the reply to the session's full history, and returns them. |
| ChatApi.ChatStore.Rewind | service/viki_ai/app/apis/chat.py:433-443 | The deletion loop keeps exactly the rows that are not later messages of the session, in order. |
| ChatApi.ChatStore.UpdateChatMessage | service/viki_ai/app/apis/chat.py:383-519 | Checks run in order: 404 session, 404 message, 400 non-user message, 404 agent; each leaves the store unchanged. On success the edited row is kept and later messages of the session are deleted. The reply is generated from the rewound history and appended, and the result is the edited row plus the reply. |
| ChatApi.ChatStore.DeleteChatMessage | service/viki_ai/app/apis/chat.py:522-549 | 404 for an unknown session or message. Otherwise exactly the one row with that id is removed. |
| ChatApi.ChatStore.DeleteChatSession | service/viki_ai/app/apis/chat.py:248-262 | 404 for an unknown session. Otherwise the session and all and only its messages are removed. |
| ChatApi.ChatStore.GetSessionMessages | service/viki_ai/app/apis/chat.py:553-573 | 404 for an unknown session. Otherwise the requested page of the session's messages in creation order. |
| ChatRecords.Select | service/viki_ai/app/apis/chat.py:319-321 | A filter of the table keeps exactly the rows that match, and never adds rows. |
| ChatRecords.SelectAppend | service/viki_ai/app/apis/chat.py:435-441 | Filtering a split table filters each part. |
| ChatRecords.SelectCommutes | service/viki_ai/app/apis/chat.py:435-441 | Two filters can be applied in either order. |
| ChatRecords.SelectRemovesOne | service/viki_ai/app/apis/chat.py:548 | Removing the row with an id that occurs once shortens the table by exactly one. |
| ChatRecords.SelectChronological | service/viki_ai/app/models/chat.py:20 | A filtered table is still in creation order with distinct ids. |
| ChatRecords.ChronologicalAppend | service/viki_ai/app/models/chat.py:33 | A row stamped by the clock with a fresh id can be appended without breaking creation order. |
| ChatRecords.CascadeDelete | service/viki_ai/app/models/chat.py:20 | Deleting a session removes all and only its messages and keeps the tables well formed. |
| ChatRecords.SessionMessagesOrdered | service/viki_ai/app/models/chat.py:20 | A session's messages are read back in creation order and belong to it. |
| McpTool.Backoff | service/viki_ai/app/utils/mcpTool.py:21-22 | The sleep before a retry is at least the 500 ms base delay. |
| McpTool.ExtraDelay | service/viki_ai/app/utils/mcpTool.py:37-40 | The extra contention sleep is at least one second. |
| McpTool.DelaySchedule | service/viki_ai/app/utils/mcpTool.py:21-38 | The backoff starts at 500 ms and doubles with each retry; the contention delay starts at one second and grows by one second per attempt. |
| McpTool.ConnectWithRetry | service/viki_ai/app/utils/mcpTool.py:15-40 | The loop produces exactly the result and the sleep/attempt trace of `RetryFrom`. |
| McpTool.RetryOutcome | service/viki_ai/app/utils/mcpTool.py:18-34 | It returns the first attempt that connects, all earlier attempts having failed. Otherwise it re-raises the last failure once every attempt has failed. It returns `None` only with zero attempts. Attempts are made in order, never more than the bound. |
| McpTool.RetryEnds | service/viki_ai/app/utils/mcpTool.py:27-34 | The result part of `RetryOutcome`. |
| McpTool.RetryTries | service/viki_ai/app/utils/mcpTool.py:18 | The attempts in the trace are k, k+1, … up to the one that ends the loop. |
| McpTool.TryPlacement | service/viki_ai/app/utils/mcpTool.py:21-24 | No sleep precedes the first attempt. Attempt j ≥ 1 comes right after a sleep of `Backoff(j)`. The sleeps before it add up to at least the backoffs. |
| McpTool.AfterTry | service/viki_ai/app/utils/mcpTool.py:29-40 | After each attempt comes exactly one of: nothing (connected or final), the extra contention sleep, or the next backoff. |
| McpTool.BackoffSumClosed | service/viki_ai/app/utils/mcpTool.py:22 | The backoffs before attempts 1..j add up to 500·(2^j − 1) ms. |
| McpTool.ThirdAttemptWaits | service/viki_ai/app/utils/mcpTool.py:10-11 | With the default bound, a third attempt is preceded by at least 1.5 s of sleep. |
| McpTool.RetryReturnsSomething | service/viki_ai/app/utils/mcpTool.py:10 | With three attempts allowed, the helper never returns `None`. |
| McpTool.Overlay | service/viki_ai/app/utils/mcpTool.py:67-68 | The tool's variables win; every other process variable is kept; nothing else appears. |
| McpTool.PrepareServer | service/viki_ai/app/utils/mcpTool.py:59-75 | No server exactly when the command is all whitespace. Otherwise the program followed by its arguments is the split of the stripped command, every part a token, with the overlaid environment. |
| McpTool.PrepareJoinedCommand | service/viki_ai/app/utils/mcpTool.py:59-64 | A command joined from tokens with single spaces is split back into exactly those tokens. |
| McpTool.Describe | service/viki_ai/app/utils/mcpTool.py:92-96 | The entry carries the tool's name, its description or "", and type "function". |
| McpTool.ListFunctions | service/viki_ai/app/utils/mcpTool.py:90-96 | One entry per tool, in the tools' order. |
| McpTool.Report | service/viki_ai/app/utils/mcpTool.py:57-104 | "Empty MCP command" without a command. Success exactly when prepared, connected and the session yielded tools; the count then equals the number of entries. On failure the count is 0 and there are no functions, with the message "Failed to test MCP configuration: " followed by the error. |
| McpTool.ProbeServer | service/viki_ai/app/utils/mcpTool.py:78-99 | Runs the retry and builds the result that `Report` gives for that run. |
| McpTool.TestMcpConfiguration | service/viki_ai/app/utils/mcpTool.py:43-104 | Prepares the server as `PrepareServer` says, attempts connections only when it has a command, and returns `Report` of the run. |
| Proxy.SetPair | service/viki_ai/app/utils/proxy.py:21-23 | A non-empty value is written to both keys of a pair; an empty one changes nothing. |
| Proxy.Updated | service/viki_ai/app/utils/proxy.py:15-29 | Each non-empty setting lands in both its upper- and lower-case key; empty settings and all other keys are untouched. |
| Proxy.Cleared | service/viki_ai/app/utils/proxy.py:33-44 | The six proxy keys are absent and every other key is unchanged. |
| Proxy.ClearedIdempotent | service/viki_ai/app/utils/proxy.py:39-44 | Clearing twice is clearing once. |
| Proxy.UpdateThenClear | service/viki_ai/app/utils/proxy.py:15-44 | Update then clear equals clear alone: earlier proxy values are not restored. |
| Proxy.UpdateKeepsPairsAgreeing | service/viki_ai/app/utils/proxy.py:21-29 | Upper- and lower-case keys that agree before an update still agree after it. |
| Proxy.Environ.UpdateProxyConfig | service/viki_ai/app/utils/proxy.py:15-31 | The environment becomes `Updated` of the old one. |
| Proxy.Environ.DeleteProxyConfig | service/viki_ai/app/utils/proxy.py:33-46 | The environment becomes `Cleared` of the old one. |
| Inference.ProviderOf | service/viki_ai/app/utils/inference.py:87 | Each of the ten tags is selected exactly when the lower-cased tag spells its name; any other tag is unknown and keeps the caller's spelling. |
| Inference.SelectModel | service/viki_ai/app/utils/inference.py:99-234 | A model is built only for a supported provider, and it streams only when streaming was asked for. |
| Inference.ProviderRequirements | service/viki_ai/app/utils/inference.py:99-228 | Which fields each provider needs, both directions. For the key-first providers a missing key is reported whatever the model name. HuggingFace checks the model name first. "aws" and "google" always fail. Any other tag raises "Unsupported LLM provider". |
| Inference.ProviderEndpoints | service/viki_ai/app/utils/inference.py:124-125 | openrouter always uses its fixed URL; azure uses the given base URL or the GitHub models endpoint (154); openai passes a base URL only when one is given. |
| Inference.CaseInsensitiveProvider | service/viki_ai/app/utils/inference.py:87 | Tags that differ only in letter case build the same model; only the unsupported-provider message can differ. |
| Inference.ProxyBracket | service/viki_ai/app/utils/inference.py:92-94 | With `proxy_required` no proxy key is left set afterwards, whether the model was built or not (239-243). Without it those keys are untouched. Otherwise only the Azure credential can change. |
| Inference.ConfigureLlm | service/viki_ai/app/utils/inference.py:57-243 | Returns `SelectModel`. While the client is built, the proxy keys are set if required. Afterwards the environment is `ConfiguredEnv`. |
| Inference.StdioCommand | service/viki_ai/app/utils/inference.py:325-330 | The command string is the space-join of the command and its arguments. |
| Inference.StdioCommandRoundTrip | service/viki_ai/app/utils/inference.py:327-333 | Splitting that command string gives back the command and the arguments. |
| Inference.ServerTools | service/viki_ai/app/utils/inference.py:323-343 | A stdio server contributes the tools loaded for its space-joined command and its environment (missing keys read as `""`, `[]` and `{}`), or none when loading fails; any other transport contributes none. |
| Inference.CollectedToolsAppend | service/viki_ai/app/utils/inference.py:318-348 | Tools are collected server by server and concatenated in server order. |
| Inference.SilentServerSkipped | service/viki_ai/app/utils/inference.py:345-348 | A server that fails or is not stdio adds nothing, and later servers still load. |
| Inference.CollectTools | service/viki_ai/app/utils/inference.py:315-348 | The loop's result equals `CollectedTools`. |
| Inference.ReplyContent | service/viki_ai/app/apis/chat.py:164 | A reply text exists exactly when the model answered with a message, and it is that message's content. |
| Inference.GenerateChoice | service/viki_ai/app/utils/inference.py:291-381 | A configuration error propagates. `None` messages give `None`. The agent is used exactly when at least one tool was collected, and a direct call is made without servers. The model never streams, and the invocation's result is returned. |
| Inference.GenerateLlmResponse | service/viki_ai/app/utils/inference.py:247-381 | Returns `Generate`; the environment ends as `configure_llm` leaves it. |
| Flyway.BoolText | service/viki_ai/app/utils/flyway.py:36 | `str(b).lower()` is "true" exactly for true, otherwise "false". |
| Flyway.RewriteLine | service/viki_ai/app/utils/flyway.py:26-38 | Every written line ends in a newline. |
| Flyway.KeysPrefixFree | service/viki_ai/app/utils/flyway.py:27-35 | No key is a prefix of another. |
| Flyway.AtMostOneKey | service/viki_ai/app/utils/flyway.py:27-35 | At most one key starts any line, so the order of the elif chain does not matter. |
| Flyway.RewriteKeyLine | service/viki_ai/app/utils/flyway.py:27-36 | A line whose stripped text starts with a key becomes that key, its value and a newline. |
| Flyway.RewriteOtherLine | service/viki_ai/app/utils/flyway.py:37-38 | Any other line becomes its stripped text and a newline. |
| Flyway.RewriteLineIdempotent | service/viki_ai/app/utils/flyway.py:25-38 | Rewriting a rewritten line changes nothing. |
| Flyway.RewrittenIdempotent | service/viki_ai/app/utils/flyway.py:24-42 | Running the update twice with the same settings gives the same file as once. |
| Flyway.RewriteLines | service/viki_ai/app/utils/flyway.py:24-38 | The loop writes one rewritten line per input line, in order. |
| Flyway.UpdateFlywayConfig | service/viki_ai/app/utils/flyway.py:5-42 | Corrected update: a missing file gives the not-found outcome and nothing written. Otherwise the rewritten lines are written, with the baseline flag the settings define. |
| Flyway.AsWrittenRun | service/viki_ai/app/utils/flyway.py:35-50 | As written, an existing file never lets the update return: it raises in the loop exactly when a line starts with the baseline key, and otherwise after writing the rewritten lines. |
| Flyway.BaselineLineAborts | service/viki_ai/app/utils/flyway.py:35-36 | A file with a baseline line raises before anything is written, where the intended update writes the configured flag. |
| Text.Strip | service/viki_ai/app/apis/chat.py:100 | `strip()` returns the slice of its input with only whitespace before and after it, itself beginning and ending with a non-space character; empty exactly for all-whitespace input. |
| Text.Split | service/viki_ai/app/utils/mcpTool.py:59 | `split()` yields only whitespace-free, non-empty tokens, and none exactly for all-whitespace input (its full meaning is `SplitMeaning`). |
| Text.SplitJoinSpaced | service/viki_ai/app/utils/inference.py:328 | Splitting a space-join of tokens gives the tokens back. |
| Text.SplitCollapses | service/viki_ai/app/utils/mcpTool.py:59 | Joining the tokens of `split()` by single spaces gives the text with its ends trimmed and every inner whitespace run replaced by one space, computed character by character. |
| Text.SplitMeaning | service/viki_ai/app/utils/mcpTool.py:59 | A list is the result of `split()` if and only if it consists of tokens whose single-space join is that normalised text. |
| Text.StripOfStripped | service/viki_ai/app/utils/mcpTool.py:59 | `strip()` leaves a stripped string alone. |
| Text.Lower | service/viki_ai/app/utils/inference.py:87 | Lower-casing keeps the length and maps each character: an ASCII capital to the letter 32 code points above it, anything else to itself. |
| Text.LowerIdempotent | service/viki_ai/app/utils/inference.py:87 | Lower-casing twice is lower-casing once. |

## Left out

- Concurrency:
  - the connection semaphore (`mcpTool.py:12,17`);
  - `asyncio.run`;
  - database transactions: commits and refreshes are treated as immediate.
- Real sleeps, logging and `print`: sleeps appear only as entries of the retry trace.
- Reading and writing `flyway.conf`: the file's lines, or its absence, are an input, and the lines written are the output. The settings are a parameter.
- The LangChain and MCP libraries are inputs here. These are:
  - `stdio_client`;
  - `ClientSession`;
  - `load_mcp_tools`;
  - agent creation;
  - `ainvoke`.
- Temperature: it is passed through unchanged and is not modelled.
- The "X is not available, please install" branches of `configure_llm`: the client libraries are taken to be installed.
- The unreachable "Failed to create model" branch of `configure_llm` is left out.
- Other endpoints are not part of this model:
  - `update_chat_session`;
  - `get_chat_sessions`;
  - `get_chat_session`;
  - `get_agent_sessions`;
  - the schema conversions.
- Agents and LLM rows are a map from agent id to the agent's name, system prompt and LLM row. A missing system prompt is `""`.
- `last_updated_dt` is not modelled.
- Ids are modelled as fresh inputs rather than uuid4 draws, and clock readings as inputs no earlier than any stored row.
- Text.Lower: only ASCII letters are lower-cased. Python's `str.lower()` also maps non-ASCII letters. This matters only for provider tags outside the supported set.
- ChatApi.ModelReply: the chat turn's effect on the process environment is left out. The reply comes from the pure `Inference.Generate` rather than from `Inference.GenerateLlmResponse`, so the proxy bracket is not repeated for chat turns.
- ChatApi.ChatStore.GetSessionMessages: `skip` and `limit` are natural numbers. Neither the endpoint nor the query checks their sign, so a negative value reaches the database. What happens then depends on the backend: SQLite, the default, reads a negative LIMIT as no limit and a negative OFFSET as zero. This is not modelled.
- McpTool.TestMcpConfiguration: when the session yields a tool whose `description` attribute exists but is `None`, the source records `None`. The model records `""` or the text.
- McpTool.ConnectWithRetry: `stdio_client(...)` only builds a context manager, so each attempt's outcome is an input. Whether an attempt can fail at all is outside the model.
- `load_mcp_connection`: `inference.py:8` imports it from `mcpTool.py`, which does not define it, so the import is unresolved in the source. The loader is an input (`load`) here.
- Text.Split: its own contract states only the shape of the tokens. Its meaning, that the tokens are the ones whose single-space join is the whitespace-normalised text, is proved separately as `Text.SplitMeaning`, which keeps the proofs that unfold `Split` small.
- Inference.SelectModel: the client constructors are taken to succeed. A constructor that raises is not modelled. In the source, `configure_llm` re-raises its exception (`inference.py:237-239`) and `generate_llm_response` does not catch it. The model instead reports a built model and, in `Inference.Generate`, an invocation. The same gap carries over to `Inference.ProviderRequirements`, `Inference.ConfigureLlm` and `Inference.GenerateLlmResponse`. The proxy bracket and the Azure credential, which is written before the constructor runs, are unaffected.
- Inference.SelectModel: errors are returned as `ConfigError` values rather than raised; `Inference.ErrorMessage` gives each one's text. A `None` model name is modelled as `""`, which `not model_name` treats the same way.

## Findings

| source | as written | input that shows it | evidently intended | confidence | as-written member | corrected member |
|---|---|---|---|---|---|---|
| service/viki_ai/app/apis/chat.py:99-102 | The session name is the first 240 characters of the message, stripped, plus "..." for longer messages: up to 243 characters. | A 241-character message with no surrounding whitespace gives a 243-character name, but `cht_name` is `String(240)` (models/chat.py:11). | The name fits the 240-character column, "..." included. | not executed | ChatApi.ChatNameOverflows | ChatApi.SessionName |
| service/viki_ai/app/utils/flyway.py:36 | The baseline flag is read as `settings.FLYWAY_MIGRATION_BASELINE` (also at line 50), but the settings class defines only `PERSISTENCE_MIGRATION_BASELINE` (config.py:25), so the read raises `AttributeError`. | A `flyway.conf` containing the line `flyway.baselineOnMigrate=false`: the update raises in the loop and writes nothing. A file without such a line is written, and then the final report raises. | The configured baseline flag is written, and the function returns `None`. | not executed | Flyway.BaselineLineAborts | Flyway.UpdateFlywayConfig |
