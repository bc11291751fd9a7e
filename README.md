# Baseball chatbot core, modelled in Dafny

This project models the deterministic core of the baseball chatbot. That core has three parts:

- Two MCP tool servers query a baseball database:
  - the team server: `find_mlb_baseball_teams`;
  - the game server: `search_mlb_games` and `get_schedule_and_record`.
- The chatbot's gateways choose a model, build the MCP tool list for the Responses API, and fold the streamed response events into a reply.
- The Llama Stack helpers list and look up models, validate agent arguments, and translate an agent's turn stream into display text.

Everything outside the program becomes a parameter:

- The environment is a `map<string, string>`.
- The database is a function from the connection string and the SQL text to the rows the cursor yields.
- The `/toolgroups` listing, the OpenAI and Llama Stack model lists, the Responses API stream and the baseball data library are functions or sequences.

Python's failures are a `Result` whose `Failure` carries the exception class and its exact message.

Modules, one per file:

- `PyRuntime` (py_runtime.dfy) holds the Python values the core relies on:
  - `Option`, `Result` and the exception kinds;
  - the environment;
  - `str()` of `None`, integers and strings.
- `PyStrings` (py_strings.dfy) models three `str` operations: substring `in`, `strip()` with Python's whitespace set, and `replace(pattern, "")`.
- `StringOrder` (string_order.dfy) models Python's ordering of strings and `list.sort()` on a list of strings.
- `AgentDb` (agent_db.dfy) is the connection-string check both servers share.
- `TeamSearch` (team_search.dfy) and `GameSearch` (game_search.dfy) are the two MCP servers.
- `ResponsesGateway` (responses_gateway.dfy) holds the value-level logic of `ResponsesGateway`.
- `Gateway` (gateway.dfy) is the gateway object: the base class `Gateway` and its Responses API subclass, as one class.
  - The field `provider` tells them apart. `Base` raises where the base class is unimplemented; `Responses` does what the subclass does.
  - The fields the source assigns (`model_name`, `previous_response_id`, `openai_base_url`, `openai_api_key`, the client) are fields that the methods change.
  - The class only annotates `openai_base_url` and `openai_client`, so reading them before `connect` assigns them raises `AttributeError`. The field `baseUrlAssigned` and an absent client record that state.
- `ResponsesApiGateway` (responses_api_gateway.dfy) holds the module functions of the Responses API chatbot.
- `LlsGateway` (lls_gateway.dfy) holds the Llama Stack helpers.

The SQL text is built exactly as the servers build it: values are interpolated raw, with no escaping and no parameter binding. The team search's league column is spelled `leage`, as at agent-team/src/mcp_server.py:62.

Only criteria whose four parameters are all `None` are refused (agent-team/src/mcp_server.py:37). Criteria made only of empty strings build the bare text ending in `where ` (`TeamSearch.BlankCriteriaGiveBareClause`).

The league translation has no fallback: any code other than `A` and `N` passes through unchanged (`TeamSearch.LeagueName`).

The `Tools` labels (`Tools.BASEBALL_AGENT_UTILITIES` and the others) are not defined in the code this model covers. The three server labels and the match list are therefore parameters (`ResponsesGateway.AgentLabels`). The system prompt is a parameter too.

## Model

| member | source | states |
|---|---|---|
| TeamSearch.FindMlbBaseballTeams | agent-team/src/mcp_server.py:37-96 | All-`None` criteria fail with "No search parameter specified!" before any SQL is built or the configuration read. Then a missing `DB_CONNECTION_STRING` fails. Otherwise the result has exactly one record per row, in row order: fields from positions 0, 1, 3 and 4, and the league translated. |
| TeamSearch.BuildTeamQuery | agent-team/src/mcp_server.py:42-62 | The `sql +=` builder with its `prev` flag produces exactly `TeamQuery(c)`: the base text followed by the requested fragments joined with `and `. |
| TeamSearch.Filters | agent-team/src/mcp_server.py:44-62 | At most four fragments, in strictly increasing order: name, city, year, league. |
| TeamSearch.FilterPresence | agent-team/src/mcp_server.py:44-62 | A fragment appears if and only if its criterion asks for it. A text criterion asks when present and non-empty, the year whenever present, and the league by its first character only. |
| TeamSearch.JoinPrefixesSeparators | agent-team/src/mcp_server.py:43-62 | The clause is the fragments concatenated, each after the first preceded by exactly one `and ` and the first by none. |
| TeamSearch.AddFilter | agent-team/src/mcp_server.py:47-62 | One builder step adds `and ` exactly when a fragment is already present, and so extends the clause of the filters so far by exactly one filter, leaving `prev` set. |
| TeamSearch.AppendFilter | agent-team/src/mcp_server.py:47-62 | On the clause text alone: `and ` before the fragment exactly when filters are already rendered gives the clause of the filters plus the new one, after any fixed head. |
| TeamSearch.JoinStep | agent-team/src/mcp_server.py:47-62 | For any fragments joined so far, appending a fragment after `and ` (only when one is already there) joins exactly one more fragment. |
| TeamSearch.BlankCriteriaGiveBareClause | agent-team/src/mcp_server.py:37-57 | Criteria whose text fields are all absent or empty and whose year is absent give the bare base text, which ends in `where `. |
| TeamSearch.SingleFilter | agent-team/src/mcp_server.py:43-62 | With exactly one filter, the clause is that filter's fragment alone, with no `and `. |
| TeamSearch.LeagueName | agent-team/src/mcp_server.py:79-83 | `A` becomes "American League" and `N` becomes "National League". Any other value is returned unchanged, and only those two are changed. |
| GameSearch.ValidateGameSearch | agent-game/src/mcp_server.py:105-112 | Accepts exactly years 2001..2024 together with a first team code of exactly three characters; the year is checked first. The error messages name the offending value. The second code is never checked and defaults to the first. |
| GameSearch.OmittedSecondTeam | agent-game/src/mcp_server.py:111-128 | Without a second team code, both team conditions of the SQL name the first team. |
| GameSearch.SearchMlbGames | agent-game/src/mcp_server.py:105-173 | Validation failures come before the connection-string check, so invalid input never reaches the database. Otherwise the result has one summary per row, in cursor order: visitors from position 6, home from position 3, score "pos9-pos10", play count from position 11. |
| GameSearch.ScoreRoundTrip | agent-game/src/mcp_server.py:158-165 | A score built from two run counts reads back as (visitor runs, home runs): the visitors come first. |
| GameSearch.StripPlainDate | agent-game/src/mcp_server.py:58 | A date with no parenthesis is left unchanged by the double-header stripping. |
| GameSearch.StripDoubleHeaderMarker | agent-game/src/mcp_server.py:58 | A trailing ` (1)` or ` (2)` is removed, leaving the date. |
| GameSearch.GetScheduleAndRecord | agent-game/src/mcp_server.py:42-78 | A `None` year or team code fails before the library is called. A `ValueError` from the library gives an empty result; any other exception propagates. Otherwise the result has one record per game, in order, with the double-header markers stripped from the date. |
| PyStrings.Strip | chatbot/src/lls_gateway.py:44 | The stripped text is no longer than the input. When non-empty, it starts and ends with a non-whitespace character. |
| PyStrings.StripIsTrimmedInfix | chatbot/src/lls_gateway.py:44 | The stripped text is a contiguous piece of the input, and everything cut on either side is whitespace. |
| PyStrings.StripEmptyIffAllSpace | chatbot/src/lls_gateway.py:44-46 | Stripping gives the empty string if and only if the input is all whitespace. |
| PyStrings.StripIdempotent | chatbot/src/lls_gateway.py:44 | Stripping twice is stripping once. |
| PyStrings.ContainsIffOccurs | chatbot/src/responses_gateway.py:172-176 | The substring test holds if and only if the pattern occurs at some position of the text. |
| PyStrings.RemoveAllWithout | agent-game/src/mcp_server.py:58 | Removing a pattern whose second character does not occur in the text leaves the text unchanged. |
| PyStrings.RemoveAllAfter | agent-game/src/mcp_server.py:58 | Removal goes left to right with no rescan: a prefix that cannot start or complete a match is kept, and only the rest is rewritten. |
| StringOrder.LeTotal | chatbot.responses-api/src/gateway.py:32 | Any two strings are comparable. |
| StringOrder.LeAntisymmetric | chatbot.responses-api/src/gateway.py:32 | Two strings that are each at most the other are equal. |
| StringOrder.LeTransitive | chatbot.responses-api/src/gateway.py:32 | The string order is transitive. |
| StringOrder.Insert | chatbot.responses-api/src/gateway.py:32 | Inserting into a sorted list keeps it sorted and adds exactly that one element. |
| StringOrder.SortStrings | chatbot.responses-api/src/gateway.py:32 | The sorted list is in ascending order and is a permutation of the input. |
| StringOrder.SortedPermutationUnique | chatbot.responses-api/src/gateway.py:32 | Two sorted permutations of the same strings are equal, so sortedness plus permutation determine the result of the sort. |
| ResponsesApiGateway.GetModels | chatbot.responses-api/src/gateway.py:19-34 | The result is sorted ascending and is a permutation of the listed model ids. |
| ResponsesApiGateway.GetModelsDeterminate | chatbot.responses-api/src/gateway.py:29-34 | Any two lists meeting `GetModels`' contract for the same models are equal. |
| ResponsesApiGateway.GetDefaultModel | chatbot.responses-api/src/gateway.py:36-58 | A set `DEFAULT_MODEL` is returned verbatim, even when empty. Otherwise, from a non-empty list: "openai/gpt-4" when listed, else the first element, so the result is always a member. With no list or an empty one: `ValueError`. |
| ResponsesApiGateway.OpenAIConnect | chatbot.responses-api/src/gateway.py:60-87 | Succeeds if and only if `OPENAI_API_KEY` is set, and the client carries that key. The base URL is carried when set and is `None` otherwise. A missing key is a `ValueError` with the source's message. |
| ResponsesGateway.PreferredDefaultModel | chatbot/src/responses_gateway.py:55-58 | A set, non-empty `DEFAULT_MODEL` wins; otherwise "openai/gpt-4". The result is never empty. |
| ResponsesGateway.EnvMcpServers | chatbot/src/responses_gateway.py:108-148 | Entries exist exactly when all three agent URLs are set and non-empty. There are then exactly three, in the order utilities, team, game, each with type "mcp", that agent's label and URL, and approval "never". |
| ResponsesGateway.McpToolsOf | chatbot/src/responses_gateway.py:189-232 | There are at most as many entries as groups. Every entry has type "mcp", approval "never" and a non-empty URL. |
| ResponsesGateway.McpToolsMembership | chatbot/src/responses_gateway.py:198-225 | An entry is produced if and only if some group is an MCP `tool_group`, passes the match list, has a non-empty endpoint URI, and yields that entry (its resource id as the label, its URI as the URL). |
| ResponsesGateway.McpToolsAppend | chatbot/src/responses_gateway.py:198-225 | The entries keep input order: the entries of a concatenated listing are those of its parts, concatenated. |
| ResponsesGateway.EmptyMatchListAcceptsAll | chatbot/src/responses_gateway.py:209 | No match list and an empty match list select the same groups. |
| ResponsesGateway.ToolList | chatbot/src/responses_gateway.py:117-151 | With all three agent URLs configured, the three configured entries. Otherwise, the MCP groups listed at the base URL's `/toolgroups`, matched against all labels. With no base URL, the `TypeError` that adding `None` to a string raises. |
| ResponsesGateway.TranscriptAppend | chatbot/src/responses_gateway.py:169-175 | The reply accumulates in stream order: the reply to a split stream is the replies to its parts, concatenated. |
| ResponsesGateway.TranscriptOfOne | chatbot/src/responses_gateway.py:172-173 | An event adds its delta exactly when its type contains `text.delta`. |
| ResponsesGateway.NoDeltaNoText | chatbot/src/responses_gateway.py:169-175 | A stream without text deltas gives the empty reply. |
| ResponsesGateway.LastCompletionWins | chatbot/src/responses_gateway.py:176-177 | After the stream, the remembered response id is the id of the last `response.completed` event. |
| ResponsesGateway.NoCompletionKeepsId | chatbot/src/responses_gateway.py:170-177 | Without a completion event, the remembered response id is unchanged. |
| Gateway.Gateway.constructor | chatbot/src/gateway.py:11 | A new gateway has no selected model, no previous response, no base URL assigned and no client. |
| Gateway.Gateway.PreferredDefaultModel | chatbot/src/gateway.py:31-38 | The base class raises `NotImplementedError("get_preferred_default_model() is not implemented!")`. The Responses gateway returns its non-empty preferred model. |
| Gateway.Gateway.GetDefaultModel | chatbot/src/gateway.py:46-69 | A set `DEFAULT_MODEL` is returned whatever the list. Without it: a `ValueError` for no list or an empty one; any success is a member of the list. For the base class, a non-empty list reaches the unimplemented preferred model and raises. |
| Gateway.Gateway.ResponsesDefaultModelAgrees | chatbot/src/gateway.py:53-67 | For the Responses gateway, the inherited choice of default model equals the module-level `get_default_model` of the Responses API chatbot. |
| Gateway.Gateway.GetSelectedModel | chatbot/src/gateway.py:13-20 | An unset model is filled from the preferred default. A set model is returned unchanged and left unchanged. After a success the field holds the returned model; a raising preferred default leaves it unset. |
| Gateway.Gateway.OnModelChange | chatbot/src/responses_gateway.py:90-96 | The new name becomes the selected model, which `GetSelectedModel` then returns. The Responses gateway also forgets the previous response id. |
| Gateway.Gateway.GetModels | chatbot/src/responses_gateway.py:33-47 | The base class raises `NotImplementedError("get_models() is not implemented!")`. The Responses gateway without a client raises the `AttributeError` of reading `openai_client`. With a client it returns the listed ids, sorted and a permutation. |
| Gateway.Gateway.Connect | chatbot/src/responses_gateway.py:61-87 | The base class raises `NotImplementedError` and changes nothing. The Responses gateway assigns the base URL first, even when it then fails. It then succeeds if and only if `OPENAI_API_KEY` is set, storing exactly the client `OpenAIConnect` describes. On failure, the key and the client are kept. |
| Gateway.Gateway.GetAllMcpsAsTools | chatbot/src/responses_gateway.py:182-232 | Before `connect` has assigned the base URL, reading it raises `AttributeError`. With a `None` base URL, it raises the `TypeError` of adding `None` to a string. Otherwise the loop yields exactly `McpToolsOf` of the listing at the base URL. No client is needed, so this also holds after a `connect` that failed on the API key. |
| Gateway.Gateway.ProcessUserChat | chatbot/src/responses_gateway.py:99-179 | A failing tool list propagates and changes nothing; before `connect`, that is the `AttributeError` of the unassigned base URL unless all three agent URLs are configured. Without a client, reading `openai_client` at line 155 raises `AttributeError` before the model is selected, and nothing changes. Otherwise the request carries the selected model (chosen if unset), "Question:\n" plus the input, the tool list, temperature 0.3 and the previous response id. The reply is the concatenated text deltas of that stream, and the previous response id becomes that of its last completion. |
| LlsGateway.GetAllLlsModelNames | chatbot/src/lls_gateway.py:18-32 | The appending loop yields exactly the identifiers of the LLM models, in list order. |
| LlsGateway.LlmIdentifiersMembership | chatbot/src/lls_gateway.py:27-32 | A name is listed if and only if some model with `api_model_type == "llm"` carries it. |
| LlsGateway.LlmIdentifiersAppend | chatbot/src/lls_gateway.py:27-32 | The listing keeps list order: a concatenated list is listed as its parts, concatenated. |
| LlsGateway.GetLlsModelName | chatbot/src/lls_gateway.py:34-47 | A missing variable raises. Otherwise the result succeeds if and only if the value is not all whitespace, and is the stripped value: non-empty, with no whitespace at either end. An all-whitespace value raises the "an empty string" error. |
| LlsGateway.FindModel | chatbot/src/lls_gateway.py:71-79 | Succeeds if and only if some model has the identifier, and returns the first such model. Otherwise raises "Model Not Found!  name=" with the name. |
| LlsGateway.LlsConnect | chatbot/src/lls_gateway.py:49-81 | The URL is required first, then a valid model name, then a listed model of that name. On success, the client talks to the configured URL and the model is the first one listed there under that name. |
| LlsGateway.AgentArgumentError | chatbot/src/lls_gateway.py:91-97 | The arguments are accepted if and only if the client is present and the prompt and model name are present and non-empty. Otherwise the error is the client's, then the prompt's, then the model name's, in that order. |
| LlsGateway.CreateAgentAsWritten | chatbot/src/lls_gateway.py:83-128 | Fails exactly on invalid arguments, with their error. Otherwise the agent uses the given client, model name and prompt, and carries the tool list as given, `None` included. |
| LlsGateway.AsWrittenKeepsNoneTools | chatbot/src/lls_gateway.py:99-102 | With valid arguments and no tool list, the written code configures the agent with `None` as its tool groups. |
| LlsGateway.CreateAgent | chatbot/src/lls_gateway.py:83-128 | Same validation. The agent has the given model name as model, the prompt as instructions, and always a tool list: the given one, or the empty list when none is given. |
| LlsGateway.CreateAgentAgreesWhenToolsGiven | chatbot/src/lls_gateway.py:99-120 | When a tool list is given, the corrected and the written creation agree. |
| LlsGateway.ChunkOutputs | chatbot/src/lls_gateway.py:144-159 | A chunk yields at most one string. Without a payload: the cluster error with the chunk's text. For `step_progress`: its delta text, if any. For a completed `tool_execution` step: the "Using" marker of the first tool, or "No tool_calls present in step_details" when there is no call. Any other chunk yields nothing. |
| LlsGateway.TurnOutputsAppend | chatbot/src/lls_gateway.py:144-159 | The outputs keep stream order: a split stream yields its parts' outputs, concatenated. |
| LlsGateway.ErrorsAreReported | chatbot/src/lls_gateway.py:158-159 | Every chunk without a payload appears in the output as an error line. |
| LlsGateway.ToolMarkerInjective | chatbot/src/lls_gateway.py:153-155 | The tool-use marker determines the tool name: different tools give different markers. |

## Left out

- Database connections, cursors, `psycopg`, logging, `print`/`pprint` and the Streamlit calls are not modelled. Rows are sequences of values and the database is a function.
- The HTTP request to `/toolgroups` is not modelled: its `raise_for_status`, JSON decoding, and the `KeyError` a record missing a key would raise. The listing is a function from URL to records.
- The OpenAI client, the Llama Stack client, `Agent` and `lls_new_session` are not modelled, because they are foreign calls. The model list and the stream are parameters.
- The streaming of partial replies into the Streamlit placeholder is not modelled; it is a UI side effect.
- GameSearch.GetScheduleAndRecord: does not model the date reparse (`strptime`/`strftime`, lines 59-60) or the `:.0f` formatting of the run totals (line 63). These are foreign library and floating-point formatting. Records keep the stripped date text and the raw run values.
- GameSearch.SearchMlbGames: the `year` parameter is an `int`; other Python types are not modelled. A `str` year raises `TypeError` at the comparison of agent-game/src/mcp_server.py:105. A float year in range passes that validation and is written into the SQL as is (line 128).
- LlsGateway.GetLlsModelName: the check for a `None` value (lines 42-43) cannot fire, because environment values are always strings, so it has no branch here.
- LlsGateway.ChunkOutputs: the printed form of a chunk (`str(response)`) is an input, not derived from the chunk. A tool name is a string, standing for `str()` of the tool name.
- LlsGateway.ToolMarker: the marker uses the four characters U+00F0 U+0178 U+203A U+00A0 that the source file holds at line 155. They are a mis-encoded hammer-and-wrench emoji.
- The agent-weather and agent-utilities servers, the two Streamlit apps, chatbot/src/tools.py and chatbot/src/constants.py are not part of this model. They hold only HTTP and UI code or constants.

## Findings

| source | as written | input that shows it | evidently intended | confidence | as-written member | corrected member |
|---|---|---|---|---|---|---|
| chatbot/src/lls_gateway.py:99-102 | The fallback for an absent tool list tests `llama_stack_client` again. Line 92 has already ruled that out, so the fallback never runs. | A client, prompt "p", model name "m" and `tools_list = None`: the agent is configured with `toolgroups = None`. | As the warning at line 101 says, an absent `tools_list` is replaced by the empty list. | not executed; high that the branch is dead, medium on the intent | LlsGateway.AsWrittenKeepsNoneTools | LlsGateway.CreateAgent |
