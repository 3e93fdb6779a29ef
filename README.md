# neon_swarm in Dafny

neon_swarm is a small multi-agent assistant for Neon serverless Postgres. Three
agents share one conversation: the Neon agent triages requests and manages
projects, branches and connection URIs through the Neon management API; the SQL
executor runs statements against a project's database; the SQL generator reads
the database schema so that a statement can be written. An agent hands the
conversation to another by calling one of three `transfer_to_*` tools.

This project models the core of that system:

- `values.dfy`: Python values as JSON. `Json` covers None, bools, ints,
  strings, lists and dicts. `Outcome` is a returned value or a raised
  exception.
- `pytext.dfy`: `str.strip`, `str.lower` and `str.startswith`, the string
  operations execute_sql depends on.
- `http.dfy`: `handle_response`, and how an API tool call turns a reply from
  the network into a value or an exception.
- `neon_api.dfy`: the management-API tools of `tools.py`:
  - list_projects and its five-field filter;
  - delete_project;
  - the create_project request body;
  - get_connection_uri's query parameters;
  - create_project_branch's request body;
  - get_current_user_info's five-field filter.
- `sql_tools.dfy`:
  - execute_sql, on a `Connection` object that records what was executed,
    committed and closed;
  - fetch_database_schema's schema query and its grouping of rows into one
    record per table.
- `agents.dfy`:
  - the three agents, their allow-lists, their prompt functions and the
    hand-off tools;
  - the conversation as a state machine whose state is the active agent.
- `session.dfy`: the two entry points of `main.py`, `neon_agent_init` and
  `sql_executor_init`.

Modelling choices:

- The network is a parameter. `Reply` is a received response (status code,
  body as decoded JSON or None, and the HTTPError text) or a transport failure.
- Python's `str()` of a fetched dict, which `neon_agent_init` formats into the
  context, is the abstract parameter `render`. `str(e)` of the HTTPError that
  handle_response formats into `"HTTPError: ..."` is the abstract text
  `Response.failure`. The other `str()` uses are modelled: `str(pooled)` is
  `NeonApi.BoolRepr`, and the prompt f-strings insert context values, which
  are already text.
- A database statement's effect is the connection's `answer` function.

### Where the documentation and the code differ

The doc comment of handle_response (`src/neon_swarm/tools.py:36`, 44-45)
says it raises an HTTPError for an unsuccessful call. The doc comments of
delete_project and get_current_user_info (lines 161-162 and 312-313) say these
tools raise on an error in the API request or response. In the code,
`handle_response` catches the HTTPError and returns `{"error": "HTTPError:
..."}`, so no exception is raised. The `try ... except Exception: raise` blocks
only re-raise what is raised inside them: the transport failure of
`requests`, the decoding error of `response.json()` and, in
get_current_user_info, the AttributeError of `.get`; an HTTP error never
reaches them. The model follows the code:

- `NeonApi.DeleteProject` and `NeonApi.GetConnectionUri` return the error value.
- `NeonApi.UserInfoOnHttpError` shows that get_current_user_info returns five
  None fields.
- `NeonApi.ListProjects` returns `{"projects": []}`.

## Model

| member | source | states |
|---|---|---|
| Values.Pick | src/neon_swarm/tools.py:73-79 | The dict of `d.get(k)` for a fixed key set: exactly those keys, each holding d's value, or None where d lacks it |
| PyText.TrimStart | src/neon_swarm/tools.py:363 | The left half of `strip()`: the result is a suffix of the input that does not start with whitespace, and every dropped character is Python whitespace |
| PyText.TrimEnd | src/neon_swarm/tools.py:363 | The right half of `strip()`: the result is a prefix that does not end with whitespace, and every dropped character is whitespace |
| PyText.Strip | src/neon_swarm/tools.py:363 | `strip()`: the result is a slice `s[i..j]` of the input with only whitespace before i and after j, and it neither starts nor ends with whitespace |
| PyText.Lower | src/neon_swarm/tools.py:363 | `lower()` keeps the length and lower-cases each character in place |
| PyText.LowerTrimStart | src/neon_swarm/tools.py:363 | Lower-casing and trimming leading whitespace commute |
| PyText.LowerTrimEnd | src/neon_swarm/tools.py:363 | Lower-casing and trimming trailing whitespace commute |
| PyText.LowerStrip | src/neon_swarm/tools.py:363 | `s.strip().lower() == s.lower().strip()` |
| PyText.TrimStartPadding | src/neon_swarm/tools.py:363 | Leading whitespace is invisible to `strip()`'s left side |
| PyText.TrimEndPadding | src/neon_swarm/tools.py:363 | Trailing whitespace is invisible to `strip()`'s right side |
| Http.HandleResponse | src/neon_swarm/tools.py:34-54 | Status 400-599 gives the value `{"error": "HTTPError: <text>"}`. Otherwise the result is the decoded body, or a JSON decoding exception when there is no JSON body |
| Http.HandleResponseRaisesOnlyOnUndecodableBody | src/neon_swarm/tools.py:47-54 | handle_response raises exactly for a successful response without a JSON body |
| Http.CallRaisesOnlyOnTransportOrDecode | src/neon_swarm/tools.py:208-213 | An API call raises exactly on a transport failure or an undecodable success. An HTTP error passes through the re-raising `try` as the error value |
| Http.Call | src/neon_swarm/tools.py:168-171 | What an API tool gets from one request: a transport failure raises; an HTTP error is the value `{"error": "HTTPError: <text>"}`; a successful response is its decoded body, or the JSON decoding exception when it has none |
| NeonApi.ListProjects | src/neon_swarm/tools.py:56-82 | Errors propagate. A non-dict response raises AttributeError. It succeeds exactly when every listed project is a dict, otherwise AttributeError. Success is `{"projects": L}` with L entry by entry the five picked fields. An HTTP error yields `{"projects": []}` |
| NeonApi.FilteredProjectKeys | src/neon_swarm/tools.py:71-80 | Every listed project has exactly id, name, region_id, pg_version and org_id, each `project.get(key)` |
| NeonApi.DeleteProject | src/neon_swarm/tools.py:147-174 | Raises exactly on transport failure (that exception) or undecodable success (the decoding exception). An HTTP error is returned as the error value, not raised. A successful response returns its decoded body |
| NeonApi.CreateProjectPayload | src/neon_swarm/tools.py:117-140 | The body is `{"project": {...}}` with exactly pg_version, name and region_id, each the argument given |
| NeonApi.CreateProjectDefaultVersion | src/neon_swarm/tools.py:117 | Without a pg_version argument the body asks for version 16 |
| NeonApi.GetConnectionUri | src/neon_swarm/tools.py:177-213 | database_name and role_name are always sent. branch_id, endpoint_id and pooled are sent exactly when given. pooled is sent as "true"/"false". No other parameter is sent. The result is what handle_response makes of the reply: it raises exactly on transport failure or undecodable success, an HTTP error is the error value, and a success is its decoded body |
| NeonApi.CreateProjectBranch | src/neon_swarm/tools.py:215-242 | parent_id and name are in the branch object exactly when not None. endpoints is `[{"type": t}]` exactly when endpoint_type is not None. With no option the body is `{"branch": {}}`. The result is what handle_response makes of the reply: it raises exactly on transport failure or undecodable success, an HTTP error is the error value, and a success is its decoded body |
| NeonApi.GetCurrentUserInfo | src/neon_swarm/tools.py:301-341 | Errors propagate. A non-dict response raises AttributeError. Otherwise the result has exactly name, last_name, email, id and plan, each `user_info.get(key)` |
| NeonApi.UserInfoOnHttpError | src/neon_swarm/tools.py:321-338 | On an HTTP error the user info is returned, with all five fields None, instead of raising |
| SqlTools.Connection.constructor | src/neon_swarm/tools.py:356-357 | A fresh connection has executed nothing, committed nothing and its cursor is open |
| SqlTools.ExecuteSql | src/neon_swarm/tools.py:343-376 | The statement is executed once. A database exception escapes with the commit flag and the cursor left as they were. A SELECT returns its rows without committing. Anything else commits and returns []. The cursor is closed after success |
| SqlTools.IsSelectIgnoresCase | src/neon_swarm/tools.py:363 | Statements equal up to letter case are both fetched or both committed |
| SqlTools.IsSelectIgnoresLeadingSpace | src/neon_swarm/tools.py:363 | Leading whitespace does not change whether a statement is fetched |
| SqlTools.LeadingWord | src/neon_swarm/tools.py:363 | A statement whose first six characters have no whitespace at either end fetches exactly when those six lower-case to "select" |
| SqlTools.SelectFetches | src/neon_swarm/tools.py:363-364 | A statement starting "SELECT" is fetched, whatever follows |
| SqlTools.IndentedSelectFetches | src/neon_swarm/tools.py:363-364 | A lower-case "select" statement indented by two spaces is fetched |
| SqlTools.InsertCommits | src/neon_swarm/tools.py:363-368 | A statement starting "INSERT" is committed, whatever follows |
| SqlTools.UpdateCommits | src/neon_swarm/tools.py:363-368 | A statement starting "UPDATE" is committed |
| SqlTools.WithCommits | src/neon_swarm/tools.py:363-368 | A statement starting "WITH t" (a common table expression) is not taken for a SELECT, so execute_sql commits it and returns [], although such a query yields rows |
| SqlTools.StripFramed | src/neon_swarm/tools.py:392-404 | A statement surrounded by whitespace strips to the statement |
| SqlTools.FramedIsSelect | src/neon_swarm/tools.py:392-404 | A whitespace-framed statement whose keyword spells select in any case is a SELECT |
| SqlTools.SchemaQueryIsSelect | src/neon_swarm/tools.py:392-407 | The schema query is a SELECT, so fetching the schema fetches rows and never commits |
| SqlTools.FirstUnpackErrorPrefix | src/neon_swarm/tools.py:410-411 | Once a row fails to unpack, later rows do not change the exception |
| SqlTools.TablesSnoc | src/neon_swarm/tools.py:410-418 | One more row adds its table if it is new, appends its column record to that table only, and fails if it cannot be unpacked |
| SqlTools.ColumnsOfAbsent | src/neon_swarm/tools.py:412-413 | A table no row names has no columns |
| SqlTools.GroupSchema | src/neon_swarm/tools.py:409-420 | The loop and comprehension give GroupedSchema: the first unpacking exception, or one record per distinct table, in first-seen order, with its rows' column records in row order |
| SqlTools.FetchDatabaseSchema | src/neon_swarm/tools.py:378-423 | Executes exactly the schema query and never commits. A database exception escapes with the cursor left as it was. Otherwise the cursor is closed and the result is the grouped rows |
| SqlTools.FirstUnpackErrorSpec | src/neon_swarm/tools.py:410-411 | Grouping raises exactly when some row cannot be unpacked (not four cells, or an unhashable name). It raises that row's exception for the first such row |
| SqlTools.TablesDistinct | src/neon_swarm/tools.py:412-413 | No table appears twice in the result |
| SqlTools.TablesMembership | src/neon_swarm/tools.py:410-413 | A table appears exactly when some row names it |
| SqlTools.FirstRow | src/neon_swarm/tools.py:412-413 | The index of the first row naming a table: it names the table and no earlier row does |
| SqlTools.FirstRowExtend | src/neon_swarm/tools.py:412-413 | Appending a row keeps the first row of an already-seen table |
| SqlTools.FirstRowNew | src/neon_swarm/tools.py:412-413 | A table new in the appended row has that row as its first |
| SqlTools.TablesFirstSeen | src/neon_swarm/tools.py:409-420 | Tables are listed in the order of their first rows, the dict's insertion order |
| SqlTools.ColumnCountSnocRow | src/neon_swarm/tools.py:410-418 | One more row adds one column to its table's entry and none elsewhere |
| SqlTools.OccurrencesDistinct | src/neon_swarm/tools.py:412-413 | In a list without repeats, a name occurs once or not at all |
| SqlTools.ColumnCountSnocTable | src/neon_swarm/tools.py:420 | Column counts add up table by table |
| SqlTools.ColumnCountTotal | src/neon_swarm/tools.py:410-420 | Every row lands in exactly one table: the column lists together are as long as the input |
| SqlTools.EmptySchema | src/neon_swarm/tools.py:409-420 | No rows give the empty list |
| SqlTools.UsersExample | src/neon_swarm/tools.py:409-420 | Two "users" rows give one record with both columns in row order |
| Agents.AgentOf | src/neon_swarm/agents.py:50-77 | Each module-level agent carries its own identity |
| Agents.Invoke | src/neon_swarm/agents.py:31-47 | Exactly the three transfer tools hand off, each to its fixed agent; every other tool returns data |
| Agents.Step | src/neon_swarm/agents.py:50-77 | A tool can be called exactly when it is on the active agent's list. A hand-off activates its target. Any other tool keeps the active agent |
| Agents.TransfersOffered | src/neon_swarm/agents.py:53-76 | transfer_to_neon_agent and transfer_to_query_generator are offered only by the executor; transfer_to_query_executor by the other two agents |
| Agents.Edges | src/neon_swarm/agents.py:31-77 | The hand-off graph has exactly the edges Neon→executor, executor→generator, executor→Neon, generator→executor |
| Agents.StepFollowsEdge | src/neon_swarm/agents.py:31-77 | A call that changes the active agent follows a hand-off edge |
| Agents.AllReachableFromNeonAgent | src/neon_swarm/agents.py:50-77 | Every agent is reachable from the Neon agent by allowed calls |
| Agents.GeneratorOnlyThroughExecutor | src/neon_swarm/agents.py:50-77 | A run that reaches the SQL generator from another agent passed through the SQL executor |
| Agents.ToolNamesUnique | src/neon_swarm/agents.py:53-76 | No allow-list offers a tool name twice |
| Agents.NeonAgentTools | src/neon_swarm/agents.py:53-64 | The Neon agent offers exactly the hand-off to the executor and its nine project, branch and connection tools |
| Agents.AllowLists | src/neon_swarm/agents.py:53-76 | Only the executor can execute SQL. Only the generator can fetch the schema. No agent offers list_projects or get_current_user_info. The Neon agent offers exactly its nine API tools plus the hand-off to the executor |
| Agents.TriageInstructions | src/neon_swarm/agents.py:4-13 | The triage prompt starts with its fixed text |
| Agents.TriageEmbedsContext | src/neon_swarm/agents.py:4-13 | The triage prompt embeds user_info, then user_projects ("None" when missing), verbatim at fixed positions |
| Agents.InstructionsReadOnlyTwoKeys | src/neon_swarm/agents.py:4-29 | Contexts that agree on user_info and user_projects give every agent the same prompt |
| Agents.PromptsIgnoreContext | src/neon_swarm/agents.py:15-29 | The executor's and generator's prompts do not depend on the context |
| Session.UnwrapDescribe | src/neon_swarm/main.py:8-15 | A context description gives back exactly the rendered value it wraps |
| Session.NeonAgentInit | src/neon_swarm/main.py:5-16 | User info is fetched first. If that raises, nothing else is called and the exception escapes. Otherwise projects are fetched, and their exception escapes. On success the Neon agent starts with exactly user_info and user_projects in the context, each the fixed lead, the rendered value and the trailer |
| Session.InitCallsEachOnce | src/neon_swarm/main.py:6-7 | Each API tool is called at most once, user info first |
| Session.InitPromptEmbedsDescriptions | src/neon_swarm/main.py:8-16 | The Neon agent's first prompt embeds both descriptions, neither shown as "None" |
| Session.SqlExecutorInit | src/neon_swarm/main.py:19-23 | The SQL executor starts with the connection URI as the only context entry |

## Left out

- HTTP requests: URLs, headers, the API key from the environment, the `BASE_URL` constant and the project id are not modelled. The project id is only ever part of a URL path. Each request's outcome is the `Reply` parameter.
- The HTTP call of create_project is one `Http.Call`; only its request body (`NeonApi.CreateProjectPayload`) is modelled on its own.
- list_projects_with_details, get_project, list_project_branches, get_project_branch and delete_project_branch pass the response straight to handle_response. Each is `Http.Call` of its reply, so they are not modelled separately.
- Logging and `print` have no effect on any result and are not modelled.
- psycopg2: `Connection.answer` stands in for the connection setup, SSL mode and the real database. The connection itself is never closed by the source, only the cursor.
- SqlTools.ExecuteSql: the source opens a fresh connection and cursor on every call (tools.py:356-357), while the model's `Connection` keeps `committed`, `cursorClosed` and `executed` from one call to the next; only a fresh `Connection` has the source's state before a call, so on a raise the cursor is open and nothing committed only in that case.
- SqlTools.ExecuteSql: a failure of `psycopg2.connect` (tools.py:356) is an exception `answer` returns, so the model still records the statement in `executed`, although the source executes nothing in that case. The connection is not a separate object in the model, so connecting and executing fail the same way.
- The swarm runtime: turn-taking, model calls and how the runtime applies a returned agent are outside the core. `Agents.Step` models only which agent is active after a tool call.
- Prompt texts are kept exactly, but their meaning to a language model is not modelled.
- The top-level `agents.py` and `main.py`, and the test file, are not part of this model. The mis-cased `from Swarm import Agent` in `main.py` is an import error in Python and is ignored.
- Session.NeonAgentInit: Python's `str()` of the fetched dicts is the abstract parameter `render`, because dict key order and repr formatting are not modelled (Json objects are maps).
- PyText.Lower: lower-cases ASCII letters only, because full Unicode case mapping is not modelled. Non-ASCII letters are kept as they are.
- SqlTools.Hashable: treats every scalar as a valid dict key. Python's merging of `True` with `1` as dict keys is not modelled.
- Floating-point values in JSON and in database rows are not modelled.
