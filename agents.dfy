/** src/neon_swarm/agents.py: three immutable agents, each with a fixed tool
    allow-list and a prompt built from the shared context, and the three
    hand-off tools that name the agent to switch to. Seen as a state machine,
    the state is the active agent and a hand-off tool of its allow-list is a
    step. */
module Agents {
  import opened Values

  /** The shared context: every value the repository stores in it is text. */
  type Context = map<string, string>

  datatype AgentId = NeonAgent | SqlExecutor | SqlGenerator

  /** Every function of tools.py and agents.py that is handed to an agent. */
  datatype Tool =
    | TransferToNeonAgent | TransferToQueryExecutor | TransferToQueryGenerator
    | ListProjects | ListProjectsWithDetails | GetProject | CreateProject | DeleteProject
    | GetConnectionUri | CreateProjectBranch | ListProjectBranches | GetProjectBranch
    | DeleteProjectBranch | GetCurrentUserInfo | ExecuteSql | FetchDatabaseSchema

  /** The name the model calls a tool by: the Python function's name. */
  function ToolName(t: Tool): string
  {
    match t
    case TransferToNeonAgent => "transfer_to_neon_agent"
    case TransferToQueryExecutor => "transfer_to_query_executor"
    case TransferToQueryGenerator => "transfer_to_query_generator"
    case ListProjects => "list_projects"
    case ListProjectsWithDetails => "list_projects_with_details"
    case GetProject => "get_project"
    case CreateProject => "create_project"
    case DeleteProject => "delete_project"
    case GetConnectionUri => "get_connection_uri"
    case CreateProjectBranch => "create_project_branch"
    case ListProjectBranches => "list_project_branches"
    case GetProjectBranch => "get_project_branch"
    case DeleteProjectBranch => "delete_project_branch"
    case GetCurrentUserInfo => "get_current_user_info"
    case ExecuteSql => "execute_sql"
    case FetchDatabaseSchema => "fetch_database_schema"
  }

  /** An agent: its identity, display name and ordered allow-list. Its
      instructions are the function Instructions(id, _). */
  datatype Agent = Agent(id: AgentId, name: string, functions: seq<Tool>)

  const NeonAgentValue: Agent := Agent(NeonAgent, "Neon Agent", [
    TransferToQueryExecutor, ListProjectsWithDetails, GetProject, CreateProject, DeleteProject,
    GetConnectionUri, CreateProjectBranch, ListProjectBranches, GetProjectBranch, DeleteProjectBranch])

  const SqlExecutorValue: Agent :=
    Agent(SqlExecutor, "SQL Executor", [TransferToQueryGenerator, TransferToNeonAgent, ExecuteSql])

  const SqlGeneratorValue: Agent :=
    Agent(SqlGenerator, "SQL Generator", [TransferToQueryExecutor, FetchDatabaseSchema])

  /** The module-level agent with this identity. */
  function AgentOf(id: AgentId): (a: Agent)
    ensures a.id == id
  {
    match id
    case NeonAgent => NeonAgentValue
    case SqlExecutor => SqlExecutorValue
    case SqlGenerator => SqlGeneratorValue
  }

  /** What calling a tool returns as far as routing cares: ordinary data, or
      the agent object a transfer_to_* function returns, named by its identity
      (AgentOf gives the object). */
  datatype ToolResult = Data | HandOff(target: AgentId)

  /** transfer_to_neon_agent, transfer_to_query_executor and
      transfer_to_query_generator take no argument and return a fixed agent;
      every other tool returns data. */
  function Invoke(t: Tool): (r: ToolResult)
    ensures r.HandOff? <==> t in {TransferToNeonAgent, TransferToQueryExecutor, TransferToQueryGenerator}
    ensures t == TransferToNeonAgent ==> r == HandOff(NeonAgent)
    ensures t == TransferToQueryExecutor ==> r == HandOff(SqlExecutor)
    ensures t == TransferToQueryGenerator ==> r == HandOff(SqlGenerator)
  {
    match t
    case TransferToNeonAgent => HandOff(NeonAgent)
    case TransferToQueryExecutor => HandOff(SqlExecutor)
    case TransferToQueryGenerator => HandOff(SqlGenerator)
    case _ => Data
  }

  /** One call of a tool by the active agent: a tool outside its allow-list
      cannot be called (None); a hand-off makes the returned agent active; any
      other tool leaves the active agent as it is. */
  function Step(active: AgentId, t: Tool): (next: Option<AgentId>)
    ensures next.Some? <==> t in AgentOf(active).functions
    ensures next.Some? && Invoke(t).Data? ==> next.value == active
    ensures next.Some? && Invoke(t).HandOff? ==> next.value == Invoke(t).target
  {
    if t !in AgentOf(active).functions then None
    else
      match Invoke(t)
      case Data => Some(active)
      case HandOff(target) => Some(target)
  }

  /** The active agent after a sequence of tool calls, None as soon as one is
      not allowed. */
  function Run(start: AgentId, calls: seq<Tool>): Option<AgentId>
  {
    if calls == [] then Some(start)
    else
      match Run(start, calls[..|calls| - 1])
      case None => None
      case Some(active) => Step(active, calls[|calls| - 1])
  }

  /** A hand-off edge: some tool of a's allow-list hands off to b. */
  ghost predicate Edge(a: AgentId, b: AgentId)
  {
    exists t :: t in AgentOf(a).functions && Invoke(t) == HandOff(b)
  }

  /** Which of the three transfer tools each allow-list offers. */
  lemma TransfersOffered(a: AgentId)
    ensures TransferToNeonAgent in AgentOf(a).functions <==> a == SqlExecutor
    ensures TransferToQueryExecutor in AgentOf(a).functions <==> a != SqlExecutor
    ensures TransferToQueryGenerator in AgentOf(a).functions <==> a == SqlExecutor
  {
    match a
    case NeonAgent =>
      assert NeonAgentValue.functions[0] == TransferToQueryExecutor;
    case SqlExecutor =>
      assert SqlExecutorValue.functions[0] == TransferToQueryGenerator;
      assert SqlExecutorValue.functions[1] == TransferToNeonAgent;
    case SqlGenerator =>
      assert SqlGeneratorValue.functions[0] == TransferToQueryExecutor;
  }

  /** The hand-off graph has exactly four edges; in particular the Neon agent
      cannot hand off to the SQL generator. */
  lemma Edges(a: AgentId, b: AgentId)
    ensures Edge(a, b) <==>
      || (a == NeonAgent && b == SqlExecutor)
      || (a == SqlExecutor && b == SqlGenerator)
      || (a == SqlExecutor && b == NeonAgent)
      || (a == SqlGenerator && b == SqlExecutor)
  {
    TransfersOffered(a);
    var transfer := match b
      case NeonAgent => TransferToNeonAgent
      case SqlExecutor => TransferToQueryExecutor
      case SqlGenerator => TransferToQueryGenerator;
    assert Invoke(transfer) == HandOff(b);
    if Edge(a, b) {
      var t :| t in AgentOf(a).functions && Invoke(t) == HandOff(b);
      assert t == transfer;
    }
  }

  /** A step that changes the active agent follows an edge. */
  lemma StepFollowsEdge(active: AgentId, t: Tool)
    requires Step(active, t).Some? && Step(active, t).value != active
    ensures Edge(active, Step(active, t).value)
  {
    assert Invoke(t).HandOff?;
  }

  /** Every agent is reachable from the Neon agent. */
  lemma AllReachableFromNeonAgent(b: AgentId)
    ensures exists calls :: Run(NeonAgent, calls) == Some(b)
  {
    match b
    case NeonAgent =>
      assert Run(NeonAgent, []) == Some(NeonAgent);
    case SqlExecutor =>
      var calls := [TransferToQueryExecutor];
      assert calls[..0] == [];
      assert Run(NeonAgent, calls) == Some(SqlExecutor);
    case SqlGenerator =>
      var calls := [TransferToQueryExecutor, TransferToQueryGenerator];
      assert calls[..1] == [TransferToQueryExecutor] && calls[..1][..0] == [];
      assert Run(NeonAgent, calls) == Some(SqlGenerator);
  }

  /** The SQL generator is entered only from the SQL executor: a run that
      starts elsewhere and ends at the generator has the executor active after
      some prefix of it. */
  lemma {:induction false} GeneratorOnlyThroughExecutor(start: AgentId, calls: seq<Tool>)
    requires start != SqlGenerator
    requires Run(start, calls) == Some(SqlGenerator)
    ensures exists k :: 0 <= k < |calls| && Run(start, calls[..k]) == Some(SqlExecutor)
  {
    var init := calls[..|calls| - 1];
    var previous := Run(start, init);
    if previous == Some(SqlGenerator) {
      GeneratorOnlyThroughExecutor(start, init);
      var k :| 0 <= k < |init| && Run(start, init[..k]) == Some(SqlExecutor);
      assert init[..k] == calls[..k];
    } else {
      var a := previous.value;
      StepFollowsEdge(a, calls[|calls| - 1]);
      Edges(a, SqlGenerator);
      assert calls[..|calls| - 1] == init;
    }
  }

  /** No allow-list names a tool twice. */
  lemma ToolNamesUnique(id: AgentId)
    ensures forall i, j :: 0 <= i < j < |AgentOf(id).functions| ==>
      ToolName(AgentOf(id).functions[i]) != ToolName(AgentOf(id).functions[j])
  {
  }

  /** The Neon agent has the nine project, branch and connection tools and
      the hand-off to the executor, and nothing else. */
  lemma NeonAgentTools()
    ensures forall t :: t in NeonAgentValue.functions <==>
      t == TransferToQueryExecutor || t in {ListProjectsWithDetails, GetProject, CreateProject,
        DeleteProject, GetConnectionUri, CreateProjectBranch, ListProjectBranches, GetProjectBranch,
        DeleteProjectBranch}
  {
  }

  /** execute_sql is offered only by the executor and fetch_database_schema
      only by the generator; the Neon agent has the nine project, branch and
      connection tools but neither list_projects nor get_current_user_info. */
  lemma AllowLists(id: AgentId)
    ensures ExecuteSql in AgentOf(id).functions <==> id == SqlExecutor
    ensures FetchDatabaseSchema in AgentOf(id).functions <==> id == SqlGenerator
    ensures ListProjects !in AgentOf(id).functions && GetCurrentUserInfo !in AgentOf(id).functions
    ensures id == NeonAgent ==>
      forall t :: t in AgentOf(id).functions <==>
        t == TransferToQueryExecutor || t in {ListProjectsWithDetails, GetProject, CreateProject,
          DeleteProject, GetConnectionUri, CreateProjectBranch, ListProjectBranches, GetProjectBranch,
          DeleteProjectBranch}
  {
    match id
    case NeonAgent => NeonAgentTools();
    case SqlExecutor => assert SqlExecutorValue.functions[2] == ExecuteSql;
    case SqlGenerator => assert SqlGeneratorValue.functions[1] == FetchDatabaseSchema;
  }

  const TriageLead: string :=
    "You are to triage a users request, and call a tool to transfer to the right intent.\n" +
    "    Once you are ready to transfer to the right intent, call the tool to transfer to the right intent.\n" +
    "    You dont need to know specifics, just the topic of the request.\n" +
    "    When you need more information to triage the request to an agent, ask a direct question without explaining why you're asking it.\n" +
    "    Do not share your thought process with the user! Do not make unreasonable assumptions on behalf of user.\n" +
    "    If the user intent is to query the database, you need to get the connection URI first using the get_connection_uri tool.\n" +
    "    The customer context is here: "

  const TriageMiddle: string := ", and their projects are here: "

  const ExecutorPrompt: string :=
    "\n    You are a PostgresSQL query executor. You are given a user query, a connection URI, or the correct SQL query to execute.\n" +
    "    If you don't have a the SQL query, you need to generate it using the transfer_to_query_generator tool.\n" +
    "    If you have a SQL query, you need to execute it using the execute_sql tool.\n" +
    "    You need to execute the query, and return the results.\n" +
    "    Mask the connection URI from the user, unless the user asks for it.\n" +
    "    "

  const GeneratorPrompt: string :=
    "\n    You are a PostgresSQL query generator. You are given a database schema and a user query, and you need to generate the correct SQL query to execute.\n" +
    "    Once you have the connection URI, you need to use the fetch_database_schema tool to get the database schema.\n" +
    "    Once you have the database schema, you need to generate the correct SQL query to execute.\n" +
    "    "

  /** `context_variables.get(key, None)` formatted into an f-string: the
      text itself, or "None" when the key is missing. */
  function Formatted(ctx: Context, key: string): string
  {
    if key in ctx then ctx[key] else "None"
  }

  /** triage_instructions. */
  function TriageInstructions(ctx: Context): (r: string)
    ensures |TriageLead| <= |r| && r[..|TriageLead|] == TriageLead
  {
    TriageLead + Formatted(ctx, "user_info") + TriageMiddle + Formatted(ctx, "user_projects")
  }

  /** sql_executor_instructions. */
  function ExecutorInstructions(ctx: Context): string
  {
    ExecutorPrompt
  }

  /** sql_generator_instructions. */
  function GeneratorInstructions(ctx: Context): string
  {
    GeneratorPrompt
  }

  function Instructions(id: AgentId, ctx: Context): string
  {
    match id
    case NeonAgent => TriageInstructions(ctx)
    case SqlExecutor => ExecutorInstructions(ctx)
    case SqlGenerator => GeneratorInstructions(ctx)
  }

  /** The triage prompt embeds user_info and user_projects verbatim, in that
      order, right after fixed text. */
  lemma TriageEmbedsContext(ctx: Context)
    ensures var info := Formatted(ctx, "user_info");
      var projects := Formatted(ctx, "user_projects");
      var r := TriageInstructions(ctx);
      && r[|TriageLead|..|TriageLead| + |info|] == info
      && r[|TriageLead| + |info|..|TriageLead| + |info| + |TriageMiddle|] == TriageMiddle
      && r[|TriageLead| + |info| + |TriageMiddle|..] == projects
  {
    Pieces(TriageLead, Formatted(ctx, "user_info"), TriageMiddle, Formatted(ctx, "user_projects"));
  }

  /** Where each of four concatenated texts sits in the whole. */
  lemma Pieces(a: string, b: string, c: string, d: string)
    ensures var r := a + b + c + d;
      && r[|a|..|a| + |b|] == b
      && r[|a| + |b|..|a| + |b| + |c|] == c
      && r[|a| + |b| + |c|..] == d
  {
    var r := a + b + c + d;
    assert r[|a|..|a| + |b|] == b;
    assert r[|a| + |b|..|a| + |b| + |c|] == c;
    assert r[|a| + |b| + |c|..] == d;
  }

  /** Only user_info and user_projects of the context affect any prompt. */
  lemma InstructionsReadOnlyTwoKeys(id: AgentId, c1: Context, c2: Context)
    requires forall k :: k in {"user_info", "user_projects"} ==>
      (k in c1 <==> k in c2) && (k in c1 ==> c1[k] == c2[k])
    ensures Instructions(id, c1) == Instructions(id, c2)
  {
    assert Formatted(c1, "user_info") == Formatted(c2, "user_info");
    assert Formatted(c1, "user_projects") == Formatted(c2, "user_projects");
  }

  /** The executor and generator prompts ignore the context. */
  lemma PromptsIgnoreContext(c1: Context, c2: Context)
    ensures ExecutorInstructions(c1) == ExecutorInstructions(c2)
    ensures GeneratorInstructions(c1) == GeneratorInstructions(c2)
  {
  }
}
