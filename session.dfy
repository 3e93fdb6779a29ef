/** src/neon_swarm/main.py: the two ways a session starts, each giving the
    entry agent and the shared context. The values the API calls fetch are
    parameters, and `render` stands for Python's `str()` of a value, which the
    model leaves abstract. */
module Session {
  import opened Values
  import opened Agents

  const UserInfoLead: string := "Here is what you know about the user's info:\n        "
  const ProjectsLead: string := "Here is what you know about the user's projects:\n        "
  const Trailer: string := "\n        "

  /** The triple-quoted f-string main.py wraps a fetched value in. */
  function Describe(lead: string, rendered: string): string
  {
    lead + rendered + Trailer
  }

  /** The rendered value inside a description, if `text` is one. */
  function Unwrap(lead: string, text: string): Option<string>
  {
    if |lead| + |Trailer| <= |text| && text[..|lead|] == lead && text[|text| - |Trailer|..] == Trailer
    then Some(text[|lead|..|text| - |Trailer|])
    else None
  }

  /** A description gives back exactly the rendered value it wraps. */
  lemma UnwrapDescribe(lead: string, rendered: string)
    ensures Unwrap(lead, Describe(lead, rendered)) == Some(rendered)
  {
    var text := Describe(lead, rendered);
    assert text[..|lead|] == lead;
    assert text[|text| - |Trailer|..] == Trailer;
    assert text[|lead|..|text| - |Trailer|] == rendered;
  }

  /** The entry agent and the context a session starts with. */
  datatype Start = Start(agent: Agent, context: Context)

  /** The API tools called, in order, and what the initialisation did. */
  datatype Init = Init(calls: seq<Tool>, outcome: Outcome<Start>)

  /** neon_agent_init: fetch the user's info, then the user's projects, and
      start at the Neon agent with both described in the context. An
      exception from either call escapes; after the first nothing more is
      called. */
  function NeonAgentInit(userInfo: Outcome<Json>, userProjects: Outcome<Json>, render: Json -> string): (r: Init)
    ensures userInfo.Raised? ==> r == Init([GetCurrentUserInfo], Raised(userInfo.error))
    ensures userInfo.Returned? ==> r.calls == [GetCurrentUserInfo, ListProjects]
    ensures userInfo.Returned? && userProjects.Raised? ==> r.outcome == Raised(userProjects.error)
    ensures userInfo.Returned? && userProjects.Returned? ==>
      && r.outcome.Returned?
      && r.outcome.value.agent == NeonAgentValue
      && r.outcome.value.context.Keys == {"user_info", "user_projects"}
      && r.outcome.value.context["user_info"] == Describe(UserInfoLead, render(userInfo.value))
      && r.outcome.value.context["user_projects"] == Describe(ProjectsLead, render(userProjects.value))
  {
    match userInfo
    case Raised(e) => Init([GetCurrentUserInfo], Raised(e))
    case Returned(info) =>
      match userProjects
      case Raised(e) => Init([GetCurrentUserInfo, ListProjects], Raised(e))
      case Returned(projects) =>
        var context := map[
          "user_info" := Describe(UserInfoLead, render(info)),
          "user_projects" := Describe(ProjectsLead, render(projects))];
        Init([GetCurrentUserInfo, ListProjects], Returned(Start(AgentOf(NeonAgent), context)))
  }

  /** Each of the two API tools is called at most once, user info first. */
  lemma InitCallsEachOnce(userInfo: Outcome<Json>, userProjects: Outcome<Json>, render: Json -> string)
    ensures var calls := NeonAgentInit(userInfo, userProjects, render).calls;
      && 1 <= |calls| && calls[0] == GetCurrentUserInfo
      && forall i, j :: 0 <= i < j < |calls| ==> calls[i] != calls[j]
  {
  }

  /** The initial context is what the Neon agent's prompt reads: both of its
      keys are present, so neither prints as "None". */
  lemma InitPromptEmbedsDescriptions(info: Json, projects: Json, render: Json -> string)
    ensures var start := NeonAgentInit(Returned(info), Returned(projects), render).outcome.value;
      TriageInstructions(start.context) ==
        TriageLead + Describe(UserInfoLead, render(info)) + TriageMiddle + Describe(ProjectsLead, render(projects))
  {
  }

  /** sql_executor_init: start at the SQL executor with the connection URI as
      the only context entry. */
  function SqlExecutorInit(connectionUri: string): (r: Start)
    ensures r.agent == SqlExecutorValue
    ensures r.context.Keys == {"connection_uri"}
    ensures r.context["connection_uri"] == connectionUri
  {
    Start(AgentOf(SqlExecutor), map["connection_uri" := connectionUri])
  }
}
