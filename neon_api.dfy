/** The management-API tools of src/neon_swarm/tools.py: how each one shapes
    the response it gets, and the request bodies and query parameters it builds.
    The network is a parameter: `reply` is what sending the request produced. */
module NeonApi {
  import opened Values
  import opened Http
  import PyText

  /** The five keys list_projects keeps of each project. */
  const ProjectKeys: set<string> := {"id", "name", "region_id", "pg_version", "org_id"}

  /** The five keys get_current_user_info keeps of the user record. */
  const UserKeys: set<string> := {"name", "last_name", "email", "id", "plan"}

  /** The projects list_projects loops over, or the exception raised before the
      loop body first succeeds. `full_response.get("projects", [])` needs a dict;
      a list value is iterated item by item; an empty dict or string is an empty
      loop; iterating a non-empty dict or string yields strings, and `.get` on the
      first one raises AttributeError; None, a bool or a number is not iterable. */
  function UpstreamProjects(reply: Reply): Outcome<seq<Json>>
  {
    match Call(reply)
    case Raised(e) => Raised(e)
    case Returned(full) =>
      if !full.JObj? then Raised(AttributeError)
      else
        match (if "projects" in full.fields then full.fields["projects"] else JArr([]))
        case JArr(items) => Returned(items)
        case JObj(d) => if d == map[] then Returned([]) else Raised(AttributeError)
        case JStr(s) => if s == "" then Returned([]) else Raised(AttributeError)
        case _ => Raised(TypeError)
  }

  /** `out` is `{"projects": L}` where L keeps, entry by entry and in order, the
      five ProjectKeys of each upstream project. */
  ghost predicate FilteredProjects(items: seq<Json>, out: Json)
  {
    && out.JObj? && out.fields.Keys == {"projects"} && out.fields["projects"].JArr?
    && var entries := out.fields["projects"].items;
    && |entries| == |items|
    && forall i :: 0 <= i < |items| ==>
         items[i].JObj? && entries[i] == JObj(Pick(items[i].fields, ProjectKeys))
  }

  /** list_projects: fetch the projects and keep five fields of each. */
  method ListProjects(reply: Reply) returns (r: Outcome<Json>)
    ensures UpstreamProjects(reply).Raised? ==> r == Raised(UpstreamProjects(reply).error)
    ensures UpstreamProjects(reply).Returned? ==>
      var items := UpstreamProjects(reply).value;
      && (r.Returned? <==> forall i :: 0 <= i < |items| ==> items[i].JObj?)
      && (r.Raised? ==> r.error == AttributeError)
      && (r.Returned? ==> FilteredProjects(items, r.value))
    // An HTTP error is not reported: the error dict has no "projects" key.
    ensures reply.Received? && IsHttpError(reply.response.status) ==>
      r == Returned(JObj(map["projects" := JArr([])]))
  {
    var full := Call(reply);
    if full.Raised? {
      return Raised(full.error);
    }
    if !full.value.JObj? {
      return Raised(AttributeError);
    }
    var fields := full.value.fields;
    var listed := if "projects" in fields then fields["projects"] else JArr([]);
    var items: seq<Json>;
    match listed {
      case JArr(xs) => items := xs;
      case JObj(d) =>
        if d != map[] { return Raised(AttributeError); }
        items := [];
      case JStr(s) =>
        if s != "" { return Raised(AttributeError); }
        items := [];
      case _ => return Raised(TypeError);
    }
    var filtered: seq<Json> := [];
    for i := 0 to |items|
      invariant |filtered| == i
      invariant forall j :: 0 <= j < i ==>
        items[j].JObj? && filtered[j] == JObj(Pick(items[j].fields, ProjectKeys))
    {
      var project := items[i];
      if !project.JObj? {
        return Raised(AttributeError);
      }
      filtered := filtered + [JObj(Pick(project.fields, ProjectKeys))];
    }
    r := Returned(JObj(map["projects" := JArr(filtered)]));
  }

  /** Every project list_projects returns has exactly the five keys, a key the
      upstream record lacks becoming None. */
  lemma FilteredProjectKeys(items: seq<Json>, out: Json, i: int)
    requires FilteredProjects(items, out)
    requires 0 <= i < |items|
    ensures out.fields["projects"].items[i].JObj?
    ensures out.fields["projects"].items[i].fields.Keys == ProjectKeys
    ensures forall k :: k in ProjectKeys ==>
      out.fields["projects"].items[i].fields[k] == Get(items[i].fields, k)
  {
  }

  /** delete_project: its `except Exception: raise` only re-raises what the
      request itself raised; an HTTP error is returned as the error value,
      although the doc comment promises an exception. */
  function DeleteProject(reply: Reply): (r: Outcome<Json>)
    ensures r.Raised? <==> reply.Unreachable? || (!IsHttpError(reply.response.status) && reply.response.body.None?)
    ensures reply.Received? && IsHttpError(reply.response.status) ==>
      r == Returned(ErrorValue("HTTPError: " + reply.response.failure))
    ensures reply.Unreachable? ==> r == Raised(Transport(reply.message))
    ensures reply.Received? && !IsHttpError(reply.response.status) && reply.response.body.Some? ==>
      r == Returned(reply.response.body.value)
    ensures reply.Received? && !IsHttpError(reply.response.status) && reply.response.body.None? ==>
      r == Raised(JsonDecode)
  {
    Call(reply)
  }

  /** The request body of create_project. */
  function CreateProjectPayload(name: Json, regionId: Json, pgVersion: Json := JInt(16)): (p: Json)
    ensures p.JObj? && p.fields.Keys == {"project"}
    ensures p.fields["project"].JObj?
    ensures p.fields["project"].fields.Keys == {"pg_version", "name", "region_id"}
    ensures p.fields["project"].fields["pg_version"] == pgVersion
    ensures p.fields["project"].fields["name"] == name
    ensures p.fields["project"].fields["region_id"] == regionId
  {
    JObj(map["project" := JObj(map["pg_version" := pgVersion, "name" := name, "region_id" := regionId])])
  }

  /** Without a pg_version argument the project asks for Postgres 16. */
  lemma CreateProjectDefaultVersion(name: Json, regionId: Json)
    ensures CreateProjectPayload(name, regionId).fields["project"].fields["pg_version"] == JInt(16)
  {
  }

  /** `str(b)` for a Python bool. */
  function BoolRepr(b: bool): string
  {
    if b then "True" else "False"
  }

  /** get_connection_uri: the query parameters it sends, and what it returns.
      The project id only names the URL path, which is not modelled. */
  method GetConnectionUri(reply: Reply, databaseName: string := "neondb", roleName: string := "neondb_owner",
                          branchId: Option<string> := None, endpointId: Option<string> := None,
                          pooled: Option<bool> := None)
    returns (params: map<string, string>, r: Outcome<Json>)
    ensures "database_name" in params && params["database_name"] == databaseName
    ensures "role_name" in params && params["role_name"] == roleName
    ensures "branch_id" in params <==> branchId.Some?
    ensures branchId.Some? ==> params["branch_id"] == branchId.value
    ensures "endpoint_id" in params <==> endpointId.Some?
    ensures endpointId.Some? ==> params["endpoint_id"] == endpointId.value
    ensures "pooled" in params <==> pooled.Some?
    ensures pooled.Some? ==> params["pooled"] == (if pooled.value then "true" else "false")
    ensures params.Keys <= {"database_name", "role_name", "branch_id", "endpoint_id", "pooled"}
    // The `try ... except Exception: raise` does not turn an HTTP error into an exception.
    ensures r.Raised? <==> reply.Unreachable? || (!IsHttpError(reply.response.status) && reply.response.body.None?)
    ensures reply.Received? && IsHttpError(reply.response.status) ==>
      r == Returned(ErrorValue("HTTPError: " + reply.response.failure))
    // Whatever handle_response made of the reply is returned unchanged.
    ensures r == Call(reply)
  {
    params := map["database_name" := databaseName, "role_name" := roleName];
    if branchId.Some? {
      params := params["branch_id" := branchId.value];
    }
    if endpointId.Some? {
      params := params["endpoint_id" := endpointId.value];
    }
    if pooled.Some? {
      params := params["pooled" := PyText.Lower(BoolRepr(pooled.value))];
    }
    r := Call(reply);
  }

  /** create_project_branch: the request body it posts, and what it returns.
      An argument left out is None; `is not None` decides each optional part. */
  method CreateProjectBranch(reply: Reply, parentId: Json := JNull, name: Json := JNull, endpointType: Json := JNull)
    returns (payload: Json, r: Outcome<Json>)
    ensures payload.JObj? && "branch" in payload.fields && payload.fields["branch"].JObj?
    ensures payload.fields.Keys == if endpointType != JNull then {"branch", "endpoints"} else {"branch"}
    ensures "parent_id" in payload.fields["branch"].fields <==> parentId != JNull
    ensures "name" in payload.fields["branch"].fields <==> name != JNull
    ensures payload.fields["branch"].fields.Keys <= {"parent_id", "name"}
    ensures parentId != JNull ==> payload.fields["branch"].fields["parent_id"] == parentId
    ensures name != JNull ==> payload.fields["branch"].fields["name"] == name
    ensures endpointType != JNull ==> payload.fields["endpoints"] == JArr([JObj(map["type" := endpointType])])
    ensures parentId == JNull && name == JNull && endpointType == JNull ==>
      payload == JObj(map["branch" := JObj(map[])])
    ensures r.Raised? <==> reply.Unreachable? || (!IsHttpError(reply.response.status) && reply.response.body.None?)
    ensures reply.Received? && IsHttpError(reply.response.status) ==>
      r == Returned(ErrorValue("HTTPError: " + reply.response.failure))
    ensures r == Call(reply)
  {
    var body: map<string, Json> := map["branch" := JObj(map[])];
    if parentId != JNull {
      body := body["branch" := JObj(body["branch"].fields["parent_id" := parentId])];
    }
    if name != JNull {
      body := body["branch" := JObj(body["branch"].fields["name" := name])];
    }
    if endpointType != JNull {
      body := body["endpoints" := JArr([JObj(map["type" := endpointType])])];
    }
    payload := JObj(body);
    r := Call(reply);
  }

  /** get_current_user_info: keep five fields of the user record. */
  function GetCurrentUserInfo(reply: Reply): (r: Outcome<Json>)
    ensures Call(reply).Raised? ==> r == Call(reply)
    ensures Call(reply).Returned? && !Call(reply).value.JObj? ==> r == Raised(AttributeError)
    ensures Call(reply).Returned? && Call(reply).value.JObj? ==>
      && r.Returned? && r.value.JObj? && r.value.fields.Keys == UserKeys
      && forall k :: k in UserKeys ==> r.value.fields[k] == Get(Call(reply).value.fields, k)
  {
    match Call(reply)
    case Raised(e) => Raised(e)
    case Returned(info) =>
      if info.JObj? then Returned(JObj(Pick(info.fields, UserKeys))) else Raised(AttributeError)
  }

  /** On an HTTP error get_current_user_info does not raise, although its doc
      comment says so: it returns the five keys, all None. */
  lemma UserInfoOnHttpError(reply: Reply)
    requires reply.Received? && IsHttpError(reply.response.status)
    ensures GetCurrentUserInfo(reply) == Returned(JObj(map k | k in UserKeys :: JNull))
  {
    var info := ErrorValue("HTTPError: " + reply.response.failure);
    assert Call(reply) == Returned(info);
    assert forall k :: k in UserKeys ==> k !in info.fields;
    assert Pick(info.fields, UserKeys) == map k | k in UserKeys :: JNull;
  }
}
