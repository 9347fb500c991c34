/**
 * The `agents` resource: page-paginated listing, retrieval, creation,
 * partial update and deletion of agents.
 */
module AgentResource {
  import opened Wrappers
  import opened Numbers
  import Json
  import Client
  import Config
  import Envelope
  import Pagination
  import Facade

  const API_SOURCE: string := "agents"
  const TAG: string := "Agent"
  const FIELDS: seq<string> := ["id", "agent_id", "execution_address", "created"]

  datatype Agent = Agent(id: string, agentId: string, executionAddress: string, created: string)

  function Fields(a: Agent): seq<string> {
    [a.id, a.agentId, a.executionAddress, a.created]
  }

  /** The derived `Deserialize`: an object whose four members are all strings. */
  function DecodeAgent(v: Json.Value): (r: Result<Agent, string>)
    ensures v.Object? ==>
      (r.Ok? <==> forall i :: 0 <= i < |FIELDS| ==> FIELDS[i] in v.fields && v.fields[FIELDS[i]].Str?)
    ensures v.Object? && r.Ok? ==>
      && Json.AsStr(Json.Index(v, "id")) == Some(r.value.id)
      && Json.AsStr(Json.Index(v, "agent_id")) == Some(r.value.agentId)
      && Json.AsStr(Json.Index(v, "execution_address")) == Some(r.value.executionAddress)
      && Json.AsStr(Json.Index(v, "created")) == Some(r.value.created)
  {
    var s :- Envelope.StringMembers(v, FIELDS);
    Ok(Agent(s[0], s[1], s[2], s[3]))
  }

  /** The derived `Serialize`. */
  function EncodeAgent(a: Agent): Json.Value {
    Envelope.StringObject(FIELDS, Fields(a))
  }

  lemma DecodeEncodeAgent(a: Agent)
    ensures DecodeAgent(EncodeAgent(a)) == Ok(a)
  {
    Envelope.StringObjectRoundTrip(FIELDS, Fields(a));
  }

  function DecodeAgentList(v: Json.Value): Result<Envelope.PageList<Agent>, string> {
    Envelope.DecodePageList(v, DecodeAgent)
  }

  /** The body of `create`: the four required fields, and the two optional ones when supplied. */
  function CreateData(
    name: string, script: string, pythonVersion: string, storeId: string,
    requirements: Option<string>, envVars: Option<string>)
    : (m: map<string, string>)
    ensures m.Keys == {"name", "script", "python_version", "store_id"}
      + (if requirements.Some? then {"requirements"} else {})
      + (if envVars.Some? then {"env_vars"} else {})
    ensures m["name"] == name && m["script"] == script
    ensures m["python_version"] == pythonVersion && m["store_id"] == storeId
    ensures requirements.Some? ==> m["requirements"] == requirements.value
    ensures envVars.Some? ==> m["env_vars"] == envVars.value
  {
    var required := map["name" := name, "script" := script, "python_version" := pythonVersion, "store_id" := storeId];
    Facade.WithOptional(Facade.WithOptional(required, "requirements", requirements), "env_vars", envVars)
  }

  /** The body of `update`: exactly the fields supplied. */
  function UpdateData(
    name: Option<string>, script: Option<string>, pythonVersion: Option<string>, storeId: Option<string>,
    requirements: Option<string>, envVars: Option<string>)
    : (m: map<string, string>)
    ensures ("name" in m <==> name.Some?) && ("script" in m <==> script.Some?)
    ensures ("python_version" in m <==> pythonVersion.Some?) && ("store_id" in m <==> storeId.Some?)
    ensures ("requirements" in m <==> requirements.Some?) && ("env_vars" in m <==> envVars.Some?)
    ensures m.Keys <= {"name", "script", "python_version", "store_id", "requirements", "env_vars"}
    ensures name.Some? ==> m["name"] == name.value
    ensures script.Some? ==> m["script"] == script.value
    ensures pythonVersion.Some? ==> m["python_version"] == pythonVersion.value
    ensures storeId.Some? ==> m["store_id"] == storeId.value
    ensures requirements.Some? ==> m["requirements"] == requirements.value
    ensures envVars.Some? ==> m["env_vars"] == envVars.value
  {
    var m1 := Facade.WithOptional(map[], "name", name);
    var m2 := Facade.WithOptional(m1, "script", script);
    var m3 := Facade.WithOptional(m2, "python_version", pythonVersion);
    var m4 := Facade.WithOptional(m3, "store_id", storeId);
    var m5 := Facade.WithOptional(m4, "requirements", requirements);
    Facade.WithOptional(m5, "env_vars", envVars)
  }

  method List(cfg: Config.Settings, page: Option<u32>, pageSize: Option<u8>, net: Client.HttpRequest -> Client.Exchange)
    returns (r: Client.Run<Result<Pagination.PagePaginated<Agent>, string>>)
    ensures r == Facade.Paged(
      Client.Perform(cfg, Client.Call(Client.Get, "agents/", Some(Facade.PageQuery(page, pageSize)), None),
        net, DecodeAgentList),
      "Agent", "Error listing Agents")
  {
    var params: map<string, string> := map[];
    params := params["page" := Decimal(page.GetOr(1))];
    params := params["page_size" := Decimal(pageSize.GetOr(10))];
    assert params == Facade.PageQuery(page, pageSize);
    assert API_SOURCE + "/" == "agents/";
    var response := Client.RequestAction(
      cfg, Client.Call(Client.Get, API_SOURCE + "/", Some(params), None), net, DecodeAgentList);
    r := Facade.Paged(response, TAG, "Error listing Agents");
  }

  method Retrieve(cfg: Config.Settings, id: string, net: Client.HttpRequest -> Client.Exchange)
    returns (r: Client.Run<Result<Agent, string>>)
    ensures r == Facade.Outcome(
      Client.Perform(cfg, Client.Call(Client.Get, "agents/" + id + "/", None, None), net, DecodeAgent),
      "Error retrieving Agent")
  {
    assert API_SOURCE + "/" + id + "/" == "agents/" + id + "/";
    var response := Client.RequestAction(
      cfg, Client.Call(Client.Get, API_SOURCE + "/" + id + "/", None, None), net, DecodeAgent);
    r := Facade.Outcome(response, "Error retrieving Agent");
  }

  method Create(
    cfg: Config.Settings, name: string, script: string, pythonVersion: string, storeId: string,
    requirements: Option<string>, envVars: Option<string>, net: Client.HttpRequest -> Client.Exchange)
    returns (r: Client.Run<Result<Agent, string>>)
    ensures r == Facade.Outcome(
      Client.Perform(cfg,
        Client.Call(Client.Post, "agents/create/", None,
          Some(CreateData(name, script, pythonVersion, storeId, requirements, envVars))),
        net, DecodeAgent),
      "Error creating Agent")
  {
    var data: map<string, string> := map[];
    data := data["name" := name];
    data := data["script" := script];
    data := data["python_version" := pythonVersion];
    data := data["store_id" := storeId];
    if requirements.Some? {
      data := data["requirements" := requirements.value];
    }
    if envVars.Some? {
      data := data["env_vars" := envVars.value];
    }
    assert data == CreateData(name, script, pythonVersion, storeId, requirements, envVars);
    assert API_SOURCE + "/create/" == "agents/create/";
    var response := Client.RequestAction(
      cfg, Client.Call(Client.Post, API_SOURCE + "/create/", None, Some(data)), net, DecodeAgent);
    r := Facade.Outcome(response, "Error creating Agent");
  }

  method Update(
    cfg: Config.Settings, id: string, name: Option<string>, script: Option<string>,
    pythonVersion: Option<string>, storeId: Option<string>, requirements: Option<string>,
    envVars: Option<string>, net: Client.HttpRequest -> Client.Exchange)
    returns (r: Client.Run<Result<Agent, string>>)
    ensures r == Facade.Outcome(
      Client.Perform(cfg,
        Client.Call(Client.Patch, "agents/" + id + "/update/", None,
          Some(UpdateData(name, script, pythonVersion, storeId, requirements, envVars))),
        net, DecodeAgent),
      "Error updating Agent")
  {
    var data: map<string, string> := map[];
    ghost var before := data;
    if name.Some? {
      data := data["name" := name.value];
    }
    assert data == Facade.WithOptional(before, "name", name);
    before := data;
    if script.Some? {
      data := data["script" := script.value];
    }
    assert data == Facade.WithOptional(before, "script", script);
    before := data;
    if pythonVersion.Some? {
      data := data["python_version" := pythonVersion.value];
    }
    assert data == Facade.WithOptional(before, "python_version", pythonVersion);
    before := data;
    if storeId.Some? {
      data := data["store_id" := storeId.value];
    }
    assert data == Facade.WithOptional(before, "store_id", storeId);
    before := data;
    if requirements.Some? {
      data := data["requirements" := requirements.value];
    }
    assert data == Facade.WithOptional(before, "requirements", requirements);
    before := data;
    if envVars.Some? {
      data := data["env_vars" := envVars.value];
    }
    assert data == Facade.WithOptional(before, "env_vars", envVars);
    assert data == UpdateData(name, script, pythonVersion, storeId, requirements, envVars);
    assert API_SOURCE + "/" + id + "/update/" == "agents/" + id + "/update/";
    var response := Client.RequestAction(
      cfg, Client.Call(Client.Patch, API_SOURCE + "/" + id + "/update/", None, Some(data)), net, DecodeAgent);
    r := Facade.Outcome(response, "Error updating Agent");
  }

  /** Any JSON answer counts as success; its content is dropped. */
  method Delete(cfg: Config.Settings, id: string, net: Client.HttpRequest -> Client.Exchange)
    returns (r: Client.Run<Result<(), string>>)
    ensures r == Facade.Discarded(
      Client.Perform(cfg, Client.Call(Client.Delete, "agents/" + id + "/delete/", None, None), net, Envelope.AnyValue),
      "Error deleting Agent")
  {
    assert API_SOURCE + "/" + id + "/delete/" == "agents/" + id + "/delete/";
    var response := Client.RequestAction(
      cfg, Client.Call(Client.Delete, API_SOURCE + "/" + id + "/delete/", None, None), net, Envelope.AnyValue);
    r := Facade.Discarded(response, "Error deleting Agent");
  }
}
