/**
 * The `agent-executor-cron-jobs` resource: page-paginated listing (optionally
 * filtered by agent), retrieval, creation, partial update and deletion of
 * scheduled agent executions.
 */
module AgentExecutorCronJobResource {
  import opened Wrappers
  import opened Numbers
  import Json
  import Client
  import Config
  import Envelope
  import Pagination
  import Facade

  const API_SOURCE: string := "agent-executor-cron-jobs"
  const TAG: string := "AgentExecutorCronJob"
  const FIELDS: seq<string> := ["id", "agent_id", "execution_address", "created"]

  datatype AgentExecutorCronJob = AgentExecutorCronJob(
    id: string, agentId: string, executionAddress: string, created: string)

  function Fields(j: AgentExecutorCronJob): seq<string> {
    [j.id, j.agentId, j.executionAddress, j.created]
  }

  /** The derived `Deserialize`: an object whose four members are all strings. */
  function DecodeAgentExecutorCronJob(v: Json.Value): (r: Result<AgentExecutorCronJob, string>)
    ensures v.Object? ==>
      (r.Ok? <==> forall i :: 0 <= i < |FIELDS| ==> FIELDS[i] in v.fields && v.fields[FIELDS[i]].Str?)
    ensures v.Object? && r.Ok? ==>
      && Json.AsStr(Json.Index(v, "id")) == Some(r.value.id)
      && Json.AsStr(Json.Index(v, "agent_id")) == Some(r.value.agentId)
      && Json.AsStr(Json.Index(v, "execution_address")) == Some(r.value.executionAddress)
      && Json.AsStr(Json.Index(v, "created")) == Some(r.value.created)
  {
    var s :- Envelope.StringMembers(v, FIELDS);
    Ok(AgentExecutorCronJob(s[0], s[1], s[2], s[3]))
  }

  /** The derived `Serialize`. */
  function EncodeAgentExecutorCronJob(j: AgentExecutorCronJob): Json.Value {
    Envelope.StringObject(FIELDS, Fields(j))
  }

  lemma DecodeEncodeAgentExecutorCronJob(j: AgentExecutorCronJob)
    ensures DecodeAgentExecutorCronJob(EncodeAgentExecutorCronJob(j)) == Ok(j)
  {
    Envelope.StringObjectRoundTrip(FIELDS, Fields(j));
  }

  function DecodeAgentExecutorCronJobList(v: Json.Value): Result<Envelope.PageList<AgentExecutorCronJob>, string> {
    Envelope.DecodePageList(v, DecodeAgentExecutorCronJob)
  }

  /**
   * The body of `update`: the name when supplied, then every payload entry
   * JSON-encoded, so that a payload entry called "name" replaces the name.
   */
  function UpdateData(name: Option<string>, payload: Option<map<string, Json.Value>>, encode: Json.Value -> string)
    : (m: map<string, string>)
    ensures forall k :: k in m <==> (k == "name" && name.Some?) || (payload.Some? && k in payload.value)
    ensures payload.Some? ==> forall k :: k in payload.value ==> m[k] == encode(payload.value[k])
    ensures name.Some? && !(payload.Some? && "name" in payload.value) ==> m["name"] == name.value
  {
    Facade.Overlay(Facade.WithOptional(map[], "name", name), payload.GetOr(map[]), encode)
  }

  method List(
    cfg: Config.Settings, agentId: Option<string>, page: Option<u32>, pageSize: Option<u8>,
    net: Client.HttpRequest -> Client.Exchange)
    returns (r: Client.Run<Result<Pagination.PagePaginated<AgentExecutorCronJob>, string>>)
    ensures r == Facade.Paged(
      Client.Perform(cfg,
        Client.Call(Client.Get, "agent-executor-cron-jobs/",
          Some(Facade.FilteredPageQuery("agent_id", agentId, page, pageSize)), None),
        net, DecodeAgentExecutorCronJobList),
      "AgentExecutorCronJob", "Error listing AgentExecutorCronJobs")
  {
    var params: map<string, string> := map[];
    params := params["page" := Decimal(page.GetOr(1))];
    params := params["page_size" := Decimal(pageSize.GetOr(10))];
    if agentId.Some? {
      params := params["agent_id" := agentId.value];
    }
    assert params == Facade.FilteredPageQuery("agent_id", agentId, page, pageSize);
    assert API_SOURCE + "/" == "agent-executor-cron-jobs/";
    var response := Client.RequestAction(
      cfg, Client.Call(Client.Get, API_SOURCE + "/", Some(params), None), net, DecodeAgentExecutorCronJobList);
    r := Facade.Paged(response, TAG, "Error listing AgentExecutorCronJobs");
  }

  method Retrieve(cfg: Config.Settings, id: string, net: Client.HttpRequest -> Client.Exchange)
    returns (r: Client.Run<Result<AgentExecutorCronJob, string>>)
    ensures r == Facade.Outcome(
      Client.Perform(cfg, Client.Call(Client.Get, "agent-executor-cron-jobs/" + id + "/", None, None),
        net, DecodeAgentExecutorCronJob),
      "Error retrieving AgentExecutorCronJob")
  {
    assert API_SOURCE + "/" + id + "/" == "agent-executor-cron-jobs/" + id + "/";
    var response := Client.RequestAction(
      cfg, Client.Call(Client.Get, API_SOURCE + "/" + id + "/", None, None), net, DecodeAgentExecutorCronJob);
    r := Facade.Outcome(response, "Error retrieving AgentExecutorCronJob");
  }

  method Create(
    cfg: Config.Settings, agentId: string, name: string, expression: string,
    net: Client.HttpRequest -> Client.Exchange)
    returns (r: Client.Run<Result<AgentExecutorCronJob, string>>)
    ensures r == Facade.Outcome(
      Client.Perform(cfg,
        Client.Call(Client.Post, "agent-executor-cron-jobs/create/", None,
          Some(map["agent_id" := agentId, "name" := name, "expression" := expression])),
        net, DecodeAgentExecutorCronJob),
      "Error creating AgentExecutorCronJob")
  {
    var data: map<string, string> := map[];
    data := data["agent_id" := agentId];
    data := data["name" := name];
    data := data["expression" := expression];
    assert API_SOURCE + "/create/" == "agent-executor-cron-jobs/create/";
    var response := Client.RequestAction(
      cfg, Client.Call(Client.Post, API_SOURCE + "/create/", None, Some(data)), net, DecodeAgentExecutorCronJob);
    r := Facade.Outcome(response, "Error creating AgentExecutorCronJob");
  }

  method Update(
    cfg: Config.Settings, id: string, name: Option<string>, payload: Option<map<string, Json.Value>>,
    encode: Json.Value -> string, net: Client.HttpRequest -> Client.Exchange)
    returns (r: Client.Run<Result<AgentExecutorCronJob, string>>)
    ensures r == Facade.Outcome(
      Client.Perform(cfg,
        Client.Call(Client.Patch, "agent-executor-cron-jobs/" + id + "/update/", None,
          Some(UpdateData(name, payload, encode))),
        net, DecodeAgentExecutorCronJob),
      "Error updating AgentExecutorCronJob")
  {
    var data: map<string, string> := map[];
    if name.Some? {
      data := data["name" := name.value];
    }
    if payload.Some? {
      data := Facade.InsertEncoded(data, payload.value, encode);
    }
    assert data == UpdateData(name, payload, encode);
    assert API_SOURCE + "/" + id + "/update/" == "agent-executor-cron-jobs/" + id + "/update/";
    var response := Client.RequestAction(
      cfg, Client.Call(Client.Patch, API_SOURCE + "/" + id + "/update/", None, Some(data)),
      net, DecodeAgentExecutorCronJob);
    r := Facade.Outcome(response, "Error updating AgentExecutorCronJob");
  }

  /** Any JSON answer counts as success; its content is dropped. */
  method Delete(cfg: Config.Settings, id: string, net: Client.HttpRequest -> Client.Exchange)
    returns (r: Client.Run<Result<(), string>>)
    ensures r == Facade.Discarded(
      Client.Perform(cfg, Client.Call(Client.Delete, "agent-executor-cron-jobs/" + id + "/delete/", None, None),
        net, Envelope.AnyValue),
      "Error deleting AgentExecutorCronJob")
  {
    assert API_SOURCE + "/" + id + "/delete/" == "agent-executor-cron-jobs/" + id + "/delete/";
    var response := Client.RequestAction(
      cfg, Client.Call(Client.Delete, API_SOURCE + "/" + id + "/delete/", None, None), net, Envelope.AnyValue);
    r := Facade.Discarded(response, "Error deleting AgentExecutorCronJob");
  }
}
