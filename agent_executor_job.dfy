/**
 * The `agent-executor-jobs` resource: cursor-paginated listing (optionally
 * filtered by agent), retrieval and creation of one-off agent executions.
 */
module AgentExecutorJobResource {
  import opened Wrappers
  import Json
  import Client
  import Config
  import Envelope
  import Pagination
  import Facade

  const API_SOURCE: string := "agent-executor-jobs"
  const TAG: string := "AgentExecutorJob"
  const FIELDS: seq<string> := ["id", "agent_id", "execution_address", "created"]

  datatype AgentExecutorJob = AgentExecutorJob(id: string, agentId: string, executionAddress: string, created: string)

  function Fields(j: AgentExecutorJob): seq<string> {
    [j.id, j.agentId, j.executionAddress, j.created]
  }

  /** The derived `Deserialize`: an object whose four members are all strings. */
  function DecodeAgentExecutorJob(v: Json.Value): (r: Result<AgentExecutorJob, string>)
    ensures v.Object? ==>
      (r.Ok? <==> forall i :: 0 <= i < |FIELDS| ==> FIELDS[i] in v.fields && v.fields[FIELDS[i]].Str?)
    ensures v.Object? && r.Ok? ==>
      && Json.AsStr(Json.Index(v, "id")) == Some(r.value.id)
      && Json.AsStr(Json.Index(v, "agent_id")) == Some(r.value.agentId)
      && Json.AsStr(Json.Index(v, "execution_address")) == Some(r.value.executionAddress)
      && Json.AsStr(Json.Index(v, "created")) == Some(r.value.created)
  {
    var s :- Envelope.StringMembers(v, FIELDS);
    Ok(AgentExecutorJob(s[0], s[1], s[2], s[3]))
  }

  /** The derived `Serialize`. */
  function EncodeAgentExecutorJob(j: AgentExecutorJob): Json.Value {
    Envelope.StringObject(FIELDS, Fields(j))
  }

  lemma DecodeEncodeAgentExecutorJob(j: AgentExecutorJob)
    ensures DecodeAgentExecutorJob(EncodeAgentExecutorJob(j)) == Ok(j)
  {
    Envelope.StringObjectRoundTrip(FIELDS, Fields(j));
  }

  function DecodeAgentExecutorJobList(v: Json.Value): Result<Envelope.CursorList<AgentExecutorJob>, string> {
    Envelope.DecodeCursorList(v, DecodeAgentExecutorJob)
  }

  /** The query of `list`: the agent filter when supplied, and an empty (but present) query otherwise. */
  function ListQuery(agentId: Option<string>): (m: map<string, string>)
    ensures agentId.None? ==> m == map[]
    ensures agentId.Some? ==> m == map["agent_id" := agentId.value]
  {
    Facade.WithOptional(map[], "agent_id", agentId)
  }

  /** The body of `create`: the agent, and the payload as JSON text when one is given. */
  function CreateData(agentId: string, payload: Option<Json.Value>, encode: Json.Value -> string)
    : (m: map<string, string>)
    ensures m.Keys == {"agent_id"} + (if payload.Some? then {"payload"} else {})
    ensures m["agent_id"] == agentId
    ensures payload.Some? ==> m["payload"] == encode(payload.value)
  {
    Facade.WithOptional(map["agent_id" := agentId], "payload",
      if payload.Some? then Some(encode(payload.value)) else None)
  }

  method List(cfg: Config.Settings, agentId: Option<string>, net: Client.HttpRequest -> Client.Exchange)
    returns (r: Client.Run<Result<Pagination.CursorPaginated<AgentExecutorJob>, string>>)
    ensures r == Facade.Cursored(
      Client.Perform(cfg, Client.Call(Client.Get, "agent-executor-jobs/", Some(ListQuery(agentId)), None),
        net, DecodeAgentExecutorJobList),
      "AgentExecutorJob", "Error listing AgentExecutorJobs")
  {
    var params: map<string, string> := map[];
    if agentId.Some? {
      params := params["agent_id" := agentId.value];
    }
    assert API_SOURCE + "/" == "agent-executor-jobs/";
    var response := Client.RequestAction(
      cfg, Client.Call(Client.Get, API_SOURCE + "/", Some(params), None), net, DecodeAgentExecutorJobList);
    r := Facade.Cursored(response, TAG, "Error listing AgentExecutorJobs");
  }

  method Retrieve(cfg: Config.Settings, id: string, net: Client.HttpRequest -> Client.Exchange)
    returns (r: Client.Run<Result<AgentExecutorJob, string>>)
    ensures r == Facade.Outcome(
      Client.Perform(cfg, Client.Call(Client.Get, "agent-executor-jobs/" + id + "/", None, None),
        net, DecodeAgentExecutorJob),
      "Error retrieving AgentExecutorJob")
  {
    assert API_SOURCE + "/" + id + "/" == "agent-executor-jobs/" + id + "/";
    var response := Client.RequestAction(
      cfg, Client.Call(Client.Get, API_SOURCE + "/" + id + "/", None, None), net, DecodeAgentExecutorJob);
    r := Facade.Outcome(response, "Error retrieving AgentExecutorJob");
  }

  method Create(
    cfg: Config.Settings, agentId: string, payload: Option<Json.Value>, encode: Json.Value -> string,
    net: Client.HttpRequest -> Client.Exchange)
    returns (r: Client.Run<Result<AgentExecutorJob, string>>)
    ensures r == Facade.Outcome(
      Client.Perform(cfg,
        Client.Call(Client.Post, "agent-executor-jobs/create/", None, Some(CreateData(agentId, payload, encode))),
        net, DecodeAgentExecutorJob),
      "Error creating AgentExecutorJob")
  {
    var data: map<string, string> := map[];
    data := data["agent_id" := agentId];
    if payload.Some? {
      data := data["payload" := encode(payload.value)];
    }
    assert data == CreateData(agentId, payload, encode);
    assert API_SOURCE + "/create/" == "agent-executor-jobs/create/";
    var response := Client.RequestAction(
      cfg, Client.Call(Client.Post, API_SOURCE + "/create/", None, Some(data)), net, DecodeAgentExecutorJob);
    r := Facade.Outcome(response, "Error creating AgentExecutorJob");
  }
}
