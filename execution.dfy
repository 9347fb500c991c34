/**
 * The `executions` resource: cursor-paginated listing, optionally filtered by
 * agent, by one-off job and by scheduled job, and retrieval.
 */
module ExecutionResource {
  import opened Wrappers
  import Json
  import Client
  import Config
  import Envelope
  import Pagination
  import Facade

  const API_SOURCE: string := "executions"
  const TAG: string := "Execution"
  const FIELDS: seq<string> := ["id", "agent_id", "execution_address", "created"]

  datatype Execution = Execution(id: string, agentId: string, executionAddress: string, created: string)

  function Fields(e: Execution): seq<string> {
    [e.id, e.agentId, e.executionAddress, e.created]
  }

  /** The derived `Deserialize`: an object whose four members are all strings. */
  function DecodeExecution(v: Json.Value): (r: Result<Execution, string>)
    ensures v.Object? ==>
      (r.Ok? <==> forall i :: 0 <= i < |FIELDS| ==> FIELDS[i] in v.fields && v.fields[FIELDS[i]].Str?)
    ensures v.Object? && r.Ok? ==>
      && Json.AsStr(Json.Index(v, "id")) == Some(r.value.id)
      && Json.AsStr(Json.Index(v, "agent_id")) == Some(r.value.agentId)
      && Json.AsStr(Json.Index(v, "execution_address")) == Some(r.value.executionAddress)
      && Json.AsStr(Json.Index(v, "created")) == Some(r.value.created)
  {
    var s :- Envelope.StringMembers(v, FIELDS);
    Ok(Execution(s[0], s[1], s[2], s[3]))
  }

  /** The derived `Serialize`. */
  function EncodeExecution(e: Execution): Json.Value {
    Envelope.StringObject(FIELDS, Fields(e))
  }

  lemma DecodeEncodeExecution(e: Execution)
    ensures DecodeExecution(EncodeExecution(e)) == Ok(e)
  {
    Envelope.StringObjectRoundTrip(FIELDS, Fields(e));
  }

  function DecodeExecutionList(v: Json.Value): Result<Envelope.CursorList<Execution>, string> {
    Envelope.DecodeCursorList(v, DecodeExecution)
  }

  /** The query of `list`: exactly the filters supplied. */
  function ListQuery(agentId: Option<string>, agentExecutorJobId: Option<string>, agentExecutorCronJobId: Option<string>)
    : (m: map<string, string>)
    ensures m.Keys ==
      (if agentId.Some? then {"agent_id"} else {})
      + (if agentExecutorJobId.Some? then {"agent_executor_job_id"} else {})
      + (if agentExecutorCronJobId.Some? then {"agent_executor_cron_job_id"} else {})
    ensures agentId.Some? ==> m["agent_id"] == agentId.value
    ensures agentExecutorJobId.Some? ==> m["agent_executor_job_id"] == agentExecutorJobId.value
    ensures agentExecutorCronJobId.Some? ==> m["agent_executor_cron_job_id"] == agentExecutorCronJobId.value
  {
    var m1 := Facade.WithOptional(map[], "agent_id", agentId);
    var m2 := Facade.WithOptional(m1, "agent_executor_job_id", agentExecutorJobId);
    Facade.WithOptional(m2, "agent_executor_cron_job_id", agentExecutorCronJobId)
  }

  method List(
    cfg: Config.Settings, agentId: Option<string>, agentExecutorJobId: Option<string>,
    agentExecutorCronJobId: Option<string>, net: Client.HttpRequest -> Client.Exchange)
    returns (r: Client.Run<Result<Pagination.CursorPaginated<Execution>, string>>)
    ensures r == Facade.Cursored(
      Client.Perform(cfg,
        Client.Call(Client.Get, "executions/", Some(ListQuery(agentId, agentExecutorJobId, agentExecutorCronJobId)), None),
        net, DecodeExecutionList),
      "Execution", "Error listing Executions")
  {
    var params: map<string, string> := map[];
    if agentId.Some? {
      params := params["agent_id" := agentId.value];
    }
    if agentExecutorJobId.Some? {
      params := params["agent_executor_job_id" := agentExecutorJobId.value];
    }
    if agentExecutorCronJobId.Some? {
      params := params["agent_executor_cron_job_id" := agentExecutorCronJobId.value];
    }
    assert params == ListQuery(agentId, agentExecutorJobId, agentExecutorCronJobId);
    assert API_SOURCE + "/" == "executions/";
    var response := Client.RequestAction(
      cfg, Client.Call(Client.Get, API_SOURCE + "/", Some(params), None), net, DecodeExecutionList);
    r := Facade.Cursored(response, TAG, "Error listing Executions");
  }

  method Retrieve(cfg: Config.Settings, id: string, net: Client.HttpRequest -> Client.Exchange)
    returns (r: Client.Run<Result<Execution, string>>)
    ensures r == Facade.Outcome(
      Client.Perform(cfg, Client.Call(Client.Get, "executions/" + id + "/", None, None), net, DecodeExecution),
      "Error retrieving Execution")
  {
    assert API_SOURCE + "/" + id + "/" == "executions/" + id + "/";
    var response := Client.RequestAction(
      cfg, Client.Call(Client.Get, API_SOURCE + "/" + id + "/", None, None), net, DecodeExecution);
    r := Facade.Outcome(response, "Error retrieving Execution");
  }
}
