/**
 * The `agent-builder-jobs` resource: page-paginated listing (optionally
 * filtered by agent) and retrieval of agent build jobs.
 */
module AgentBuilderJobResource {
  import opened Wrappers
  import opened Numbers
  import Json
  import Client
  import Config
  import Envelope
  import Pagination
  import Facade

  const API_SOURCE: string := "agent-builder-jobs"
  const TAG: string := "AgentBuilderJob"
  const FIELDS: seq<string> := ["id", "agent_id", "execution_address", "created"]

  datatype AgentBuilderJob = AgentBuilderJob(id: string, agentId: string, executionAddress: string, created: string)

  function Fields(j: AgentBuilderJob): seq<string> {
    [j.id, j.agentId, j.executionAddress, j.created]
  }

  /** The derived `Deserialize`: an object whose four members are all strings. */
  function DecodeAgentBuilderJob(v: Json.Value): (r: Result<AgentBuilderJob, string>)
    ensures v.Object? ==>
      (r.Ok? <==> forall i :: 0 <= i < |FIELDS| ==> FIELDS[i] in v.fields && v.fields[FIELDS[i]].Str?)
    ensures v.Object? && r.Ok? ==>
      && Json.AsStr(Json.Index(v, "id")) == Some(r.value.id)
      && Json.AsStr(Json.Index(v, "agent_id")) == Some(r.value.agentId)
      && Json.AsStr(Json.Index(v, "execution_address")) == Some(r.value.executionAddress)
      && Json.AsStr(Json.Index(v, "created")) == Some(r.value.created)
  {
    var s :- Envelope.StringMembers(v, FIELDS);
    Ok(AgentBuilderJob(s[0], s[1], s[2], s[3]))
  }

  /** The derived `Serialize`. */
  function EncodeAgentBuilderJob(j: AgentBuilderJob): Json.Value {
    Envelope.StringObject(FIELDS, Fields(j))
  }

  lemma DecodeEncodeAgentBuilderJob(j: AgentBuilderJob)
    ensures DecodeAgentBuilderJob(EncodeAgentBuilderJob(j)) == Ok(j)
  {
    Envelope.StringObjectRoundTrip(FIELDS, Fields(j));
  }

  function DecodeAgentBuilderJobList(v: Json.Value): Result<Envelope.PageList<AgentBuilderJob>, string> {
    Envelope.DecodePageList(v, DecodeAgentBuilderJob)
  }

  method List(
    cfg: Config.Settings, agentId: Option<string>, page: Option<u32>, pageSize: Option<u8>,
    net: Client.HttpRequest -> Client.Exchange)
    returns (r: Client.Run<Result<Pagination.PagePaginated<AgentBuilderJob>, string>>)
    ensures r == Facade.Paged(
      Client.Perform(cfg,
        Client.Call(Client.Get, "agent-builder-jobs/",
          Some(Facade.FilteredPageQuery("agent_id", agentId, page, pageSize)), None),
        net, DecodeAgentBuilderJobList),
      "AgentBuilderJob", "Error listing AgentBuilderJobs")
  {
    var params: map<string, string> := map[];
    params := params["page" := Decimal(page.GetOr(1))];
    params := params["page_size" := Decimal(pageSize.GetOr(10))];
    if agentId.Some? {
      params := params["agent_id" := agentId.value];
    }
    assert params == Facade.FilteredPageQuery("agent_id", agentId, page, pageSize);
    assert API_SOURCE + "/" == "agent-builder-jobs/";
    var response := Client.RequestAction(
      cfg, Client.Call(Client.Get, API_SOURCE + "/", Some(params), None), net, DecodeAgentBuilderJobList);
    r := Facade.Paged(response, TAG, "Error listing AgentBuilderJobs");
  }

  method Retrieve(cfg: Config.Settings, id: string, net: Client.HttpRequest -> Client.Exchange)
    returns (r: Client.Run<Result<AgentBuilderJob, string>>)
    ensures r == Facade.Outcome(
      Client.Perform(cfg, Client.Call(Client.Get, "agent-builder-jobs/" + id + "/", None, None),
        net, DecodeAgentBuilderJob),
      "Error retrieving AgentBuilderJob")
  {
    assert API_SOURCE + "/" + id + "/" == "agent-builder-jobs/" + id + "/";
    var response := Client.RequestAction(
      cfg, Client.Call(Client.Get, API_SOURCE + "/" + id + "/", None, None), net, DecodeAgentBuilderJob);
    r := Facade.Outcome(response, "Error retrieving AgentBuilderJob");
  }
}
