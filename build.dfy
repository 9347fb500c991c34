/**
 * The `builds` resource: page-paginated listing (optionally filtered by
 * one-off job) and retrieval of builds.
 */
module BuildResource {
  import opened Wrappers
  import opened Numbers
  import Json
  import Client
  import Config
  import Envelope
  import Pagination
  import Facade

  const API_SOURCE: string := "builds"
  const TAG: string := "Build"
  const FIELDS: seq<string> := ["id", "agent_id", "build_address", "created"]

  datatype Build = Build(id: string, agentId: string, buildAddress: string, created: string)

  function Fields(b: Build): seq<string> {
    [b.id, b.agentId, b.buildAddress, b.created]
  }

  /** The derived `Deserialize`: an object whose four members are all strings. */
  function DecodeBuild(v: Json.Value): (r: Result<Build, string>)
    ensures v.Object? ==>
      (r.Ok? <==> forall i :: 0 <= i < |FIELDS| ==> FIELDS[i] in v.fields && v.fields[FIELDS[i]].Str?)
    ensures v.Object? && r.Ok? ==>
      && Json.AsStr(Json.Index(v, "id")) == Some(r.value.id)
      && Json.AsStr(Json.Index(v, "agent_id")) == Some(r.value.agentId)
      && Json.AsStr(Json.Index(v, "build_address")) == Some(r.value.buildAddress)
      && Json.AsStr(Json.Index(v, "created")) == Some(r.value.created)
  {
    var s :- Envelope.StringMembers(v, FIELDS);
    Ok(Build(s[0], s[1], s[2], s[3]))
  }

  /** The derived `Serialize`. */
  function EncodeBuild(b: Build): Json.Value {
    Envelope.StringObject(FIELDS, Fields(b))
  }

  lemma DecodeEncodeBuild(b: Build)
    ensures DecodeBuild(EncodeBuild(b)) == Ok(b)
  {
    Envelope.StringObjectRoundTrip(FIELDS, Fields(b));
  }

  function DecodeBuildList(v: Json.Value): Result<Envelope.PageList<Build>, string> {
    Envelope.DecodePageList(v, DecodeBuild)
  }

  method List(
    cfg: Config.Settings, agentExecutorJobId: Option<string>, page: Option<u32>, pageSize: Option<u8>,
    net: Client.HttpRequest -> Client.Exchange)
    returns (r: Client.Run<Result<Pagination.PagePaginated<Build>, string>>)
    ensures r == Facade.Paged(
      Client.Perform(cfg,
        Client.Call(Client.Get, "builds/",
          Some(Facade.FilteredPageQuery("agent_executor_job_id", agentExecutorJobId, page, pageSize)), None),
        net, DecodeBuildList),
      "Build", "Error listing Builds")
  {
    var params: map<string, string> := map[];
    params := params["page" := Decimal(page.GetOr(1))];
    params := params["page_size" := Decimal(pageSize.GetOr(10))];
    if agentExecutorJobId.Some? {
      params := params["agent_executor_job_id" := agentExecutorJobId.value];
    }
    assert params == Facade.FilteredPageQuery("agent_executor_job_id", agentExecutorJobId, page, pageSize);
    assert API_SOURCE + "/" == "builds/";
    var response := Client.RequestAction(
      cfg, Client.Call(Client.Get, API_SOURCE + "/", Some(params), None), net, DecodeBuildList);
    r := Facade.Paged(response, TAG, "Error listing Builds");
  }

  method Retrieve(cfg: Config.Settings, id: string, net: Client.HttpRequest -> Client.Exchange)
    returns (r: Client.Run<Result<Build, string>>)
    ensures r == Facade.Outcome(
      Client.Perform(cfg, Client.Call(Client.Get, "builds/" + id + "/", None, None), net, DecodeBuild),
      "Error retrieving Build")
  {
    assert API_SOURCE + "/" + id + "/" == "builds/" + id + "/";
    var response := Client.RequestAction(
      cfg, Client.Call(Client.Get, API_SOURCE + "/" + id + "/", None, None), net, DecodeBuild);
    r := Facade.Outcome(response, "Error retrieving Build");
  }
}
