/**
 * The `stores` resource: page-paginated listing (optionally filtered by
 * agent), retrieval, creation, partial update and deletion of key-value
 * stores.
 */
module StoreResource {
  import opened Wrappers
  import opened Numbers
  import Json
  import Client
  import Config
  import Envelope
  import Pagination
  import Facade

  const API_SOURCE: string := "stores"
  const TAG: string := "Store"
  const FIELDS: seq<string> := ["id", "agent_id", "store_address", "created"]

  datatype Store = Store(id: string, agentId: string, storeAddress: string, created: string)

  function Fields(s: Store): seq<string> {
    [s.id, s.agentId, s.storeAddress, s.created]
  }

  /** The derived `Deserialize`: an object whose four members are all strings. */
  function DecodeStore(v: Json.Value): (r: Result<Store, string>)
    ensures v.Object? ==>
      (r.Ok? <==> forall i :: 0 <= i < |FIELDS| ==> FIELDS[i] in v.fields && v.fields[FIELDS[i]].Str?)
    ensures v.Object? && r.Ok? ==>
      && Json.AsStr(Json.Index(v, "id")) == Some(r.value.id)
      && Json.AsStr(Json.Index(v, "agent_id")) == Some(r.value.agentId)
      && Json.AsStr(Json.Index(v, "store_address")) == Some(r.value.storeAddress)
      && Json.AsStr(Json.Index(v, "created")) == Some(r.value.created)
  {
    var s :- Envelope.StringMembers(v, FIELDS);
    Ok(Store(s[0], s[1], s[2], s[3]))
  }

  /** The derived `Serialize`. */
  function EncodeStore(s: Store): Json.Value {
    Envelope.StringObject(FIELDS, Fields(s))
  }

  lemma DecodeEncodeStore(s: Store)
    ensures DecodeStore(EncodeStore(s)) == Ok(s)
  {
    Envelope.StringObjectRoundTrip(FIELDS, Fields(s));
  }

  function DecodeStoreList(v: Json.Value): Result<Envelope.PageList<Store>, string> {
    Envelope.DecodePageList(v, DecodeStore)
  }

  /** The body of `update`: every payload entry JSON-encoded, and nothing without a payload. */
  function UpdateData(payload: Option<map<string, Json.Value>>, encode: Json.Value -> string)
    : (m: map<string, string>)
    ensures payload.None? ==> m == map[]
    ensures payload.Some? ==> m.Keys == payload.value.Keys
    ensures payload.Some? ==> forall k :: k in payload.value ==> m[k] == encode(payload.value[k])
  {
    Facade.Overlay(map[], payload.GetOr(map[]), encode)
  }

  method List(
    cfg: Config.Settings, agentId: Option<string>, page: Option<u32>, pageSize: Option<u8>,
    net: Client.HttpRequest -> Client.Exchange)
    returns (r: Client.Run<Result<Pagination.PagePaginated<Store>, string>>)
    ensures r == Facade.Paged(
      Client.Perform(cfg,
        Client.Call(Client.Get, "stores/",
          Some(Facade.FilteredPageQuery("agent_id", agentId, page, pageSize)), None),
        net, DecodeStoreList),
      "Store", "Error listing stores")
  {
    var params: map<string, string> := map[];
    params := params["page" := Decimal(page.GetOr(1))];
    params := params["page_size" := Decimal(pageSize.GetOr(10))];
    if agentId.Some? {
      params := params["agent_id" := agentId.value];
    }
    assert params == Facade.FilteredPageQuery("agent_id", agentId, page, pageSize);
    assert API_SOURCE + "/" == "stores/";
    var response := Client.RequestAction(
      cfg, Client.Call(Client.Get, API_SOURCE + "/", Some(params), None), net, DecodeStoreList);
    r := Facade.Paged(response, TAG, "Error listing stores");
  }

  method Retrieve(cfg: Config.Settings, id: string, net: Client.HttpRequest -> Client.Exchange)
    returns (r: Client.Run<Result<Store, string>>)
    ensures r == Facade.Outcome(
      Client.Perform(cfg, Client.Call(Client.Get, "stores/" + id + "/", None, None), net, DecodeStore),
      "Error retrieving Store")
  {
    assert API_SOURCE + "/" + id + "/" == "stores/" + id + "/";
    var response := Client.RequestAction(
      cfg, Client.Call(Client.Get, API_SOURCE + "/" + id + "/", None, None), net, DecodeStore);
    r := Facade.Outcome(response, "Error retrieving Store");
  }

  method Create(cfg: Config.Settings, name: string, net: Client.HttpRequest -> Client.Exchange)
    returns (r: Client.Run<Result<Store, string>>)
    ensures r == Facade.Outcome(
      Client.Perform(cfg, Client.Call(Client.Post, "stores/create/", None, Some(map["name" := name])),
        net, DecodeStore),
      "Error creating Store")
  {
    var data: map<string, string> := map[];
    data := data["name" := name];
    assert API_SOURCE + "/create/" == "stores/create/";
    var response := Client.RequestAction(
      cfg, Client.Call(Client.Post, API_SOURCE + "/create/", None, Some(data)), net, DecodeStore);
    r := Facade.Outcome(response, "Error creating Store");
  }

  method Update(
    cfg: Config.Settings, id: string, payload: Option<map<string, Json.Value>>,
    encode: Json.Value -> string, net: Client.HttpRequest -> Client.Exchange)
    returns (r: Client.Run<Result<Store, string>>)
    ensures r == Facade.Outcome(
      Client.Perform(cfg,
        Client.Call(Client.Patch, "stores/" + id + "/update/", None, Some(UpdateData(payload, encode))),
        net, DecodeStore),
      "Error updating Store")
  {
    var data: map<string, string> := map[];
    if payload.Some? {
      data := Facade.InsertEncoded(data, payload.value, encode);
    }
    assert data == UpdateData(payload, encode);
    assert API_SOURCE + "/" + id + "/update/" == "stores/" + id + "/update/";
    var response := Client.RequestAction(
      cfg, Client.Call(Client.Patch, API_SOURCE + "/" + id + "/update/", None, Some(data)), net, DecodeStore);
    r := Facade.Outcome(response, "Error updating Store");
  }

  /** The answer is read as Rust's unit type, so only a JSON `null` body counts as success. */
  method Delete(cfg: Config.Settings, id: string, net: Client.HttpRequest -> Client.Exchange)
    returns (r: Client.Run<Result<(), string>>)
    ensures r == Facade.Discarded(
      Client.Perform(cfg, Client.Call(Client.Delete, "stores/" + id + "/delete/", None, None),
        net, Envelope.UnitValue),
      "Error deleting Store")
  {
    assert API_SOURCE + "/" + id + "/delete/" == "stores/" + id + "/delete/";
    var response := Client.RequestAction(
      cfg, Client.Call(Client.Delete, API_SOURCE + "/" + id + "/delete/", None, None), net, Envelope.UnitValue);
    r := Facade.Discarded(response, "Error deleting Store");
  }
}
