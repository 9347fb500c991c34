# SwarmNode Rust client, modelled in Dafny

This project models the deterministic logic of the SwarmNode Rust SDK. The SDK is a thin HTTP and
WebSocket client for the SwarmNode API. Its parts are:

- a process-wide configuration: the API origin, `api.swarmnode.ai` by default, and an optional API key;
- the transport:
  - the `SwarmNodeError` type and its `Display` text;
  - the action URL `https://{base}/v1/{path}`;
  - the bearer `Authorization` value (section 2.1 of RFC 6750);
  - the 2xx success test (section 15.3 of RFC 9110), where every other status becomes `Other("HTTP {code}: {reason}")`;
  - the two `wss://` execution endpoints and their frame stream;
- the page- and cursor-paginated result types with their `next`/`previous` traversal;
- the seven resources: agents, agent executor cron jobs, stores, agent executor jobs, executions, agent
  builder jobs and builds. Each resource operation builds a path, a query map and a body map, sends
  one request and wraps the answer.

The network is a function parameter `net`. It answers one HTTP request with a send failure, or with
a status, a reason phrase and a body. The WebSocket server is a parameter `ws`. It answers a
connection URL with a refusal, or with the items its message stream yields until it ends. `serde_json::to_string`
of a JSON value is a parameter `encode`. The `SWARMNODE_API_KEY` environment variable is a
parameter `env`.

Where the source panics (`unwrap`, `expect`), the model returns `Aborted(cause)`, and the cause
names the panic site. A panic is a different outcome from the `Result` the operation returns.

The configuration is a class, `Config.GlobalConfig`, with the two cells as fields. Each method is
proved against a pure step function, `Config.Apply`, and the lemmas are about that function. The
transport reads a `Config.Settings` snapshot. The request and parameter maps are built by the same
sequence of inserts as in the source, and the loops over payloads are `while` loops with invariants.

In several places the code does something other than its comments, its error type or its names
suggest. The model follows the code:

- A missing API key makes every request panic (`expect("API key not set!")`). `ApiKeyNotSet` is never
  returned.
- `listen_to_execution` unwraps the first item of the stream (`next().await.unwrap()`). The
  WebSocket library yields the peer's Close message as an item, and a dropped connection as an error
  item, so the single read returns the Close reason or that error. The `unwrap` panic is kept only for
  a stream that ends with no item at all.
- `next`/`previous` panic on a failed request, a body that is not JSON, or results that do not decode.
  They do not return `None` in those cases.
- `next`/`previous` read `total_count`/`current_page` leniently, so a missing count reads as 0.
  `list` requires both counts as `u32`.
- `set_config` applies the environment's key last, even when a key was given explicitly. The comment
  beside that call suggests otherwise.
- `list` decodes its envelope strictly, as serde's derive does, which also accepts the array form of
  a struct. `next`/`previous` index the envelope by member name. On an array-form envelope `json["results"]` is
  `null`, so the traversal panics (`Pagination.ArrayEnvelopeOnlyListReads`).
- A store `delete` decodes the answer as Rust's unit type, so only a `null` body counts as success.
  The other `delete`s accept any JSON.
- An agent executor job `list` without an agent filter passes an empty query map, not `None`, to
  `request_action`. reqwest adds no query string for an empty map, so the server sees the same URL in
  both cases.

## Model

| member | source | states |
|---|---|---|
| Numbers.TruncateU32 | src/utils/pagination.rs:100-101 | `as u32` keeps a value below 2^32 unchanged and otherwise differs from it by a multiple of 2^32 |
| Numbers.Decimal | src/resources/agent.rs:35-36 | `to_string` of an integer is non-empty, all digits, and has no leading zero |
| Numbers.ParseDecimalOfDecimal | src/resources/agent.rs:35-36 | reading back the decimal text of a number gives the number |
| Numbers.DecimalInjective | src/resources/agent.rs:35-36 | distinct numbers have distinct decimal texts |
| Json.DecodeAll | src/utils/pagination.rs:30 | a vector decodes iff every item decodes; the items keep their order and count; a failure is some item's failure |
| Json.DecodeArray | src/utils/pagination.rs:30 | only a JSON array decodes as a vector, item by item |
| Json.Index | src/utils/pagination.rs:27-28 | `json[key]` is the object's member when there is one, and `null` whenever the value is not an object or lacks the key |
| Json.AsStr | src/utils/pagination.rs:27-28 | `as_str` gives a text exactly for a string value, and that text is the string's content |
| Json.AsU64 | src/utils/pagination.rs:100-101 | `as_u64` gives a number exactly for an integer in [0, 2^64), and that number is the integer |
| Config.Apply | src/utils/config.rs:20-62 | no operation clears a present key; the key changes only to the key or environment value the operation carries; the origin changes only to the origin `set_api_base` or `set_config` carries |
| Config.ApplyBase | src/utils/config.rs:28-62 | only `set_api_base` and a `set_config` carrying an origin change the origin, and each sets it to the value given |
| Config.ConfigureKey | src/utils/config.rs:52-62 | in `set_config` the environment's key wins over an explicit key; with neither the key is kept; with no origin the origin is kept |
| Config.KeyNeverCleared | src/utils/config.rs:20-43 | once a key is set, no sequence of operations makes it absent again |
| Config.KeyOnlyFromKeyOps | src/utils/config.rs:20-62 | a sequence of operations that supplies no key leaves the key as it was |
| Config.GlobalConfig.constructor | src/utils/config.rs:5-11 | the cells start as origin "api.swarmnode.ai" and no key |
| Config.GlobalConfig.SetApiBase | src/utils/config.rs:28-31 | the origin becomes the given value and the key is unchanged |
| Config.GlobalConfig.GetApiBase | src/utils/config.rs:34-37 | returns the current origin |
| Config.GlobalConfig.SetApiKey | src/utils/config.rs:40-43 | the key becomes present with the given value and the origin is unchanged |
| Config.GlobalConfig.GetApiKey | src/utils/config.rs:46-49 | returns the current key |
| Config.GlobalConfig.InitializeApiKeyFromEnv | src/utils/config.rs:20-25 | an environment key replaces the key; without one nothing changes |
| Config.GlobalConfig.SetConfig | src/utils/config.rs:52-62 | the explicit key, then the explicit origin, then the environment's key: the net effect is `Apply(Configure)`, and a present key stays present |
| Client.Display | src/utils/client.rs:22-32 | `ApiKeyNotSet` alone renders as "API Key not set"; every other variant renders as a label, ": " and then its message |
| Client.DisplayInjective | src/utils/client.rs:22-32 | the `Display` texts with their fixed per-variant prefixes determine the error they render |
| Client.IsSuccess | src/utils/client.rs:87 | `is_success` holds exactly for the statuses of the 2xx class, those whose hundreds digit is 2 |
| Client.FromResponse | src/utils/client.rs:34-42 | every failed status becomes an `Other` error, never `BadRequest`, `Unauthenticated` or `NotFound` |
| Client.FromResponseKeepsStatus | src/utils/client.rs:35-41 | the status code can be read back from the "HTTP {code}: {reason}" text |
| Client.FromResponseKeepsReason | src/utils/client.rs:35-41 | after the code and ": " the message holds the reason phrase, and "Unknown status" when the status has none |
| Client.BearerTokenOfBearer | src/utils/client.rs:52 | the token can be read back from the "Bearer {key}" value |
| Client.BearerValidIffKeyValid | src/utils/client.rs:52 | the header value is accepted exactly when the key consists of acceptable header characters |
| Client.HttpAuthorization | src/utils/client.rs:47-55 | without a key the call panics, with a key the header type refuses it panics, and otherwise the value is "Bearer " + key |
| Client.ActionPathOfActionUrl | src/utils/client.rs:69 | the action path can be read back from `https://{base}/v1/{path}` |
| Client.ActionRequestCarriesCall | src/utils/client.rs:68-80 | the request keeps the call's method and path, and has query parameters and a body exactly when the call has them |
| Client.ClassifyResponse | src/utils/client.rs:112-121 | success iff a 2xx answer; a send failure gives "Request failed: ..."; a failed status gives the `from_response` error |
| Client.Classify | src/utils/client.rs:82-95 | success iff a 2xx answer whose body decodes; a body that does not decode gives "Failed to parse response body: ..."; every error is `Other` |
| Client.Perform | src/utils/client.rs:62-96 | without a usable key the call panics; otherwise it is the classification of the answer to the one request built from the call |
| Client.PerformConsultsOneRequest | src/utils/client.rs:82-85 | the outcome depends on the network only through the answer to that one request |
| Client.RequestAction | src/utils/client.rs:62-96 | building the request by conditional reassignment, sending it and classifying the answer equals `Perform` |
| Client.RequestUrl | src/utils/client.rs:98-122 | one request to the absolute URL with no query and the body only when given; its outcome is `ClassifyResponse` |
| Client.ExecutionUrlsDiffer | src/utils/client.rs:128-144 | on one origin the single-message and streaming endpoints never coincide |
| Client.ExecutionUrlsInjective | src/utils/client.rs:128-144 | each endpoint URL determines the execution address |
| Client.WsAuthorization | src/utils/client.rs:57-60 | the WebSocket headers need a key, and a missing one panics |
| Client.FirstFrame | src/utils/client.rs:134-135 | the single read returns the first frame or its error, and panics on a stream with no frame |
| Client.ListenToExecution | src/utils/client.rs:124-136 | without a key the call panics, a refused connection panics, and otherwise the result is the first frame read from the execution URL |
| Client.FirstError | src/utils/client.rs:150-154 | every frame before this position is a message, and the frame at it is a read error |
| Client.Drain | src/utils/client.rs:150-154 | the loop yields `Ok` for each frame in order and stops right after yielding the first error |
| Client.ListenToExecutionStream | src/utils/client.rs:138-155 | without a key or with a refused connection the call panics; otherwise the stream is that of the frames from the streaming URL |
| Client.StreamStopsAfterFirstError | src/utils/client.rs:150-154 | every item but the last is `Ok`, and the last is an error exactly when some read failed |
| Client.CleanStreamYieldsEveryFrame | src/utils/client.rs:150-154 | a stream with no read error yields every frame's text, in order |
| Client.StreamIsDeterminate | src/utils/client.rs:150-154 | the frames determine the items the stream yields |
| Client.SingleReadIsFirstStreamItem | src/utils/client.rs:130-154 | the single read returns the first item the stream would yield on the same frames |
| Envelope.Members | src/resources/agent.rs:16-23 | serde's derive reads a struct from an object by member name, or from an array of exactly one item per field |
| Envelope.OptionalString | src/resources/agent.rs:18-19 | an `Option<String>` member may be absent or null (`None`) or a string (`Some`); anything else fails |
| Envelope.RequiredU32 | src/resources/agent.rs:21-22 | a `u32` member decodes iff present and an integer in [0, 2^32) |
| Envelope.RequiredSeq | src/resources/agent.rs:20 | a `Vec` member decodes iff present and an array whose items all decode |
| Envelope.RequiredString | src/resources/agent.rs:11-14 | a `String` member decodes iff present and a string |
| Envelope.RequiredStrings | src/resources/agent.rs:10-15 | a run of `String` members decodes iff each is present and a string, and the values keep their order |
| Envelope.StringMembers | src/resources/agent.rs:9-15 | a record of strings decodes from an object iff every named member is a string, and each field is that member's text |
| Envelope.StringFieldsLookup | src/resources/agent.rs:9-15 | the serialized record has each field's value under its name |
| Envelope.StringObjectRoundTrip | src/resources/agent.rs:9-15 | a serialized record of strings with distinct member names decodes back to the same values |
| Envelope.DecodePageList | src/resources/agent.rs:16-23 | an object decodes iff next/previous are absent, null or strings, results is a decodable array and both counts are u32 integers, and the page carries those values; an array decodes iff it has exactly five such items, read by position; nothing else decodes |
| Envelope.DecodeCursorList | src/resources/agent_executor_job.rs:16-21 | an object decodes iff next/previous are absent, null or strings and results is a decodable array, and the page carries those values; an array decodes iff it has exactly three such items, read by position; nothing else decodes |
| Envelope.UnitValue | src/resources/store.rs:114 | Rust's unit type decodes only from `null` |
| Pagination.FetchEnvelope | src/utils/pagination.rs:93-96 | one GET to the URL; the JSON of a 2xx answer, or a panic on a send failure, a failed status or a body that is not JSON |
| Pagination.Continuation | src/utils/pagination.rs:27-28 | a continuation URL is present exactly when the member is a string |
| Pagination.Count | src/utils/pagination.rs:100-101 | a missing or non-`u64` count reads as 0; a count below 2^32 reads unchanged; a larger one is truncated modulo 2^32 |
| Pagination.CursorFrom | src/utils/pagination.rs:26-37 | the new cursor page reads the envelope's URLs and results under the same tag, or panics when the results do not decode |
| Pagination.PageFrom | src/utils/pagination.rs:96-112 | the new page reads the envelope's URLs, counts and results under the same tag, or panics when the results do not decode |
| Pagination.CursorStep | src/utils/pagination.rs:18-38 | `None` iff there is no URL; otherwise fetch, then read the envelope, passing panics through |
| Pagination.PageStep | src/utils/pagination.rs:88-113 | `None` iff there is no URL; otherwise fetch, then read the envelope, passing panics through |
| Pagination.CursorNext | src/utils/pagination.rs:18-38 | `None` exactly when `next_url` is `None`; a new page comes from the envelope fetched from `next_url` and keeps the tag |
| Pagination.CursorPrevious | src/utils/pagination.rs:40-60 | `None` exactly when `previous_url` is `None`; a new page comes from the envelope fetched from `previous_url` and keeps the tag |
| Pagination.PageNext | src/utils/pagination.rs:88-113 | `None` exactly when `next_url` is `None`; a new page comes from the envelope fetched from `next_url` and keeps the tag |
| Pagination.PagePrevious | src/utils/pagination.rs:115-140 | `None` exactly when `previous_url` is `None`; a new page comes from the envelope fetched from `previous_url` and keeps the tag |
| Pagination.PageStepConsultsOneRequest | src/utils/pagination.rs:93-94 | a page step consults the network only at the GET to the stored URL with no query and no body |
| Pagination.CursorStepConsultsOneRequest | src/utils/pagination.rs:23-24 | a cursor step consults the network only at the GET to the stored URL with no query and no body |
| Pagination.TagPreservedAlongWalk | src/utils/pagination.rs:84-141 | any sequence of `next`/`previous` steps keeps the resource tag |
| Pagination.TagPreservedAlongCursorWalk | src/utils/pagination.rs:18-60 | any sequence of `next`/`previous` steps over a cursor sequence keeps the resource tag |
| Pagination.ListAndTraversalAgree | src/utils/pagination.rs:96-112 | on an object envelope that `list` accepts, the traversal reads the same URLs, counts and results |
| Pagination.ArrayEnvelopeOnlyListReads | src/utils/pagination.rs:103 | an array-form envelope is accepted by `list`, but the traversal panics on it |
| Facade.PageQuery | src/resources/agent.rs:34-36 | the query has exactly the keys page and page_size, and they read back as the page (default 1) and the page size (default 10) |
| Facade.FilteredPageQuery | src/resources/agent_executor_cron_job.rs:35-40 | the query of a filtered page listing (cron jobs, stores, agent builder jobs, builds) is page and page_size with their defaults, plus the filter key exactly when a value is supplied |
| Facade.DefaultPageQuery | src/resources/agent.rs:35-36 | with no arguments the query is page "1" and page_size "10" |
| Facade.WithOptional | src/resources/agent.rs:83-88 | an optional entry is inserted only when supplied, and the other entries are untouched |
| Facade.Overlay | src/resources/agent_executor_cron_job.rs:105-109 | after the payload loop every payload key holds its encoded value, and entries not in the payload are untouched |
| Facade.InsertEncoded | src/resources/agent_executor_cron_job.rs:105-109 | the loop over the payload, in any order, produces `Overlay` |
| Facade.Described | src/resources/agent.rs:45 | a success passes through; a failure becomes "<context>: " followed by the error's `Display` text |
| Facade.Outcome | src/resources/agent.rs:57-68 | a panic passes through; an answer is described under the context |
| Facade.DescribedIdentifiesError | src/resources/agent.rs:45 | under one context the message determines the client error |
| Facade.Discarded | src/resources/agent.rs:143-154 | `delete` returns `Ok(())` iff the request succeeded, and otherwise the described error |
| Facade.Paged | src/resources/agent.rs:47-54 | `list` copies next, previous, results and both counts unchanged and adds the tag |
| Facade.Cursored | src/resources/agent_executor_job.rs:45-50 | `list` copies next, previous and results unchanged and adds the tag |
| AgentResource.DecodeAgent | src/resources/agent.rs:9-15 | an agent decodes from an object iff its four members are strings, and its fields are their texts |
| AgentResource.DecodeEncodeAgent | src/resources/agent.rs:9-15 | a serialized agent decodes back to itself |
| AgentResource.CreateData | src/resources/agent.rs:78-88 | the body always has name, script, python_version and store_id, and has requirements and env_vars only when supplied |
| AgentResource.UpdateData | src/resources/agent.rs:111-129 | the body has exactly the supplied fields, with their values |
| AgentResource.List | src/resources/agent.rs:30-55 | GET "agents/" with the page query and no body; the envelope is wrapped with tag "Agent"; a failure reads "Error listing Agents: ..." |
| AgentResource.Retrieve | src/resources/agent.rs:57-68 | GET "agents/{id}/" with no query or body; a failure reads "Error retrieving Agent: ..." |
| AgentResource.Create | src/resources/agent.rs:70-100 | POST "agents/create/" with the create body; a failure reads "Error creating Agent: ..." |
| AgentResource.Update | src/resources/agent.rs:102-141 | PATCH "agents/{id}/update/" with the supplied fields; a failure reads "Error updating Agent: ..." |
| AgentResource.Delete | src/resources/agent.rs:143-154 | DELETE "agents/{id}/delete/"; any JSON answer is success; a failure reads "Error deleting Agent: ..." |
| AgentExecutorCronJobResource.DecodeAgentExecutorCronJob | src/resources/agent_executor_cron_job.rs:9-15 | a cron job decodes from an object iff its four members are strings, and its fields are their texts |
| AgentExecutorCronJobResource.DecodeEncodeAgentExecutorCronJob | src/resources/agent_executor_cron_job.rs:9-15 | a serialized cron job decodes back to itself |
| AgentExecutorCronJobResource.UpdateData | src/resources/agent_executor_cron_job.rs:101-109 | the body has the name when supplied and every payload entry encoded, and a payload entry "name" replaces the name |
| AgentExecutorCronJobResource.List | src/resources/agent_executor_cron_job.rs:30-59 | GET "agent-executor-cron-jobs/" with that query; the envelope is wrapped with tag "AgentExecutorCronJob" |
| AgentExecutorCronJobResource.Retrieve | src/resources/agent_executor_cron_job.rs:61-72 | GET "agent-executor-cron-jobs/{id}/" with no query or body |
| AgentExecutorCronJobResource.Create | src/resources/agent_executor_cron_job.rs:74-94 | POST "agent-executor-cron-jobs/create/" with exactly agent_id, name and expression |
| AgentExecutorCronJobResource.Update | src/resources/agent_executor_cron_job.rs:96-121 | PATCH "agent-executor-cron-jobs/{id}/update/" with the update body |
| AgentExecutorCronJobResource.Delete | src/resources/agent_executor_cron_job.rs:123-134 | DELETE "agent-executor-cron-jobs/{id}/delete/"; any JSON answer is success |
| StoreResource.DecodeStore | src/resources/store.rs:9-15 | a store decodes from an object iff its four members are strings, and its fields are their texts |
| StoreResource.DecodeEncodeStore | src/resources/store.rs:9-15 | a serialized store decodes back to itself |
| StoreResource.UpdateData | src/resources/store.rs:94-99 | the body has one encoded entry per payload key, and is empty without a payload |
| StoreResource.List | src/resources/store.rs:30-59 | GET "stores/" with that query; the envelope is wrapped with tag "Store"; a failure reads "Error listing stores: ..." |
| StoreResource.Retrieve | src/resources/store.rs:61-72 | GET "stores/{id}/" with no query or body |
| StoreResource.Create | src/resources/store.rs:74-88 | POST "stores/create/" with exactly the name |
| StoreResource.Update | src/resources/store.rs:90-111 | PATCH "stores/{id}/update/" with the update body |
| StoreResource.Delete | src/resources/store.rs:113-124 | DELETE "stores/{id}/delete/"; only a `null` answer is success |
| AgentExecutorJobResource.DecodeAgentExecutorJob | src/resources/agent_executor_job.rs:9-15 | a job decodes from an object iff its four members are strings, and its fields are their texts |
| AgentExecutorJobResource.DecodeEncodeAgentExecutorJob | src/resources/agent_executor_job.rs:9-15 | a serialized job decodes back to itself |
| AgentExecutorJobResource.ListQuery | src/resources/agent_executor_job.rs:31-34 | the query has no paging keys: it is agent_id when supplied and empty otherwise |
| AgentExecutorJobResource.CreateData | src/resources/agent_executor_job.rs:70-74 | the body always has agent_id, and has payload (the JSON text) only when supplied |
| AgentExecutorJobResource.List | src/resources/agent_executor_job.rs:28-51 | GET "agent-executor-jobs/" with that query; the cursor envelope is wrapped with tag "AgentExecutorJob" |
| AgentExecutorJobResource.Retrieve | src/resources/agent_executor_job.rs:53-64 | GET "agent-executor-jobs/{id}/" with no query or body |
| AgentExecutorJobResource.Create | src/resources/agent_executor_job.rs:66-86 | POST "agent-executor-jobs/create/" with the create body |
| ExecutionResource.DecodeExecution | src/resources/execution.rs:8-14 | an execution decodes from an object iff its four members are strings, and its fields are their texts |
| ExecutionResource.DecodeEncodeExecution | src/resources/execution.rs:8-14 | a serialized execution decodes back to itself |
| ExecutionResource.ListQuery | src/resources/execution.rs:32-44 | each of agent_id, agent_executor_job_id and agent_executor_cron_job_id is in the query iff supplied |
| ExecutionResource.List | src/resources/execution.rs:27-61 | GET "executions/" with that query and no body; the cursor envelope is wrapped with tag "Execution" |
| ExecutionResource.Retrieve | src/resources/execution.rs:63-74 | GET "executions/{id}/" with no query or body |
| AgentBuilderJobResource.DecodeAgentBuilderJob | src/resources/agent_builder_job.rs:8-14 | a builder job decodes from an object iff its four members are strings, and its fields are their texts |
| AgentBuilderJobResource.DecodeEncodeAgentBuilderJob | src/resources/agent_builder_job.rs:8-14 | a serialized builder job decodes back to itself |
| AgentBuilderJobResource.List | src/resources/agent_builder_job.rs:29-58 | GET "agent-builder-jobs/" with that query and no body; the envelope is wrapped with tag "AgentBuilderJob" |
| AgentBuilderJobResource.Retrieve | src/resources/agent_builder_job.rs:60-71 | GET "agent-builder-jobs/{id}/" with no query or body |
| BuildResource.DecodeBuild | src/resources/build.rs:8-14 | a build decodes from an object iff its four members are strings, and its fields are their texts |
| BuildResource.DecodeEncodeBuild | src/resources/build.rs:8-14 | a serialized build decodes back to itself |
| BuildResource.List | src/resources/build.rs:29-58 | GET "builds/" with that query and no body; the envelope is wrapped with tag "Build"; a failure reads "Error listing Builds: ..." |
| BuildResource.Retrieve | src/resources/build.rs:60-71 | GET "builds/{id}/" with no query or body |

## Left out

- Network I/O: reqwest's client, `send`, TLS and `connect_async` are the parameters `net` and `ws`. The model does not capture timeouts, redirects or retries.
- The async/await machinery and the lazy `stream!` generator. A stream is modelled as the finite sequence of items it yields before it ends, so an unbounded stream and a consumer that stops early are not modelled.
- The `RwLock`/`lazy_static` cells: the configuration is one single-threaded object. Lock poisoning (the `unwrap`s on `read`/`write`) and concurrent writers are not modelled.
- Reading `SWARMNODE_API_KEY`: the environment's value is a parameter.
- serde and serde_json: JSON text parsing, the texts of their error messages, and `to_string` of a value (the parameter `encode`). Floating-point numbers are kept as their literal text, because the client never reads one.
- `canonical_reason`, the status-phrase table: the reason phrase is part of what the network answers, and `None` stands for a status without one.
- Client.HttpAuthorization: `HeaderValue::from_str` is modelled by its character test only (tab, or visible ASCII and above except DEL). Other byte-level rules of the http crate are not modelled.
- The `Display` impls of the paginated types: they print `std::any::type_name`, which is compiler-defined, and the `Debug` form of the results.
- The WebSocket headers are computed but never passed to the connection. The model keeps only the key check they imply.
- How a WebSocket message is turned into text (`to_string` of a tungstenite message): a frame is its text.
- Client.FirstFrame: a frame is every item the WebSocket library yields, control messages included (Ping, Pong and Close, each as its text; a Close renders as its reason). `Opened([])`, and with it `Aborted(NoFrame)`, stands for a stream that ends before any item, which the library does not produce on a fresh connection.
- bin/main.rs, a demo program making live calls, and src/lib.rs, which only declares and re-exports modules, are not part of this model.
- The HTTP method text parsed by `method.parse().unwrap()`: every caller passes one of GET, POST, PATCH and DELETE, so the method is an enumeration and that `unwrap` cannot fail.
- Round trips through a live server (for example, `next` followed by `previous` returning to the same page) depend on the server and are not stated.
