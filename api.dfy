/** The HTTP-facing shapes the task handlers share: the gateway event they
    receive (already parsed), the caller identity the authorizer forwarded,
    and the responses they build. */
module Api {
  import opened Values
  import opened Ordering

  /** A field of the gateway event: absent (indexing raises KeyError), JSON
      null (indexing into it raises TypeError), or present. */
  datatype Slot<+T> = Absent | JsonNull | Given(value: T)

  /** The raw request body after `json.loads`. */
  datatype BodyText = Unparsable | Parsed(json: Value)

  datatype RequestContext = RequestContext(authorizer: Slot<map<string, string>>)

  datatype ApiEvent = ApiEvent(
    requestContext: Slot<RequestContext>,
    pathParameters: Slot<map<string, string>>,
    queryStringParameters: Slot<map<string, string>>,
    body: Slot<BodyText>)

  /** The Python exception a lookup raised. */
  datatype Fault = KeyFault(key: string) | TypeFault

  /** `event['requestContext']['authorizer']`. */
  function AuthorizerOf(e: ApiEvent): Result<map<string, string>, Fault> {
    match e.requestContext
    case Absent => Err(KeyFault("requestContext"))
    case JsonNull => Err(TypeFault)
    case Given(rc) =>
      match rc.authorizer
      case Absent => Err(KeyFault("authorizer"))
      case JsonNull => Err(TypeFault)
      case Given(a) => Ok(a)
  }

  /** The identity every task handler reads first. */
  datatype Caller = Caller(tenantId: string, userId: string, role: string)

  /** `tenant_id`, `user_id` and `role` of the authorizer context, looked up
      in that order. */
  function CallerOf(e: ApiEvent): (r: Result<Caller, Fault>)
    ensures r.Ok? ==> (
      && AuthorizerOf(e).Ok?
      && "tenant_id" in AuthorizerOf(e).value
      && "user_id" in AuthorizerOf(e).value
      && "role" in AuthorizerOf(e).value
      && r.value == Caller(AuthorizerOf(e).value["tenant_id"], AuthorizerOf(e).value["user_id"],
                           AuthorizerOf(e).value["role"]))
    ensures r.Err? && r.error.KeyFault? ==>
      r.error.key in {"requestContext", "authorizer", "tenant_id", "user_id", "role"}
  {
    match AuthorizerOf(e)
    case Err(f) => Err(f)
    case Ok(a) =>
      if "tenant_id" !in a then Err(KeyFault("tenant_id"))
      else if "user_id" !in a then Err(KeyFault("user_id"))
      else if "role" !in a then Err(KeyFault("role"))
      else Ok(Caller(a["tenant_id"], a["user_id"], a["role"]))
  }

  /** `event['pathParameters']['id']`. */
  function PathId(e: ApiEvent): Result<string, Fault> {
    match e.pathParameters
    case Absent => Err(KeyFault("pathParameters"))
    case JsonNull => Err(TypeFault)
    case Given(p) => if "id" in p then Ok(p["id"]) else Err(KeyFault("id"))
  }

  /** The response bodies, before JSON serialisation. */
  datatype Body =
    | ErrorBody(error: string, message: string)
    | TaskBody(task: Record)
    | ListBody(tasks: seq<Record>, count: int, hasMore: bool, lastKey: Option<Position>,
               statusFilter: Option<string>, tenantId: string)
    | DeletedBody(message: string, taskId: string, tenantId: string, title: Value,
                  deletedBy: string, deletedAt: Value)

  datatype Response = Response(statusCode: int, headers: map<string, string>, body: Body)

  const JsonHeaders: map<string, string> := map["Content-Type" := "application/json"]
  const CorsJsonHeaders: map<string, string> :=
    map["Content-Type" := "application/json", "Access-Control-Allow-Origin" := "*"]

  /** An error response as the handlers write it: JSON content type only. */
  function Failure(statusCode: int, error: string, message: string): Response {
    Response(statusCode, JsonHeaders, ErrorBody(error, message))
  }

  /** A success response: JSON content type and the any-origin CORS header. */
  function Success(statusCode: int, body: Body): Response {
    Response(statusCode, CorsJsonHeaders, body)
  }

  /** The 400 a handler's `except KeyError` branch returns. */
  function MissingField(key: string): Response {
    Failure(400, "Bad Request", "Missing required field: " + Repr(key))
  }

  /** The 500 a handler's catch-all branch returns. */
  function Internal(message: string): Response {
    Failure(500, "Internal Server Error", message)
  }

  /** The projection of a task the handlers return: the ten public fields,
      with the internal key attributes and the discriminator left out. */
  const PublicTaskFields: set<string> := {
    "task_id", "tenant_id", "title", "description", "status", "priority",
    "assigned_to", "created_by", "created_at", "updated_at"}

  const InternalFields: set<string> := {"PK", "SK", "GSI1PK", "GSI1SK", "entity_type"}

  /** The projection that `update_task` and `list_tasks` build from a stored
      item: `task_id`, `tenant_id`, `title`, `status`, `created_at` and
      `updated_at` are read with `item[...]` (a missing one raises KeyError),
      the rest with defaults: empty for `description`, `assigned_to` and
      `created_by`, `MEDIUM` for `priority`. */
  function StoredTaskView(item: Record): (r: Result<Record, Fault>)
    ensures r.Ok? ==> r.value.Keys == PublicTaskFields && r.value.Keys !! InternalFields
    ensures r.Ok? <==> forall f :: f in ["task_id", "tenant_id", "title", "status", "created_at", "updated_at"] ==> f in item
    ensures r.Ok? ==> forall f :: f in r.value && f in item ==> r.value[f] == item[f]
    ensures r.Ok? && "description" !in item ==> r.value["description"] == Str("")
    ensures r.Ok? && "priority" !in item ==> r.value["priority"] == Str("MEDIUM")
    ensures r.Ok? && "assigned_to" !in item ==> r.value["assigned_to"] == Str("")
    ensures r.Ok? && "created_by" !in item ==> r.value["created_by"] == Str("")
    ensures r.Err? ==> r.error.KeyFault? && r.error.key !in item
  {
    if "task_id" !in item then Err(KeyFault("task_id"))
    else if "tenant_id" !in item then Err(KeyFault("tenant_id"))
    else if "title" !in item then Err(KeyFault("title"))
    else if "status" !in item then Err(KeyFault("status"))
    else if "created_at" !in item then Err(KeyFault("created_at"))
    else if "updated_at" !in item then Err(KeyFault("updated_at"))
    else Ok(map[
      "task_id" := item["task_id"],
      "tenant_id" := item["tenant_id"],
      "title" := item["title"],
      "description" := Get(item, "description", Str("")),
      "status" := item["status"],
      "priority" := Get(item, "priority", Str("MEDIUM")),
      "assigned_to" := Get(item, "assigned_to", Str("")),
      "created_by" := Get(item, "created_by", Str("")),
      "created_at" := item["created_at"],
      "updated_at" := item["updated_at"]])
  }
}
