/** `GET /tasks`: one page of the caller's tasks, most recent sort key first,
    optionally restricted to one status through `GSI1`, with the store's
    last evaluated key handed back for the next page. Items of the partition
    that are not tasks are dropped from the page after the query. */
module ListTasks {
  import opened Values
  import opened Ordering
  import opened Keys
  import opened Store
  import opened Api

  const DefaultLimit := 50
  const MaxLimit := 100

  /** What `json.loads` makes of a non-empty `last_key` parameter: invalid
      JSON (logged and ignored), a key of the queried index, or a JSON value
      the store refuses as a start key when the query runs. */
  datatype StartKeyText = NotJson | KeyAt(pos: Position) | NotAKey

  /** `event.get('queryStringParameters') or {}`. */
  function QueryParams(e: ApiEvent): map<string, string> {
    match e.queryStringParameters
    case Given(m) => m
    case _ => map[]
  }

  /** `query_params.get(name)`. */
  function Param(params: map<string, string>, name: string): Option<string> {
    if name in params then Some(params[name]) else None
  }

  /** The key condition: the status index when the status filter is a
      non-empty string, the task rows of the tenant partition otherwise. */
  function Condition(tenantId: string, statusFilter: Option<string>): (c: KeyCondition)
    ensures c.TablePrefix? ==> c.pk == TenantPk(tenantId) && c.skPrefix == "TASK#"
    ensures c.IndexPrefix? ==> c.gsiPk == TenantPk(tenantId) && StartsWith(c.gsiSkPrefix, "STATUS#")
    ensures c.IndexPrefix? <==> statusFilter.Some? && statusFilter.value != ""
  {
    if statusFilter.Some? && statusFilter.value != "" then
      IndexPrefix(TenantPk(tenantId), StatusPrefix(statusFilter.value))
    else TablePrefix(TenantPk(tenantId), "TASK#")
  }

  /** What the handler decides before querying. */
  datatype Plan =
    | Respond(response: Response)
    | Run(tenantId: string, statusFilter: Option<string>, condition: KeyCondition, limit: nat, start: Option<Position>)

  function Failed(): Response {
    Internal("Failed to retrieve tasks")
  }

  /** A `limit` parameter the handler accepts: absent, or an integer of at
      least 1. */
  predicate LimitAccepted(params: map<string, string>) {
    "limit" !in params || (ParseInt(params["limit"]).Some? && ParseInt(params["limit"]).value >= 1)
  }

  /** A `last_key` parameter that does not make the query raise: absent,
      empty, not JSON, or a key the store takes. */
  predicate CursorAccepted(params: map<string, string>, decode: string -> StartKeyText) {
    !("last_key" in params && params["last_key"] != "" && decode(params["last_key"]).NotAKey?)
  }

  /** Caller identity and query parameters, with the handler's exception
      mapping: a ValueError from `int` is 400, anything else is 500 (there is
      no KeyError branch, so a missing authorizer field is 500 too). A limit
      above 100 is lowered to 100; one below 1, and a start key the store
      refuses, make the query raise. An absent or empty `last_key`, or one
      that is not JSON, is ignored; a decoded key is the exclusive start. */
  function Prepare(e: ApiEvent, decode: string -> StartKeyText): (p: Plan)
    ensures p.Run? ==> 1 <= p.limit <= MaxLimit
    ensures p.Run? ==> CallerOf(e).Ok? && p.tenantId == CallerOf(e).value.tenantId
    ensures p.Run? ==> p.condition == Condition(p.tenantId, p.statusFilter)
    ensures p.Run? ==> p.statusFilter == Param(QueryParams(e), "status")
    ensures CallerOf(e).Err? ==> p == Respond(Failed())
    ensures p.Run? && p.start.Some? ==>
      var params := QueryParams(e);
      "last_key" in params && params["last_key"] != "" && decode(params["last_key"]) == KeyAt(p.start.value)
    ensures p.Run? && p.start.None? ==>
      var params := QueryParams(e);
      "last_key" !in params || params["last_key"] == "" || decode(params["last_key"]) == NotJson
    ensures var params := QueryParams(e);
      "last_key" in params && params["last_key"] != "" && decode(params["last_key"]).NotAKey? ==> p.Respond?
    ensures p.Run? <==> CallerOf(e).Ok? && LimitAccepted(QueryParams(e)) && CursorAccepted(QueryParams(e), decode)
    ensures p.Run? ==>
      var params := QueryParams(e);
      ("last_key" !in params || params["last_key"] == "" || decode(params["last_key"]) == NotJson) ==> p.start.None?
  {
    match CallerOf(e)
    case Err(_) => Respond(Failed())
    case Ok(c) =>
      var params := QueryParams(e);
      var status := Param(params, "status");
      var requested := if "limit" in params then ParseInt(params["limit"]) else Some(DefaultLimit);
      if requested.None? then
        Respond(Failure(400, "Bad Request",
                        "Invalid parameter: invalid literal for int() with base 10: " + Repr(params["limit"])))
      else
        var limit := if requested.value > MaxLimit then MaxLimit else requested.value;
        var start := if "last_key" in params && params["last_key"] != "" then decode(params["last_key"]) else NotJson;
        if start.NotAKey? || limit < 1 then Respond(Failed())
        else Run(c.tenantId, status, Condition(c.tenantId, status), limit,
                 if start.KeyAt? then Some(start.pos) else None)
  }

  /** The limit: 50 when absent, the parsed value capped at 100, and an
      unparsable value answered with 400; a valid limit with an accepted
      cursor always runs the query. */
  lemma LimitRules(e: ApiEvent, decode: string -> StartKeyText)
    requires CallerOf(e).Ok?
    ensures "limit" !in QueryParams(e) && CursorAccepted(QueryParams(e), decode) ==>
      Prepare(e, decode).Run? && Prepare(e, decode).limit == DefaultLimit
    ensures "limit" in QueryParams(e) && ParseInt(QueryParams(e)["limit"]).None? ==>
      Prepare(e, decode).Respond? && Prepare(e, decode).response.statusCode == 400
    ensures "limit" in QueryParams(e) && ParseInt(QueryParams(e)["limit"]).Some? ==>
      var n := ParseInt(QueryParams(e)["limit"]).value;
      && (n < 1 ==> Prepare(e, decode) == Respond(Failed()))
      && (Prepare(e, decode).Run? ==> Prepare(e, decode).limit == if n > MaxLimit then MaxLimit else n)
      && (n >= 1 && CursorAccepted(QueryParams(e), decode) ==>
            Prepare(e, decode).Run? && Prepare(e, decode).limit == if n > MaxLimit then MaxLimit else n)
  {
  }

  predicate IsTaskItem(item: Record) {
    Get(item, "entity_type", Null) == Str("TASK")
  }

  /** The tasks the loop over the page builds: each task item's projection,
      in page order; a task item lacking a required attribute raises. */
  function ListedTasks(page: seq<Hit>): Result<seq<Record>, Fault> {
    if page == [] then Ok([])
    else
      var item := page[|page| - 1].item;
      match ListedTasks(page[..|page| - 1])
      case Err(f) => Err(f)
      case Ok(tasks) =>
        if !IsTaskItem(item) then Ok(tasks)
        else
          match StoredTaskView(item)
          case Err(f) => Err(f)
          case Ok(view) => Ok(tasks + [view])
  }

  lemma {:induction false} ListedTasksErrorPersists(page: seq<Hit>, i: nat)
    requires i <= |page| && ListedTasks(page[..i]).Err?
    ensures ListedTasks(page) == ListedTasks(page[..i])
    decreases |page| - i
  {
    if i < |page| {
      assert page[..i + 1][..i] == page[..i];
      ListedTasksErrorPersists(page, i + 1);
    } else {
      assert page[..i] == page;
    }
  }

  /** The listing fails exactly when some task item of the page lacks a
      required attribute. Otherwise it holds no more tasks than the page has
      items, every task is the projection of a task item of the page, and
      every task item's projection is listed. */
  lemma {:induction false} ListedTasksMeaning(page: seq<Hit>)
    ensures ListedTasks(page).Err? <==> exists j :: 0 <= j < |page| && IsTaskItem(page[j].item) && StoredTaskView(page[j].item).Err?
    ensures ListedTasks(page).Ok? ==>
      var tasks := ListedTasks(page).value;
      && |tasks| <= |page|
      && (forall t :: t in tasks ==> exists j :: 0 <= j < |page| && IsTaskItem(page[j].item) && StoredTaskView(page[j].item) == Ok(t))
      && (forall j :: 0 <= j < |page| && IsTaskItem(page[j].item) ==> StoredTaskView(page[j].item).Ok? && StoredTaskView(page[j].item).value in tasks)
    decreases |page|
  {
    if page != [] {
      var init := page[..|page| - 1];
      ListedTasksMeaning(init);
      assert forall j :: 0 <= j < |init| ==> init[j] == page[j];
      assert page == init + [page[|page| - 1]];
    }
  }

  /** The positions of the task items on the page, in page order. */
  function TaskIndices(page: seq<Hit>): (idx: seq<nat>)
    ensures forall i :: 0 <= i < |idx| ==> idx[i] < |page| && IsTaskItem(page[idx[i]].item)
    ensures forall i, j :: 0 <= i < j < |idx| ==> idx[i] < idx[j]
    ensures forall j :: 0 <= j < |page| && IsTaskItem(page[j].item) ==> j in idx
  {
    if page == [] then []
    else
      var n := |page| - 1;
      assert forall k :: 0 <= k < n ==> page[..n][k] == page[k];
      TaskIndices(page[..n]) + (if IsTaskItem(page[n].item) then [n] else [])
  }

  /** A successful listing holds one view per task item of the page, in page
      order, so the order of the query reaches the response. */
  lemma {:induction false} ListedIndices(page: seq<Hit>)
    ensures ListedTasks(page).Ok? ==>
      var tasks, idx := ListedTasks(page).value, TaskIndices(page);
      && |tasks| == |idx|
      && forall i :: 0 <= i < |tasks| ==> StoredTaskView(page[idx[i]].item) == Ok(tasks[i])
    decreases |page|
  {
    if page != [] {
      var n := |page| - 1;
      var init := page[..n];
      ListedIndices(init);
      assert forall k :: 0 <= k < n ==> init[k] == page[k];
    }
  }

  /** The handler's loop over the returned items. */
  method CollectTasks(page: seq<Hit>) returns (r: Result<seq<Record>, Fault>)
    ensures r == ListedTasks(page)
  {
    var tasks: seq<Record> := [];
    var i := 0;
    while i < |page|
      invariant 0 <= i <= |page|
      invariant ListedTasks(page[..i]) == Ok(tasks)
    {
      assert page[..i + 1][..i] == page[..i];
      var item := page[i].item;
      if Get(item, "entity_type", Null) == Str("TASK") {
        var view := StoredTaskView(item);
        if view.Err? {
          ListedTasksErrorPersists(page, i + 1);
          return Err(view.error);
        }
        tasks := tasks + [view.value];
      }
      i := i + 1;
    }
    assert page[..i] == page;
    r := Ok(tasks);
  }

  /** The 200 answer for a page, or 500 when a task item is incomplete. */
  function Answer(tenantId: string, statusFilter: Option<string>, page: seq<Hit>, last: Option<Position>): Response {
    match ListedTasks(page)
    case Err(_) => Failed()
    case Ok(tasks) => Success(200, ListBody(tasks, |tasks|, last.Some?, last, statusFilter, tenantId))
  }

  /** The handler. It does not write; `page` and `last` are the items and
      the last evaluated key of the one query it runs. */
  method Handle(table: Table, e: ApiEvent, decode: string -> StartKeyText)
    returns (r: Response, ghost page: seq<Hit>, ghost last: Option<Position>)
    ensures Prepare(e, decode).Respond? ==> r == Prepare(e, decode).response
    ensures Prepare(e, decode).Run? ==>
      var p := Prepare(e, decode);
      && IsPage(table.items, p.condition, p.start, p.limit, page, last)
      && r == Answer(p.tenantId, p.statusFilter, page, last)
  {
    var plan := Prepare(e, decode);
    if plan.Respond? {
      return plan.response, [], None;
    }
    var hits, lastKey := table.Query(plan.condition, plan.start, plan.limit);
    page, last := hits, lastKey;
    var tasks := CollectTasks(hits);
    if tasks.Err? {
      return Failed(), page, last;
    }
    r := Success(200, ListBody(tasks.value, |tasks.value|, lastKey.Some?, lastKey, plan.statusFilter, plan.tenantId));
  }

  /** A 200 listing holds at most `limit` (so at most 100) tasks, and says
      there is more exactly when the store returned a last evaluated key,
      which happens exactly when the query filled its limit. */
  lemma AnswerBounds(items: map<Key, Record>, tenantId: string, statusFilter: Option<string>,
                     start: Option<Position>, limit: nat, page: seq<Hit>, last: Option<Position>)
    requires 1 <= limit <= MaxLimit
    requires IsPage(items, Condition(tenantId, statusFilter), start, limit, page, last)
    requires Answer(tenantId, statusFilter, page, last).statusCode == 200
    ensures var body := Answer(tenantId, statusFilter, page, last).body;
      && body.ListBody? && body.count == |body.tasks| <= limit
      && (body.hasMore <==> |page| == limit)
      && body.tenantId == tenantId && body.statusFilter == statusFilter
  {
    ListedTasksMeaning(page);
  }

  /** In a partitioned store, both kinds of listing stay inside the caller's
      tenant partition: every item on the page is stored under
      `TENANT#<tenant>`, so no tenant ever sees another tenant's items. */
  lemma PageStaysInTenant(items: map<Key, Record>, tenantId: string, statusFilter: Option<string>,
                          start: Option<Position>, limit: nat, page: seq<Hit>, last: Option<Position>)
    requires Partitioned(items)
    requires IsPage(items, Condition(tenantId, statusFilter), start, limit, page, last)
    ensures forall i :: 0 <= i < |page| ==>
      && page[i].pos.pk == TenantPk(tenantId)
      && page[i].item["PK"] == Str(TenantPk(tenantId))
  {
    var c := Condition(tenantId, statusFilter);
    forall i | 0 <= i < |page|
      ensures page[i].pos.pk == TenantPk(tenantId) && page[i].item["PK"] == Str(TenantPk(tenantId))
    {
      var p := page[i].pos;
      CandidateKey(items, c, start, p);
      var k := Key(p.pk, p.sk);
      assert StartsWith(TenantPk(tenantId), "TENANT#");
    }
  }

  /** Without a status filter only task rows are queried: every item on the
      page has a `TASK#` sort key, so analytics, metrics, notification and
      audit records of the partition never reach the page. */
  lemma UnfilteredPageHoldsTaskRows(items: map<Key, Record>, tenantId: string,
                                    start: Option<Position>, limit: nat, page: seq<Hit>, last: Option<Position>)
    requires IsPage(items, Condition(tenantId, None), start, limit, page, last)
    ensures forall i :: 0 <= i < |page| ==> StartsWith(page[i].pos.sk, "TASK#")
  {
    forall i | 0 <= i < |page|
      ensures StartsWith(page[i].pos.sk, "TASK#")
    {
      CandidateKey(items, Condition(tenantId, None), start, page[i].pos);
    }
  }

  /** With a non-empty status filter the status index is queried: every item
      on the page carries the caller's tenant as its index partition and an
      index sort key, the page position, that starts with `STATUS#<status>#`. */
  lemma FilteredPageHoldsStatusRows(items: map<Key, Record>, tenantId: string, status: string,
                                    start: Option<Position>, limit: nat, page: seq<Hit>, last: Option<Position>)
    requires status != ""
    requires IsPage(items, Condition(tenantId, Some(status)), start, limit, page, last)
    ensures forall i :: 0 <= i < |page| ==>
      && StartsWith(page[i].pos.sortKey, "STATUS#" + status + "#")
      && "GSI1PK" in page[i].item && page[i].item["GSI1PK"] == Str(TenantPk(tenantId))
      && "GSI1SK" in page[i].item && page[i].item["GSI1SK"] == Str(page[i].pos.sortKey)
  {
    forall i | 0 <= i < |page|
      ensures StartsWith(page[i].pos.sortKey, "STATUS#" + status + "#")
      ensures "GSI1PK" in page[i].item && page[i].item["GSI1PK"] == Str(TenantPk(tenantId))
      ensures "GSI1SK" in page[i].item && page[i].item["GSI1SK"] == Str(page[i].pos.sortKey)
    {
      CandidateKey(items, Condition(tenantId, Some(status)), start, page[i].pos);
    }
  }
}
