/** `PUT /tasks/{id}`: looks the task up in the caller's partition, lets a
    MEMBER change only its own tasks, builds one `SET` update from the
    updatable fields present in the body (plus `updated_at`, and `GSI1SK`
    when the status is set), applies it and returns the new task. The body is
    not validated: any status or priority value is stored as sent. */
module UpdateTask {
  import opened Values
  import opened Keys
  import opened Store
  import opened Api
  import Utils

  const UpdatableFields: seq<string> := ["title", "description", "status", "priority", "assigned_to"]

  /** `field in body` for whatever JSON value the body parsed to. */
  function Membership(body: Value, field: string): Result<bool, Fault> {
    match In(field, body)
    case None => Err(TypeFault)
    case Some(b) => Ok(b)
  }

  /** Python `body[field]` after a successful membership test: only an object
      can be indexed by a string. */
  function Subscript(body: Value, field: string): Result<Value, Fault> {
    match body
    case Obj(m) => if field in m then Ok(m[field]) else Err(KeyFault(field))
    case _ => Err(TypeFault)
  }

  /** The `SET` clauses the loop has collected after visiting `fields`:
      `updated_at`, then each visited field the body holds. */
  function SetClauses(body: Value, fields: seq<string>, now: string): Result<Record, Fault> {
    if fields == [] then Ok(map["updated_at" := Str(now)])
    else
      var field := fields[|fields| - 1];
      match SetClauses(body, fields[..|fields| - 1], now)
      case Err(f) => Err(f)
      case Ok(updates) =>
        match Membership(body, field)
        case Err(f) => Err(f)
        case Ok(false) => Ok(updates)
        case Ok(true) =>
          match Subscript(body, field)
          case Err(f) => Err(f)
          case Ok(v) => Ok(updates[field := v])
  }

  /** The whole update: the clauses of the loop, then `GSI1SK` rebuilt from
      the new status and the new timestamp when the body sets the status. The
      loop has already tested `'status' in body` and read `body['status']`
      without raising, so the second test and read give what the loop stored. */
  function Updates(body: Value, now: string): Result<Record, Fault> {
    match SetClauses(body, UpdatableFields, now)
    case Err(f) => Err(f)
    case Ok(updates) =>
      if "status" in updates then
        Ok(updates["GSI1SK" := Str(StatusSortKey(Render(updates["status"]), now))])
      else Ok(updates)
  }

  lemma {:induction false} SetClausesErrorPersists(body: Value, fields: seq<string>, i: nat, now: string)
    requires i <= |fields| && SetClauses(body, fields[..i], now).Err?
    ensures SetClauses(body, fields, now) == SetClauses(body, fields[..i], now)
    decreases |fields| - i
  {
    if i < |fields| {
      assert fields[..i + 1][..i] == fields[..i];
      SetClausesErrorPersists(body, fields, i + 1, now);
      assert SetClauses(body, fields[..i + 1], now) == SetClauses(body, fields[..i], now);
    } else {
      assert fields[..i] == fields;
    }
  }

  /** Whatever the body, a collected update sets only `updated_at` and fields
      that were visited, and `updated_at` is the new timestamp. */
  lemma {:induction false} SetClausesKeys(body: Value, fields: seq<string>, now: string)
    requires SetClauses(body, fields, now).Ok?
    ensures var u := SetClauses(body, fields, now).value;
      && (forall f :: f in u ==> f == "updated_at" || f in fields)
      && "updated_at" in u
      && ("updated_at" !in fields ==> u["updated_at"] == Str(now))
    decreases |fields|
  {
    if fields != [] {
      var init := fields[..|fields| - 1];
      SetClausesKeys(body, init, now);
      assert forall f :: f in init ==> f in fields;
      assert "updated_at" !in fields ==> "updated_at" !in init;
    }
  }

  /** For an object body the loop cannot fail, and it sets exactly the visited
      fields the body holds, to the body's values. */
  lemma {:induction false} SetClausesOfObject(m: Record, fields: seq<string>, now: string)
    requires "updated_at" !in fields
    ensures SetClauses(Obj(m), fields, now).Ok?
    ensures var u := SetClauses(Obj(m), fields, now).value;
      && "updated_at" in u && u["updated_at"] == Str(now)
      && (forall f :: f in u <==> f == "updated_at" || (f in fields && f in m))
      && (forall f :: f in fields && f in m ==> u[f] == m[f])
    decreases |fields|
  {
    if fields != [] {
      var init := fields[..|fields| - 1];
      assert forall f :: f in init ==> f in fields;
      assert fields == init + [fields[|fields| - 1]];
      SetClausesOfObject(m, init, now);
    }
  }

  /** For an object body the update holds `updated_at = now`, exactly the
      updatable fields the body holds with the body's values, and `GSI1SK`
      exactly when the body sets the status, rebuilt from that status and
      `now`. Any other key of the body is ignored. */
  lemma UpdatesOfObject(m: Record, now: string)
    ensures Updates(Obj(m), now).Ok?
    ensures var u := Updates(Obj(m), now).value;
      && "updated_at" in u && u["updated_at"] == Str(now)
      && (forall f :: f in UpdatableFields ==> (f in u <==> f in m))
      && (forall f :: f in UpdatableFields && f in m ==> u[f] == m[f])
      && ("GSI1SK" in u <==> "status" in m)
      && ("status" in m ==> u["GSI1SK"] == Str(StatusSortKey(Render(m["status"]), now)))
      && (forall f :: f in u ==> f in UpdatableFields || f == "updated_at" || f == "GSI1SK")
  {
    SetClausesOfObject(m, UpdatableFields, now);
  }

  /** Whatever the body, an update never names `PK`, `SK`, `GSI1PK`,
      `task_id`, `tenant_id`, `created_by`, `created_at` or `entity_type`. */
  lemma UpdatesKeys(body: Value, now: string)
    requires Updates(body, now).Ok?
    ensures forall f :: f in Updates(body, now).value ==> f in UpdatableFields || f == "updated_at" || f == "GSI1SK"
    ensures "updated_at" in Updates(body, now).value && Updates(body, now).value["updated_at"] == Str(now)
  {
    SetClausesKeys(body, UpdatableFields, now);
  }

  /** The attributes an update can never change. */
  const FixedAttributes: set<string> :=
    {"PK", "SK", "GSI1PK", "task_id", "tenant_id", "created_by", "created_at", "entity_type"}

  /** Merging an update into the stored task changes only the updated
      attributes: every fixed attribute keeps its presence and its value. */
  lemma MergeKeepsFixedAttributes(items: map<Key, Record>, k: Key, body: Value, now: string)
    requires k in items && Updates(body, now).Ok?
    ensures var updated := Merged(items, k, Updates(body, now).value);
      && "updated_at" in updated && updated["updated_at"] == Str(now)
      && forall a :: a in FixedAttributes ==> (a in updated <==> a in items[k]) && (a in updated ==> updated[a] == items[k][a])
  {
    UpdatesKeys(body, now);
  }

  /** The ownership gate of the handler: only a MEMBER acting on a task whose
      `created_by` is not the caller is refused. */
  predicate MayUpdate(role: string, existing: Record, userId: string) {
    !(role == "MEMBER" && Get(existing, "created_by", Null) != Str(userId))
  }

  /** The gate agrees with the shared permission check for ADMIN and MEMBER,
      but lets through any other role, which the permission check refuses. */
  lemma MayUpdateVersusPermissionCheck(role: string, existing: Record, userId: string)
    requires "created_by" in existing ==> existing["created_by"].Str?
    ensures var owner := if "created_by" in existing then Some(existing["created_by"].s) else None;
      && (role == "ADMIN" || role == "MEMBER" ==>
            (MayUpdate(role, existing, userId) <==> Utils.CheckUserPermissions(role, "update", owner, Some(userId))))
      && (role != "ADMIN" && role != "MEMBER" ==>
            MayUpdate(role, existing, userId) && !Utils.CheckUserPermissions(role, "update", owner, Some(userId)))
  {
  }

  /** What the handler decides before reading the store. */
  datatype Plan = Respond(response: Response) | Proceed(caller: Caller, taskId: string, body: Value)

  /** Authorizer fields, path id and body parsing, with the handler's
      exception mapping: KeyError is 400, a JSON decode error is 400, any other
      exception is 500. */
  function Prepare(e: ApiEvent): (p: Plan)
    ensures p.Proceed? <==> CallerOf(e).Ok? && PathId(e).Ok? && e.body.Given? && e.body.value.Parsed?
    ensures p.Proceed? ==>
      p.caller == CallerOf(e).value && p.taskId == PathId(e).value && p.body == e.body.value.json
  {
    match CallerOf(e)
    case Err(KeyFault(k)) => Respond(MissingField(k))
    case Err(TypeFault) => Respond(Internal("Failed to update task"))
    case Ok(c) =>
      match PathId(e)
      case Err(KeyFault(k)) => Respond(MissingField(k))
      case Err(TypeFault) => Respond(Internal("Failed to update task"))
      case Ok(id) =>
        match e.body
        case Absent => Respond(MissingField("body"))
        case JsonNull => Respond(Internal("Failed to update task"))
        case Given(Unparsable) => Respond(Failure(400, "Invalid JSON", "Request body must be valid JSON"))
        case Given(Parsed(json)) => Proceed(c, id, json)
  }

  /** A missing authorizer field or path id is a 400 naming the key. */
  lemma MissingContextIsBadRequest(e: ApiEvent)
    requires (CallerOf(e).Err? && CallerOf(e).error.KeyFault?) ||
             (CallerOf(e).Ok? && PathId(e).Err? && PathId(e).error.KeyFault?)
    ensures Prepare(e).Respond? && Prepare(e).response.statusCode == 400
  {
  }

  function NotFound(taskId: string, tenantId: string): Response {
    Failure(404, "Task Not Found", "Task " + taskId + " not found for tenant " + tenantId)
  }

  function Forbidden(): Response {
    Failure(403, "Forbidden", "Members can only update their own tasks")
  }

  /** The handler's `except` branches for a lookup that raised. */
  function FaultResponse(f: Fault): Response {
    match f
    case KeyFault(k) => MissingField(k)
    case TypeFault => Internal("Failed to update task")
  }

  /** The response built from the item `update_item` returned. A stored task
      lacking one of the attributes read with `[...]` raises KeyError after the
      write, which the handler answers with 400. */
  function Answer(updated: Record): Response {
    match StoredTaskView(updated)
    case Err(f) => FaultResponse(f)
    case Ok(view) => Success(200, TaskBody(view))
  }

  /** The handler's field loop and status check: the `SET` attributes of the
      update, or the exception reading the body raised. */
  method CollectUpdates(body: Value, now: string) returns (r: Result<Record, Fault>)
    ensures r == Updates(body, now)
  {
    var updates: Record := map["updated_at" := Str(now)];
    var i := 0;
    while i < |UpdatableFields|
      invariant 0 <= i <= |UpdatableFields|
      invariant SetClauses(body, UpdatableFields[..i], now) == Ok(updates)
    {
      var field := UpdatableFields[i];
      assert UpdatableFields[..i + 1][..i] == UpdatableFields[..i];
      var member := Membership(body, field);
      if member.Err? {
        SetClausesErrorPersists(body, UpdatableFields, i + 1, now);
        return Err(member.error);
      }
      if member.value {
        var value := Subscript(body, field);
        if value.Err? {
          SetClausesErrorPersists(body, UpdatableFields, i + 1, now);
          return Err(value.error);
        }
        updates := updates[field := value.value];
      }
      i := i + 1;
    }
    assert UpdatableFields[..i] == UpdatableFields;
    if "status" in updates {
      updates := updates["GSI1SK" := Str(StatusSortKey(Render(updates["status"]), now))];
    }
    r := Ok(updates);
  }

  /** The handler. Only the item at the caller's own tenant/task key is ever
      written; a missing item, a refused MEMBER or a body that cannot be read
      field by field leaves the store as it was. */
  method Handle(table: Table, e: ApiEvent, now: string) returns (r: Response)
    modifies table
    ensures Prepare(e).Respond? ==> r == Prepare(e).response && table.items == old(table.items)
    ensures Prepare(e).Proceed? ==>
      var p := Prepare(e);
      var k := Key(TenantPk(p.caller.tenantId), TaskSk(p.taskId));
      && (k !in old(table.items) ==> r == NotFound(p.taskId, p.caller.tenantId) && table.items == old(table.items))
      && (k in old(table.items) && !MayUpdate(p.caller.role, old(table.items)[k], p.caller.userId) ==>
            r == Forbidden() && table.items == old(table.items))
      && (k in old(table.items) && MayUpdate(p.caller.role, old(table.items)[k], p.caller.userId) ==>
            if Updates(p.body, now).Err? then
              r == FaultResponse(Updates(p.body, now).error) && table.items == old(table.items)
            else
              var updated := Merged(old(table.items), k, Updates(p.body, now).value);
              table.items == old(table.items)[k := updated] && r == Answer(updated))
    ensures Partitioned(old(table.items)) ==> Partitioned(table.items)
  {
    var plan := Prepare(e);
    if plan.Respond? {
      return plan.response;
    }
    var c, taskId, body := plan.caller, plan.taskId, plan.body;
    var k := Key(TenantPk(c.tenantId), TaskSk(taskId));
    var existing := table.Get(k);
    if existing.None? {
      return NotFound(taskId, c.tenantId);
    }
    if c.role == "MEMBER" && Get(existing.value, "created_by", Null) != Str(c.userId) {
      return Forbidden();
    }
    var updates := CollectUpdates(body, now);
    if updates.Err? {
      return FaultResponse(updates.error);
    }
    UpdatesKeys(body, now);
    if Partitioned(table.items) {
      MergeKeepsPartitioned(table.items, k, updates.value);
    }
    var updated := table.UpdateItem(k, updates.value);
    r := Answer(updated);
  }
}
