/** `POST /tasks`: builds the task item from the request, stores it, then
    publishes a `Task Created` event. The task id and the clock reading are
    parameters, as are the outside events that change the outcome: the
    table rejecting the write, and the event bus accepting the entry,
    rejecting it in its response, or raising. */
module CreateTask {
  import opened Values
  import opened Keys
  import opened Store
  import opened Api

  /** `body.get("status", "OPEN")`, as stored and as embedded in `GSI1SK`. */
  function StatusOf(body: Record): Value {
    Get(body, "status", Str("OPEN"))
  }

  /** The item the handler stores, for a body whose title is truthy. */
  function NewTaskItem(c: Caller, body: Record, taskId: string, now: string): Record
    requires "title" in body
  {
    map[
      "PK" := Str(TenantPk(c.tenantId)),
      "SK" := Str(TaskSk(taskId)),
      "GSI1PK" := Str(TenantPk(c.tenantId)),
      "GSI1SK" := Str(StatusSortKey(Render(StatusOf(body)), now)),
      "task_id" := Str(taskId),
      "tenant_id" := Str(c.tenantId),
      "title" := body["title"],
      "description" := Get(body, "description", Str("")),
      "status" := StatusOf(body),
      "priority" := Get(body, "priority", Str("MEDIUM")),
      "assigned_to" := Get(body, "assigned_to", Str("")),
      "created_by" := Str(c.userId),
      "created_at" := Str(now),
      "updated_at" := Str(now),
      "entity_type" := Str("TASK")]
  }

  /** The task as the 201 response returns it: the ten public fields. */
  function CreatedView(item: Record): Record
    requires PublicTaskFields <= item.Keys
  {
    map f | f in PublicTaskFields :: item[f]
  }

  /** The detail of the `Task Created` event. */
  function EventDetail(item: Record, c: Caller, taskId: string, now: string): Record
    requires "title" in item
  {
    map[
      "task_id" := Str(taskId),
      "tenant_id" := Str(c.tenantId),
      "title" := item["title"],
      "created_by" := Str(c.userId),
      "created_at" := Str(now)]
  }

  function TaskCreatedEntry(detail: Record): BusEntry {
    BusEntry("saas.tasks", "Task Created", detail)
  }

  /** What the handler decides before touching the store: an early response,
      or the caller and the parsed body of a task to insert. */
  datatype Plan = Respond(response: Response) | Insert(caller: Caller, body: Record)

  /** Authorizer fields, body parsing and the title check, in the handler's
      order and with its exception mapping: KeyError is 400, a JSON decode
      error is 400, anything else (a null body, a body that is not an
      object) is 500. */
  function Prepare(e: ApiEvent): (p: Plan)
    ensures p.Insert? ==> "title" in p.body && Truthy(p.body["title"])
    ensures p.Insert? ==> CallerOf(e) == Ok(p.caller)
    ensures p.Insert? <==>
      && CallerOf(e).Ok? && e.body.Given? && e.body.value.Parsed? && e.body.value.json.Obj?
      && Truthy(Get(e.body.value.json.fields, "title", Null))
    ensures p.Insert? ==> p.body == e.body.value.json.fields
  {
    match CallerOf(e)
    case Err(KeyFault(k)) => Respond(MissingField(k))
    case Err(TypeFault) => Respond(Internal("Failed to create task"))
    case Ok(c) =>
      match e.body
      case Absent => Respond(MissingField("body"))
      case JsonNull => Respond(Internal("Failed to create task"))
      case Given(Unparsable) => Respond(Failure(400, "Invalid JSON", "Request body must be valid JSON"))
      case Given(Parsed(json)) =>
        if !json.Obj? then Respond(Internal("Failed to create task"))
        else if !Truthy(Get(json.fields, "title", Null)) then
          Respond(Failure(400, "Title is required", "Task title cannot be empty"))
        else Insert(c, json.fields)
  }

  /** A missing, null, empty or otherwise falsy title is a 400; so is a
      missing authorizer field or body. */
  lemma FalsyTitleIsBadRequest(e: ApiEvent)
    requires CallerOf(e).Ok? && e.body.Given? && e.body.value.Parsed? && e.body.value.json.Obj?
    requires !Truthy(Get(e.body.value.json.fields, "title", Null))
    ensures Prepare(e) == Respond(Failure(400, "Title is required", "Task title cannot be empty"))
  {
  }

  /** The stored item: tenant partition and task sort key, the same tenant
      partition in `GSI1` with a status-and-time sort key, the documented
      defaults, the caller as creator, one timestamp for creation and last
      update, and the `TASK` discriminator. */
  lemma NewTaskItemShape(c: Caller, body: Record, taskId: string, now: string)
    requires "title" in body
    ensures var item := NewTaskItem(c, body, taskId, now);
      && HasKey(item) && KeyOf(item) == Key(TenantPk(c.tenantId), TaskSk(taskId))
      && item["GSI1PK"] == Str(TenantPk(c.tenantId))
      && item["GSI1SK"] == Str(StatusSortKey(if "status" in body then Render(body["status"]) else "OPEN", now))
      && item["status"] == (if "status" in body then body["status"] else Str("OPEN"))
      && item["priority"] == (if "priority" in body then body["priority"] else Str("MEDIUM"))
      && item["description"] == (if "description" in body then body["description"] else Str(""))
      && item["assigned_to"] == (if "assigned_to" in body then body["assigned_to"] else Str(""))
      && item["title"] == body["title"]
      && item["created_by"] == Str(c.userId)
      && item["created_at"] == item["updated_at"] == Str(now)
      && item["entity_type"] == Str("TASK")
      && item.Keys == PublicTaskFields + InternalFields
  {
  }

  lemma PublicAndInternalDisjoint()
    ensures PublicTaskFields !! InternalFields
  {
  }

  /** Keeping the public fields of an item made of public and internal
      fields is removing the internal ones. */
  lemma ViewDropsInternals(item: Record)
    requires item.Keys == PublicTaskFields + InternalFields
    ensures CreatedView(item) == item - InternalFields
  {
    PublicAndInternalDisjoint();
    var view, rest := CreatedView(item), item - InternalFields;
    assert view.Keys == rest.Keys;
    forall f | f in view
      ensures view[f] == rest[f]
    {
    }
  }

  /** The 201 body is the stored item minus the key attributes and the
      discriminator. */
  lemma CreatedViewIsItemWithoutInternals(c: Caller, body: Record, taskId: string, now: string)
    requires "title" in body
    ensures var item := NewTaskItem(c, body, taskId, now);
      CreatedView(item) == item - InternalFields
  {
    NewTaskItemShape(c, body, taskId, now);
    ViewDropsInternals(NewTaskItem(c, body, taskId, now));
  }

  /** The published detail carries exactly the five event fields, each equal
      to the stored item's attribute of the same name. */
  lemma EventDetailMatchesItem(c: Caller, body: Record, taskId: string, now: string)
    requires "title" in body
    ensures var item := NewTaskItem(c, body, taskId, now);
      var detail := EventDetail(item, c, taskId, now);
      && detail.Keys == {"task_id", "tenant_id", "title", "created_by", "created_at"}
      && forall f :: f in detail ==> f in item && detail[f] == item[f]
  {
  }

  /** The handler. On success exactly one item is inserted, under the caller's
      tenant and the new task id, and one event is handed to the bus. A
      failed put leaves both untouched; a raising publish leaves the inserted
      item in place and still answers 500. The response of `put_events` is
      not read, so an entry the bus rejects without raising still gives 201,
      with no event logged. Nothing is written on any early response. */
  method Handle(table: Table, bus: EventBus, e: ApiEvent, taskId: string, now: string,
                putFails: bool, delivery: Delivery) returns (r: Response)
    modifies table, bus
    ensures Prepare(e).Respond? ==>
      r == Prepare(e).response && table.items == old(table.items) && bus.entries == old(bus.entries)
    ensures Prepare(e).Insert? && putFails ==>
      r == Internal("Failed to create task") && table.items == old(table.items) && bus.entries == old(bus.entries)
    ensures Prepare(e).Insert? && !putFails ==>
      var item := NewTaskItem(Prepare(e).caller, Prepare(e).body, taskId, now);
      && table.items == old(table.items)[Key(TenantPk(Prepare(e).caller.tenantId), TaskSk(taskId)) := item]
      && (delivery == Raises ==> r == Internal("Failed to create task"))
      && (delivery != Raises ==> r == Success(201, TaskBody(CreatedView(item))))
      && (delivery == Accepted ==>
            bus.entries == old(bus.entries) + [TaskCreatedEntry(EventDetail(item, Prepare(e).caller, taskId, now))])
      && (delivery != Accepted ==> bus.entries == old(bus.entries))
    ensures r.statusCode == 201 <==> Prepare(e).Insert? && !putFails && delivery != Raises
    ensures bus.entries != old(bus.entries) ==> r.statusCode == 201
    ensures Partitioned(old(table.items)) ==> Partitioned(table.items)
  {
    var plan := Prepare(e);
    if plan.Respond? {
      return plan.response;
    }
    var c, body := plan.caller, plan.body;
    var item := NewTaskItem(c, body, taskId, now);
    NewTaskItemShape(c, body, taskId, now);
    if putFails {
      return Internal("Failed to create task");
    }
    table.PutItem(item);
    if delivery == Raises {
      return Internal("Failed to create task");
    }
    var _ := bus.PutEvent(TaskCreatedEntry(EventDetail(item, c, taskId, now)), delivery == Accepted);
    r := Success(201, TaskBody(CreatedView(item)));
  }
}
