/** `DELETE /tasks/{id}`: only an ADMIN may delete; the task must exist in
    the caller's partition; the answer echoes the deleted task's title and
    last update time. */
module DeleteTask {
  import opened Values
  import opened Keys
  import opened Store
  import opened Api
  import Utils

  /** What the handler decides before reading the store. */
  datatype Plan = Respond(response: Response) | Proceed(caller: Caller, taskId: string)

  function Forbidden(): Response {
    Failure(403, "Forbidden", "Only administrators can delete tasks")
  }

  /** Authorizer fields, path id and the ADMIN gate, with the handler's
      exception mapping: KeyError is 400, anything else is 500. */
  function Prepare(e: ApiEvent): (p: Plan)
    ensures p.Proceed? ==> p.caller.role == "ADMIN" && CallerOf(e) == Ok(p.caller) && PathId(e) == Ok(p.taskId)
  {
    match CallerOf(e)
    case Err(KeyFault(k)) => Respond(MissingField(k))
    case Err(TypeFault) => Respond(Internal("Failed to delete task"))
    case Ok(c) =>
      match PathId(e)
      case Err(KeyFault(k)) => Respond(MissingField(k))
      case Err(TypeFault) => Respond(Internal("Failed to delete task"))
      case Ok(id) =>
        if c.role != "ADMIN" then Respond(Forbidden()) else Proceed(c, id)
  }

  /** Every role other than ADMIN is refused, before the store is read; the
      gate agrees with the shared permission check for the delete action. */
  lemma OnlyAdminsDelete(e: ApiEvent)
    requires CallerOf(e).Ok? && PathId(e).Ok?
    ensures Prepare(e).Proceed? <==> CallerOf(e).value.role == "ADMIN"
    ensures Prepare(e).Respond? ==> Prepare(e).response == Forbidden()
    ensures Prepare(e).Proceed? <==>
      Utils.CheckUserPermissions(CallerOf(e).value.role, "delete", None, Some(CallerOf(e).value.userId))
  {
  }

  /** A missing authorizer field or path id is a 400 naming the key that was
      missing, whatever the caller's role. */
  lemma MissingContextIsBadRequest(e: ApiEvent)
    requires (CallerOf(e).Err? && CallerOf(e).error.KeyFault?) ||
             (CallerOf(e).Ok? && PathId(e).Err? && PathId(e).error.KeyFault?)
    ensures Prepare(e).Respond? && Prepare(e).response.statusCode == 400
    ensures CallerOf(e).Err? ==> Prepare(e).response == MissingField(CallerOf(e).error.key)
    ensures CallerOf(e).Ok? ==> Prepare(e).response == MissingField(PathId(e).error.key)
  {
  }

  function NotFound(taskId: string, tenantId: string): Response {
    Failure(404, "Task Not Found", "Task " + taskId + " not found for tenant " + tenantId)
  }

  /** The 200 answer: the path id, the caller's tenant and user, and the
      stored title and `updated_at` (empty when absent). */
  function Deleted(c: Caller, taskId: string, existing: Record): Response {
    Success(200, DeletedBody("Task deleted successfully", taskId, c.tenantId,
                             Get(existing, "title", Str("")), c.userId, Get(existing, "updated_at", Str(""))))
  }

  /** The handler. At most the one item under the caller's tenant and the
      path id is removed; every other item, in particular every item of
      another tenant, is kept as it was. */
  method Handle(table: Table, e: ApiEvent) returns (r: Response)
    modifies table
    ensures Prepare(e).Respond? ==> r == Prepare(e).response && table.items == old(table.items)
    ensures Prepare(e).Proceed? ==>
      var c, id := Prepare(e).caller, Prepare(e).taskId;
      var k := Key(TenantPk(c.tenantId), TaskSk(id));
      && (k !in old(table.items) ==> r == NotFound(id, c.tenantId) && table.items == old(table.items))
      && (k in old(table.items) ==> r == Deleted(c, id, old(table.items)[k]) && table.items == old(table.items) - {k})
    ensures r.statusCode == 200 <==> table.items != old(table.items)
    ensures Partitioned(old(table.items)) ==> Partitioned(table.items)
  {
    var plan := Prepare(e);
    if plan.Respond? {
      return plan.response;
    }
    var c, taskId := plan.caller, plan.taskId;
    var k := Key(TenantPk(c.tenantId), TaskSk(taskId));
    var existing := table.Get(k);
    if existing.None? {
      return NotFound(taskId, c.tenantId);
    }
    table.DeleteItem(k);
    assert k !in table.items;
    r := Deleted(c, taskId, existing.value);
  }
}
