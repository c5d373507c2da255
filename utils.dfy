/** The shared helpers of the task service: response formatting, field
    validation, tenant-context extraction, response sanitising and the
    role/action permission matrix. */
module Utils {
  import opened Values
  import opened Api

  // ---------------------------------------------------------------- responses

  /** A gateway response whose body is still the unserialised object. */
  datatype ApiResponse = ApiResponse(statusCode: int, headers: map<string, string>, body: Value)

  const DefaultHeaders: map<string, string> := map[
    "Content-Type" := "application/json",
    "Access-Control-Allow-Origin" := "*",
    "Access-Control-Allow-Headers" := "Content-Type,Authorization",
    "Access-Control-Allow-Methods" := "GET,POST,PUT,DELETE,OPTIONS"]

  /** `generate_response`: the CORS defaults, updated with the caller's
      headers. A caller header wins over a default of the same name; every
      default the caller does not mention is kept. */
  function GenerateResponse(statusCode: int, body: Record, headers: Option<map<string, string>>): (r: ApiResponse)
    ensures r.statusCode == statusCode && r.body == Obj(body)
    ensures headers.None? ==> r.headers == DefaultHeaders
    ensures headers.Some? ==> r.headers.Keys == DefaultHeaders.Keys + headers.value.Keys
    ensures headers.Some? ==> forall h :: h in headers.value ==> r.headers[h] == headers.value[h]
    ensures forall h :: h in DefaultHeaders && (headers.None? || h !in headers.value) ==>
      h in r.headers && r.headers[h] == DefaultHeaders[h]
  {
    var merged := if headers.Some? && headers.value != map[] then DefaultHeaders + headers.value else DefaultHeaders;
    ApiResponse(statusCode, merged, Obj(body))
  }

  /** `generate_error_response`; `now` is the ISO timestamp the helper reads
      from the clock, `Z` included. `details` is attached only when it is a
      non-empty object. */
  function GenerateErrorResponse(statusCode: int, errorType: string, message: string,
                                 details: Option<Record>, now: string): (r: ApiResponse)
    ensures r.statusCode == statusCode && r.headers == DefaultHeaders && r.body.Obj?
    ensures r.body.fields.Keys ==
      {"error", "message", "timestamp"} + (if details.Some? && details.value != map[] then {"details"} else {})
    ensures r.body.fields["error"] == Str(errorType) && r.body.fields["message"] == Str(message)
    ensures r.body.fields["timestamp"] == Str(now)
    ensures details.Some? && details.value != map[] ==> r.body.fields["details"] == Obj(details.value)
  {
    var errorBody := map["error" := Str(errorType), "message" := Str(message), "timestamp" := Str(now)];
    var full := if details.Some? && details.value != map[] then errorBody["details" := Obj(details.value)] else errorBody;
    GenerateResponse(statusCode, full, None)
  }

  // --------------------------------------------------------- required fields

  /** A field counts as given when it is present, not None and not ''. */
  predicate Present(data: Record, field: string) {
    field in data && data[field] != Null && data[field] != Str("")
  }

  /** The fields of `fields` that are not given, in their order. */
  function MissingFields(data: Record, fields: seq<string>): seq<string> {
    if fields == [] then []
    else
      var last := fields[|fields| - 1];
      MissingFields(data, fields[..|fields| - 1]) + (if Present(data, last) then [] else [last])
  }

  /** The message `validate_required_fields` returns, if any. */
  function RequiredFieldsError(data: Record, fields: seq<string>): Option<string> {
    var missing := MissingFields(data, fields);
    if missing == [] then None else Some("Missing required fields: " + Join(missing, ", "))
  }

  /** Exactly the fields that are not given are reported, each as often as it
      occurs in `fields`, in the order of `fields`. */
  lemma {:induction false} MissingFieldsExact(data: Record, fields: seq<string>)
    ensures forall f :: f in MissingFields(data, fields) <==> f in fields && !Present(data, f)
    ensures |MissingFields(data, fields)| <= |fields|
    ensures MissingFields(data, fields) == [] <==> forall f :: f in fields ==> Present(data, f)
    decreases |fields|
  {
    if fields != [] {
      var init := fields[..|fields| - 1];
      MissingFieldsExact(data, init);
      assert fields == init + [fields[|fields| - 1]];
    }
  }

  /** Reporting is order-preserving: the missing fields of a concatenation are
      the missing fields of each part, one after the other. */
  lemma {:induction false} MissingFieldsAppend(data: Record, xs: seq<string>, ys: seq<string>)
    ensures MissingFields(data, xs + ys) == MissingFields(data, xs) + MissingFields(data, ys)
    decreases |ys|
  {
    if ys == [] {
      assert xs + ys == xs;
    } else {
      var init := ys[..|ys| - 1];
      MissingFieldsAppend(data, xs, init);
      assert (xs + ys)[..|xs + ys| - 1] == xs + init;
    }
  }

  /** `validate_required_fields`: walks the fields, collecting those not
      given, and reports them all in one message. */
  method ValidateRequiredFields(data: Record, fields: seq<string>) returns (error: Option<string>)
    ensures error == RequiredFieldsError(data, fields)
    ensures error.None? <==> forall f :: f in fields ==> Present(data, f)
    ensures error.Some? ==> error.value == "Missing required fields: " + Join(MissingFields(data, fields), ", ")
  {
    var missing: seq<string> := [];
    var i := 0;
    while i < |fields|
      invariant 0 <= i <= |fields|
      invariant missing == MissingFields(data, fields[..i])
    {
      assert fields[..i + 1][..i] == fields[..i];
      if !Present(data, fields[i]) {
        missing := missing + [fields[i]];
      }
      i := i + 1;
    }
    assert fields[..i] == fields;
    MissingFieldsExact(data, fields);
    if missing != [] {
      error := Some("Missing required fields: " + Join(missing, ", "));
    } else {
      error := None;
    }
  }

  // ---------------------------------------------------------- task validation

  /** The outcome of `validate_task_data`: no error, an error message, or the
      TypeError `len` raises on a title or description that is a number, a
      boolean or null. */
  datatype Check = Accepted | Rejected(message: string) | LenTypeError

  const ValidStatuses: seq<string> := ["OPEN", "IN_PROGRESS", "DONE", "CANCELLED"]
  const ValidPriorities: seq<string> := ["LOW", "MEDIUM", "HIGH", "URGENT"]
  const TitleTooLong: string := "Title cannot exceed 200 characters"
  const DescriptionTooLong: string := "Description cannot exceed 1000 characters"

  function StatusMessage(): string { "Status must be one of: " + Join(ValidStatuses, ", ") }
  function PriorityMessage(): string { "Priority must be one of: " + Join(ValidPriorities, ", ") }

  /** `x in valid_values` for a JSON value and a list of strings. */
  predicate OneOf(v: Value, valid: seq<string>) {
    v.Str? && v.s in valid
  }

  /** `validate_task_data`: required title, then title length, description
      length, status and priority, the first failure winning. */
  function ValidateTaskData(data: Record): Check {
    match RequiredFieldsError(data, ["title"])
    case Some(message) => Rejected(message)
    case None =>
      match Len(Get(data, "title", Str("")))
      case None => LenTypeError
      case Some(titleLen) =>
        if titleLen > 200 then Rejected(TitleTooLong)
        else
          match Len(Get(data, "description", Str("")))
          case None => LenTypeError
          case Some(descriptionLen) =>
            if descriptionLen > 1000 then Rejected(DescriptionTooLong)
            else if !OneOf(Get(data, "status", Str("OPEN")), ValidStatuses) then Rejected(StatusMessage())
            else if !OneOf(Get(data, "priority", Str("MEDIUM")), ValidPriorities) then Rejected(PriorityMessage())
            else Accepted
  }

  /** A missing, null or empty title is reported before anything else is
      looked at. */
  lemma TitleCheckedFirst(data: Record)
    requires !Present(data, "title")
    ensures ValidateTaskData(data) == Rejected("Missing required fields: title")
  {
    assert ["title"][..0] == [];
    assert MissingFields(data, ["title"]) == ["title"];
  }

  /** The title limit is inclusive: 200 characters pass, and any title
      longer than 200 characters is rejected, whatever else the record holds. */
  lemma TitleLengthBoundary(title: string, data: Record)
    ensures |title| == 200 ==> ValidateTaskData(map["title" := Str(title)]) == Accepted
    ensures Present(data, "title") && Len(data["title"]).Some? && Len(data["title"]).value > 200 ==>
      ValidateTaskData(data) == Rejected(TitleTooLong)
  {
    if |title| == 200 {
      assert MissingFields(map["title" := Str(title)], ["title"]) == [] by {
        assert ["title"][..0] == [];
      }
    }
    if Present(data, "title") {
      assert MissingFields(data, ["title"]) == [] by {
        assert ["title"][..0] == [];
      }
    }
  }

  /** A description longer than 1000 characters is rejected whenever the
      title passes. */
  lemma DescriptionTooLongRejected(data: Record)
    requires Present(data, "title") && Len(data["title"]).Some? && Len(data["title"]).value <= 200
    requires "description" in data && Len(data["description"]).Some? && Len(data["description"]).value > 1000
    ensures ValidateTaskData(data) == Rejected(DescriptionTooLong)
  {
    assert MissingFields(data, ["title"]) == [] by {
      assert ["title"][..0] == [];
    }
  }

  /** With a valid title and an absent or valid description, an absent status counts as OPEN and
      passes; an absent priority counts as MEDIUM and passes; any other status
      or priority outside the enumerations is rejected. */
  lemma StatusAndPriorityRules(data: Record)
    requires Present(data, "title") && Len(data["title"]).Some? && Len(data["title"]).value <= 200
    requires "description" !in data || (Len(data["description"]).Some? && Len(data["description"]).value <= 1000)
    ensures "status" in data && !OneOf(data["status"], ValidStatuses) ==>
      ValidateTaskData(data) == Rejected(StatusMessage())
    ensures ("status" !in data || OneOf(data["status"], ValidStatuses)) &&
            "priority" in data && !OneOf(data["priority"], ValidPriorities) ==>
      ValidateTaskData(data) == Rejected(PriorityMessage())
    ensures ("status" !in data || OneOf(data["status"], ValidStatuses)) &&
            ("priority" !in data || OneOf(data["priority"], ValidPriorities)) ==>
      ValidateTaskData(data) == Accepted
  {
    assert MissingFields(data, ["title"]) == [] by {
      assert ["title"][..0] == [];
    }
  }

  // ------------------------------------------------------------ tenant context

  /** The claims the authorizer forwarded, as `extract_tenant_context` returns them. */
  datatype TenantContext = TenantContext(tenantId: string, userId: string, role: string, email: string)

  /** How `extract_tenant_context` ends when it does not return: the
      ValueError it raises for a missing key, or the TypeError it lets escape
      when the request context or the authorizer is null. */
  datatype ContextError = ValueError(message: string) | UncaughtTypeError

  /** `extract_tenant_context` of the shared helpers. */
  function ExtractTenantContext(e: ApiEvent): (r: Result<TenantContext, ContextError>)
    ensures r.Ok? <==> CallerOf(e).Ok?
    ensures r.Ok? ==>
      var a := AuthorizerOf(e).value;
      && r.value.tenantId == a["tenant_id"] && r.value.userId == a["user_id"] && r.value.role == a["role"]
      && r.value.email == (if "email" in a then a["email"] else "")
    ensures CallerOf(e).Err? && CallerOf(e).error.KeyFault? ==>
      r == Err(ValueError("Missing authorization context: " + Repr(CallerOf(e).error.key)))
  {
    match CallerOf(e)
    case Err(KeyFault(k)) => Err(ValueError("Missing authorization context: " + Repr(k)))
    case Err(TypeFault) => Err(UncaughtTypeError)
    case Ok(c) =>
      var a := AuthorizerOf(e).value;
      Ok(TenantContext(c.tenantId, c.userId, c.role, if "email" in a then a["email"] else ""))
  }

  // ------------------------------------------------------------ sanitising

  /** The default a public field takes when the stored item lacks it. */
  function PublicDefault(field: string): Value {
    if field in {"description", "assigned_to", "created_by"} then Str("")
    else if field == "priority" then Str("MEDIUM")
    else Null
  }

  /** `sanitize_task_for_response`: exactly the ten public fields, each copied
      from the item or, when absent, defaulted; never a key attribute or the
      discriminator. */
  function SanitizeTaskForResponse(item: Record): (r: Record)
    ensures r.Keys == PublicTaskFields
    ensures r.Keys !! InternalFields
    ensures forall f :: f in r ==> r[f] == Get(item, f, PublicDefault(f))
  {
    map f | f in PublicTaskFields :: Get(item, f, PublicDefault(f))
  }

  // ------------------------------------------------------------ permissions

  /** `check_user_permissions`. `owner` and `current` are the optional
      resource owner and current user (None when not passed). */
  function CheckUserPermissions(role: string, action: string, owner: Option<string>, current: Option<string>): bool {
    if role == "ADMIN" then true
    else if role == "MEMBER" then
      if action in ["create", "read"] then true
      else if action in ["update"] && owner == current then true
      else false
    else false
  }

  /** The permission matrix, total over roles and actions: ADMIN may do
      everything; MEMBER may create and read, update only what it owns, and
      never delete; every other role may do nothing. */
  lemma PermissionMatrix(role: string, action: string, owner: Option<string>, current: Option<string>)
    ensures role == "ADMIN" ==> CheckUserPermissions(role, action, owner, current)
    ensures role == "MEMBER" && (action == "create" || action == "read") ==>
      CheckUserPermissions(role, action, owner, current)
    ensures role == "MEMBER" && action == "update" ==>
      (CheckUserPermissions(role, action, owner, current) <==> owner == current)
    ensures role == "MEMBER" && action == "delete" ==> !CheckUserPermissions(role, action, owner, current)
    ensures role == "MEMBER" && action !in {"create", "read", "update"} ==>
      !CheckUserPermissions(role, action, owner, current)
    ensures role != "ADMIN" && role != "MEMBER" ==> !CheckUserPermissions(role, action, owner, current)
  {
  }
}
