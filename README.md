# Multi-tenant task service — a Dafny model

This project models the core of a serverless, multi-tenant task-management API.
All tenants share one key-value table. Every record a tenant owns sits in the
partition `TENANT#<tenant>`. Task rows have the sort key `TASK#<id>`. A sparse
secondary index `GSI1` orders each tenant's tasks by `STATUS#<status>#<time>`.

The model covers:

- the shared helpers: responses, field validation, tenant context, sanitising,
  and the role/action permission matrix;
- the four task handlers: create, update, delete and list;
- the `Task Created` event handler, which fans each new task out to analytics,
  metrics, notification and audit records, and to an archive bucket;
- the JWT authorizer, which turns a bearer token into an IAM policy that carries
  the tenant context.

Modules follow the source layout:

- `values.dfy`: JSON values and the Python operations the handlers rely on
  (truthiness, `len`, `in`, `str`, `int`, `str.replace`, slicing).
- `ordering.dfy`: the descending key order of a query.
- `keys.dfy`: the key builders.
- `store.dfy`: the table, the bucket and the event bus, as classes with mutable
  fields. It also holds the ghost specification of one query page (`IsPage`)
  and the tenant-partitioning invariant (`Partitioned`).
- `api.dfy`: gateway events and responses.
- `utils.dfy`: the shared helpers.
- One file per handler.

Each handler is a method that changes the store objects. Its `ensures` ties the
response and the new state to pure functions of the request and the old state.
The lemmas then prove what the service promises about those functions:

- a handler writes only under the caller's tenant;
- the fan-out never touches task rows;
- a listing page is the unique highest-first page of the tenant's rows, and its
  last key continues it without gaps;
- only administrators delete.

Python exceptions are data. `Fault` is a `KeyError` or another exception, and
each handler maps it to 400 or 500 as its `except` branches do.

Outside inputs are parameters of the model:

- the generated task id;
- the clock reading;
- whether a table, bucket or bus call raises, and whether the bus accepts an entry;
- the decoding of a `last_key` parameter;
- the key set, header decoder and signature check of the authorizer.

To verify: `dafny verify *.dfy` with Dafny 4.11.

## Model

| member | source | states |
|---|---|---|
| Values.Take | events/task_created_handler.py:234 | `s[:n]` has length min(\|s\|, n) and is a prefix of `s` |
| Values.ReplaceAbsent | services/auth/authorizer.py:147 | `replace` leaves a string without the searched text unchanged |
| Values.ParseRenderedInt | services/tasks/list_tasks.py:45 | the model's `int()` agrees with its `str()`: parsing the rendering of any integer gives that integer back |
| Values.ReprOfPlain | services/tasks/delete_task.py:107-116 | a key of printable ASCII characters without quote or backslash appears in a `KeyError` message between single quotes, unchanged |
| Values.ReprSwitchesQuote | services/tasks/list_tasks.py:127-136 | every string holding a single quote and no double quote, and otherwise only plain characters, is printed between double quotes with its single quotes unescaped |
| Keys.TenantPkInjective | services/tasks/create_task.py:72-75 | distinct tenants get distinct partition keys |
| Keys.TaskSkInjective | services/tasks/create_task.py:72-75 | distinct task ids get distinct task sort keys |
| Keys.FanOutKeysAreNotTaskKeys | events/task_created_handler.py:114-229 | analytics, metrics, notification and audit sort keys never start with `TASK#`, so they never collide with a task row |
| Keys.IndexPartitionsDisjoint | events/task_created_handler.py:114-229 | the `ANALYTICS#` and `AUDIT#` index partitions never equal a tenant's `TENANT#` index partition |
| Keys.ArchiveKeyShape | events/task_created_handler.py:234 | the archive key lies under `audit-logs/<tenant>/`, its next seven characters are the year-month of `created_at`, and its length is fixed by the tenant and the task id |
| Store.Placed | services/tasks/list_tasks.py:55-77 | an item's place in the queried index keeps the item's own table key |
| Store.NextPageContinues | services/tasks/list_tasks.py:101-107 | querying again from the returned last key yields only entries strictly after the first page, and every candidate of the first query is either on the first page or a candidate of the second |
| Store.PageUnique | services/tasks/list_tasks.py:79 | a query page and its last key are determined by the store, the condition, the start key and the limit |
| Store.IsPage | services/tasks/list_tasks.py:79 | definition of one descending query page; its properties are stated by `Store.Table.Query`, `Store.PageUnique` and `Store.NextPageContinues` |
| Store.MergeKeepsPartitioned | services/tasks/update_task.py:103-113 | an update that names no key attribute and no `GSI1PK` keeps every record in its tenant's partition |
| Store.PutKeepsPartitioned | services/tasks/create_task.py:90 | storing an item whose tenant index key matches its partition keeps the store partitioned |
| Store.Partitioned | services/tasks/create_task.py:71-80 | definition of the tenant-partitioning invariant; it is preserved by `Store.PutKeepsPartitioned`, `Store.MergeKeepsPartitioned` and each handler's `ensures` |
| Store.Table.PutItem | services/tasks/create_task.py:90 | the item replaces whatever was stored under its key; nothing else changes |
| Store.Table.DeleteItem | services/tasks/delete_task.py:79-84 | exactly the given key is removed |
| Store.Table.UpdateItem | services/tasks/update_task.py:103-113 | the stored item, or a fresh item holding only the key, is overlaid with the updates; the merged item is returned (`ALL_NEW`) |
| Store.Table.Query | services/tasks/list_tasks.py:79 | the page holds the highest-placed matching items after the start key, in descending order, at most `limit` of them; a last key is returned exactly when the page is full |
| Store.Bucket.PutObject | events/task_created_handler.py:236-242 | the object is stored under its key, replacing any previous one |
| Store.EventBus.PutEvent | services/tasks/create_task.py:103-112 | an accepted entry is appended and reported with failed-entry count 0; a rejected entry is not logged and is reported with count 1, without raising |
| Api.CallerOf | services/tasks/create_task.py:47-50 | tenant, user and role come from the authorizer context; a failed lookup names one of the five keys read |
| Api.StoredTaskView | services/tasks/update_task.py:118-129 | the view holds exactly the ten public fields and no internal attribute; it exists iff the six fields read with `[...]` are stored; each stored field is copied unchanged; an absent `description`, `assigned_to` or `created_by` is empty and an absent `priority` is `MEDIUM`; a failure names a key the item lacks |
| Utils.GenerateResponse | services/common/utils.py:15-36 | the default CORS headers are kept unless the caller overrides one; caller headers win; the body is the given object |
| Utils.GenerateErrorResponse | services/common/utils.py:39-56 | the body has `error`, `message` and `timestamp`, plus `details` exactly when details are non-empty, holding the given details object |
| Utils.MissingFieldsExact | services/common/utils.py:59-71 | a field is reported iff it is required and is absent, null or empty; nothing is reported iff all are given |
| Utils.MissingFieldsAppend | services/common/utils.py:59-71 | reporting preserves the order of the required fields |
| Utils.ValidateRequiredFields | services/common/utils.py:59-71 | no error iff every required field is given; otherwise the message lists exactly the missing fields in order |
| Utils.ValidateTaskData | services/common/utils.py:74-106 | definition of the task-field validation; its properties are stated by `Utils.TitleCheckedFirst`, `Utils.TitleLengthBoundary`, `Utils.DescriptionTooLongRejected` and `Utils.StatusAndPriorityRules` |
| Utils.TitleCheckedFirst | services/common/utils.py:78-81 | a missing, null or empty title is rejected before any other check |
| Utils.TitleLengthBoundary | services/common/utils.py:84-86 | a 200-character title passes on its own; any title longer than 200 characters is rejected as too long, whatever else the record holds |
| Utils.DescriptionTooLongRejected | services/common/utils.py:89-91 | a description longer than 1000 characters is rejected when the title passes |
| Utils.StatusAndPriorityRules | services/common/utils.py:94-103 | with a valid title and an absent or valid description, an absent status counts as OPEN and an absent priority as MEDIUM; a value outside either enumeration is rejected, status first |
| Utils.ExtractTenantContext | services/common/utils.py:108-120 | the context is returned iff the authorizer holds tenant, user and role, with the email defaulting to empty; a missing key gives `ValueError` naming it |
| Utils.SanitizeTaskForResponse | services/common/utils.py:133-147 | exactly the ten public fields, each copied or defaulted, with no internal attribute |
| Utils.PermissionMatrix | services/common/utils.py:150-171 | ADMIN may do everything; MEMBER may create and read, may update iff it owns the task, and may never delete; any other role may do nothing |
| Utils.CheckUserPermissions | services/common/utils.py:150-171 | definition of the permission check; its properties are stated by `Utils.PermissionMatrix`, `DeleteTask.OnlyAdminsDelete` and `UpdateTask.MayUpdateVersusPermissionCheck` |
| CreateTask.Prepare | services/tasks/create_task.py:47-64 | a task is inserted iff the caller is complete and the body parses to an object with a truthy title, and then with that object as its fields |
| CreateTask.FalsyTitleIsBadRequest | services/tasks/create_task.py:56-64 | a missing or falsy title is a 400 `Title is required` |
| CreateTask.NewTaskItemShape | services/tasks/create_task.py:71-87 | the item is keyed by the caller's tenant and the new id, is indexed by status and time, carries the documented defaults, has one timestamp for creation and update, and has the `TASK` discriminator |
| CreateTask.NewTaskItem | services/tasks/create_task.py:71-87 | definition of the stored task item; its properties are stated by `CreateTask.NewTaskItemShape`, `CreateTask.CreatedViewIsItemWithoutInternals` and `CreateTask.EventDetailMatchesItem` |
| CreateTask.ViewDropsInternals | services/tasks/create_task.py:117-137 | keeping the public fields of a full task item is removing its internal ones |
| CreateTask.CreatedViewIsItemWithoutInternals | services/tasks/create_task.py:117-137 | the 201 body is the stored item minus the key attributes and the discriminator |
| CreateTask.EventDetailMatchesItem | services/tasks/create_task.py:95-101 | the event detail has exactly five fields, each equal to the stored attribute of the same name |
| CreateTask.Handle | services/tasks/create_task.py:44-169 | on success exactly one item is stored under the caller's tenant and one event is handed to the bus; a failed put writes nothing; a raising publish keeps the item and answers 500; an entry the bus rejects without raising still gives 201 with no event logged; 201 iff the put succeeds and the publish does not raise; the store stays partitioned |
| UpdateTask.SetClausesErrorPersists | services/tasks/update_task.py:92-95 | once reading the body raises, the loop's outcome is that exception |
| UpdateTask.SetClausesKeys | services/tasks/update_task.py:84-95 | the collected attributes are `updated_at` and visited fields only, with `updated_at` set to the new timestamp |
| UpdateTask.SetClausesOfObject | services/tasks/update_task.py:84-95 | for an object body, exactly the visited fields present in the body are set, to the body's values |
| UpdateTask.UpdatesOfObject | services/tasks/update_task.py:84-100 | an object body sets exactly its updatable fields with their values, plus `updated_at`; `GSI1SK` is rebuilt iff the status is given, from the new status and timestamp |
| UpdateTask.Updates | services/tasks/update_task.py:84-100 | definition of the attributes an update sets; its properties are stated by `UpdateTask.UpdatesOfObject`, `UpdateTask.UpdatesKeys` and `UpdateTask.MergeKeepsFixedAttributes` |
| UpdateTask.Prepare | services/tasks/update_task.py:37-48 | the handler goes on to the store lookup iff the caller is complete, the path id is present and the body parses, carrying exactly those three; the failures are stated by `UpdateTask.MissingContextIsBadRequest` |
| UpdateTask.UpdatesKeys | services/tasks/update_task.py:84-100 | an update never names an attribute outside the updatable fields, `updated_at` and `GSI1SK` |
| UpdateTask.MergeKeepsFixedAttributes | services/tasks/update_task.py:103-113 | key attributes, tenant, id, creator, creation time and discriminator survive the update unchanged |
| UpdateTask.MayUpdateVersusPermissionCheck | services/tasks/update_task.py:73-81 | the handler's gate agrees with the permission matrix for ADMIN and MEMBER, and lets any other role through although the matrix refuses it |
| UpdateTask.MissingContextIsBadRequest | services/tasks/update_task.py:140-149 | a missing authorizer field or path id is a 400 |
| UpdateTask.CollectUpdates | services/tasks/update_task.py:84-100 | the loop computes the update specified by `Updates` |
| UpdateTask.Handle | services/tasks/update_task.py:45-138 | a missing task is 404 and a foreign task of a MEMBER is 403, both without a write; a body that raises writes nothing; otherwise the stored task is merged with the update and its view returned; the store stays partitioned |
| DeleteTask.Prepare | services/tasks/delete_task.py:37-56 | deletion proceeds only for an ADMIN caller with a path id |
| DeleteTask.OnlyAdminsDelete | services/tasks/delete_task.py:48-56 | deletion proceeds iff the role is ADMIN, which is exactly the permission matrix's `delete` rule; other roles get 403 |
| DeleteTask.MissingContextIsBadRequest | services/tasks/delete_task.py:107-116 | a missing authorizer field or path id is a 400 naming the missing key, before the role is looked at |
| DeleteTask.Handle | services/tasks/delete_task.py:43-105 | at most the caller's task under the path id is removed; 404 and early answers write nothing; 200 iff the store changed; the store stays partitioned |
| DeleteTask.Deleted | services/tasks/delete_task.py:89-105 | definition of the 200 answer; `DeleteTask.Handle` states when it is given and for which stored item |
| ListTasks.Condition | services/tasks/list_tasks.py:55-77 | a non-empty status filter queries the tenant's status index, anything else the tenant's `TASK#` rows |
| ListTasks.Prepare | services/tasks/list_tasks.py:37-68 | a query runs iff the caller is complete, the limit is absent or an integer of at least 1, and `last_key` is not a key the store refuses; it runs with 1 ≤ limit ≤ 100 for the caller's tenant; an incomplete caller is a 500; an absent, empty or non-JSON `last_key` is ignored, a decoded one is the start key, and one the store refuses never reaches a query |
| ListTasks.LimitRules | services/tasks/list_tasks.py:45-50 | with an accepted cursor, an absent limit runs the query with 50 and an integer of at least 1 runs it capped at 100; a non-integer is a 400 and a limit below 1 a 500 |
| ListTasks.ListedTasksErrorPersists | services/tasks/list_tasks.py:82-98 | once a task item lacks a required attribute, the listing fails |
| ListTasks.ListedTasksMeaning | services/tasks/list_tasks.py:82-98 | the listing fails iff some task item lacks a required attribute; otherwise every listed task is the view of a task item of the page, every task item's view is listed, and the listing is no longer than the page |
| ListTasks.TaskIndices | services/tasks/list_tasks.py:82-84 | the positions of the page's task items: each names a task item, they increase strictly, and every task item's position is among them |
| ListTasks.ListedIndices | services/tasks/list_tasks.py:82-98 | a successful listing holds exactly one view per task item, in page order, so the query's descending order reaches the response |
| ListTasks.ListedTasks | services/tasks/list_tasks.py:82-98 | definition of the loop's listing; its properties are stated by `ListTasks.ListedTasksMeaning`, `ListTasks.ListedIndices` and `ListTasks.ListedTasksErrorPersists` |
| ListTasks.CollectTasks | services/tasks/list_tasks.py:82-98 | the loop computes the listing specified by `ListedTasks` |
| ListTasks.Handle | services/tasks/list_tasks.py:37-125 | the answer is the listing of the unique query page for the prepared condition, start key and limit |
| ListTasks.AnswerBounds | services/tasks/list_tasks.py:101-125 | count equals the number of tasks and is at most the limit; `has_more` iff the page is full; tenant and filter are echoed |
| ListTasks.PageStaysInTenant | services/tasks/list_tasks.py:55-77 | in a partitioned store, every listed entry belongs to the caller's tenant |
| ListTasks.UnfilteredPageHoldsTaskRows | services/tasks/list_tasks.py:55-60 | without a status filter, only `TASK#` rows are read |
| ListTasks.FilteredPageHoldsStatusRows | services/tasks/list_tasks.py:71-77 | with a non-empty status filter, every listed item is indexed under the caller's tenant with an index sort key starting `STATUS#<status>#` |
| TaskCreatedHandler.Selected | events/task_created_handler.py:59-60 | a record is selected iff it is one of the records and its `source` is `saas.tasks` |
| TaskCreatedHandler.RunAbortPersists | events/task_created_handler.py:97-103 | once a record raises, the run ends with that outcome |
| TaskCreatedHandler.Run | events/task_created_handler.py:59-95 | definition of the loop over the records; its properties are stated by `TaskCreatedHandler.RunCompletesExactly`, `TaskCreatedHandler.RunResultsFollowSelected`, `TaskCreatedHandler.RunAbortedBound` and `TaskCreatedHandler.RunKeepsTaskRows` |
| TaskCreatedHandler.RunCompletesExactly | events/task_created_handler.py:59-95 | the run completes iff every record is an object and every selected record's detail is an object |
| TaskCreatedHandler.RunResultsFollowSelected | events/task_created_handler.py:59-95 | a completed run has one result per selected record, in order, naming that record's task and tenant |
| TaskCreatedHandler.RunAbortedBound | events/task_created_handler.py:59-95 | an aborted run reports at most as many processed records as were selected |
| TaskCreatedHandler.AnalyticsItemShape | events/task_created_handler.py:114-125 | the analytics record sits in the tenant's partition, is indexed under `ANALYTICS#`, and is not a task row |
| TaskCreatedHandler.MetricsItemShape | events/task_created_handler.py:130-140 | the metrics record sits in the tenant's partition with both counters at 1 and is not a task row |
| TaskCreatedHandler.NotificationItemShape | events/task_created_handler.py:173-184 | the notification record sits in the tenant's partition, is SENT on email and slack, and is not a task row |
| TaskCreatedHandler.AuditItemShape | events/task_created_handler.py:213-229 | the audit record sits in the tenant's partition, is indexed under `AUDIT#`, and is not a task row |
| TaskCreatedHandler.PutFanOutItemKeeps | events/task_created_handler.py:127 | writing a non-task record that fits its partition keeps task rows and partitioning |
| TaskCreatedHandler.AnalyticsStepKeeps | events/task_created_handler.py:106-155 | the analytics step never changes a task row and keeps the store partitioned |
| TaskCreatedHandler.NotificationStepKeeps | events/task_created_handler.py:158-201 | the notification step never changes a task row and keeps the store partitioned |
| TaskCreatedHandler.AuditStepKeeps | events/task_created_handler.py:204-257 | the audit step never changes a task row and keeps the store partitioned |
| TaskCreatedHandler.AnalyticsStep | events/task_created_handler.py:106-155 | definition of the analytics step; its properties are stated by `TaskCreatedHandler.AnalyticsStepKeeps`, `TaskCreatedHandler.MetricsOverwritten` and `TaskCreatedHandler.StepResultsIndependent` |
| TaskCreatedHandler.NotificationStep | events/task_created_handler.py:158-201 | definition of the notification step; its properties are stated by `TaskCreatedHandler.NotificationStepKeeps` and `TaskCreatedHandler.StepResultsIndependent` |
| TaskCreatedHandler.AuditStep | events/task_created_handler.py:204-257 | definition of the audit step; its properties are stated by `TaskCreatedHandler.AuditStepKeeps` and `TaskCreatedHandler.AuditRecordOutlivesArchive` |
| TaskCreatedHandler.RunKeepsTaskRows | events/task_created_handler.py:59-87 | the whole fan-out never changes a task row and keeps the store partitioned |
| TaskCreatedHandler.StepResultsIndependent | events/task_created_handler.py:73-80 | each step's result depends on the detail and the outside failures, never on what earlier steps wrote |
| TaskCreatedHandler.MetricsOverwritten | events/task_created_handler.py:130-140 | after a successful analytics step the tenant's metrics record is freshly written with counters 1, whatever was stored |
| TaskCreatedHandler.AuditRecordOutlivesArchive | events/task_created_handler.py:231-242 | the audit record is stored even when archiving fails; success iff `created_at` can be sliced and the archive put succeeds, and then the archive holds the audit record under the returned key, which for a string `created_at` is `audit-logs/<tenant>/<created_at[:7]>/<task>.json` |
| TaskCreatedHandler.ProcessAnalytics | events/task_created_handler.py:106-155 | the method performs the analytics step specified by `AnalyticsStep` |
| TaskCreatedHandler.SendNotifications | events/task_created_handler.py:158-201 | the method performs the notification step specified by `NotificationStep` |
| TaskCreatedHandler.CreateAuditLog | events/task_created_handler.py:204-257 | the method performs the audit step specified by `AuditStep` |
| TaskCreatedHandler.Handle | events/task_created_handler.py:29-103 | a `Records` value that cannot be iterated aborts before any write; otherwise the outcome and the new table and bucket are those of `Run` |
| Authorizer.FirstMatchingKeyMeaning | services/auth/authorizer.py:38-46 | the key found is the first whose `kid` equals the header's; nothing is found iff every key has a different `kid` |
| Authorizer.FindPublicKey | services/auth/authorizer.py:38-46 | the loop computes the lookup specified by `KeyOfHeader` |
| Authorizer.TenantContext | services/auth/authorizer.py:75-103 | the context has exactly tenant, user, email and role; it fails iff the groups claim does not support `in` |
| Authorizer.RolePrecedence | services/auth/authorizer.py:84-96 | Administrators gives ADMIN, then Members gives MEMBER, otherwise `custom:role` whatever it holds; the user is `sub`, the tenant is `custom:tenant_id` defaulting to `karachi-tech`, and the email defaults to empty |
| Authorizer.GeneratePolicy | services/auth/authorizer.py:106-125 | the policy invokes the given resource with the given effect and carries the context iff it is non-empty |
| Authorizer.Handler | services/auth/authorizer.py:128-168 | the method computes the decision specified by `Authorize` |
| Authorizer.Authorize | services/auth/authorizer.py:128-167 | definition of the authorizer's decision; its properties are stated by `Authorizer.DecisionShape`, `Authorizer.VerifiedTokenAllowed`, `Authorizer.MalformedHeaderDenied` and `Authorizer.BearerPrefixStripped` |
| Authorizer.DecisionShape | services/auth/authorizer.py:128-168 | a decision is Allow or Deny on the method ARN; Deny carries no context and the `unknown` principal; Allow needs a bearer token, a key found for it and verified claims, and carries their tenant context with the user as principal |
| Authorizer.VerifiedTokenAllowed | services/auth/authorizer.py:148-158 | a `Bearer ` token whose claims verify against a published key, with a groups claim that supports `in`, is allowed on the method ARN with the context of those claims |
| Authorizer.MalformedHeaderDenied | services/auth/authorizer.py:142-144 | a missing method ARN escapes unhandled; a header without the `Bearer ` prefix is denied |
| Authorizer.BearerPrefixStripped | services/auth/authorizer.py:142-147 | `Bearer <token>` yields the token itself when the token does not contain `Bearer ` (every occurrence is removed) |

## Left out

- The JSON round trip of request and response bodies is not modelled: `json.loads` gives a parsed value or an unparsable marker, and bodies stay unserialised objects.
- DeleteTask.Handle, UpdateTask.Handle and ListTasks.Handle: the table hands numbers back as `Decimal`, which `json.dumps` cannot serialise. Create stores any truthy title, a number such as `{"title": 5}` included, so a later delete of that task answers 500 after the item is removed, an update answers 500 after its write, and every listing page holding the task answers 500. The model answers 200 in all three cases; for such a task, the delete handler's "200 iff the store changed" does not hold of the deployed program (services/tasks/create_task.py:56, 78; delete_task.py:79-95; update_task.py:137, 162; list_tasks.py:117, 138).
- Floating-point JSON numbers are not modelled.
- `str()` of an array or an object, wherever a key is built from a detail value, is a fixed placeholder rather than Python's `repr`.
- `int()` of the `limit` parameter accepts only an optional sign and ASCII digits; Python also accepts surrounding whitespace, underscores and non-ASCII digits.
- The table is a map; the 1 MB page limit and the encoding of the start key are not modelled. `last_key` decoding is a parameter that yields a position in the index, not JSON, or a key the store refuses.
- Item sizes, conditional writes and concurrent requests are not modelled; each handler runs alone.
- `generate_task_id`, `get_current_timestamp` and `datetime.utcnow` are parameters.
- Table writes can fail only in create and in the fan-out. Update, delete and list assume the store call returns.
- The error texts produced with `str(e)` are not modelled: the fan-out's failed-step messages and the 500 body of the event handler. A failure is recorded by its kind only.
- JWKS download, `lru_cache`, JWT header decoding and RSA signature verification are the oracles of `Authorizer.Oracles`. The `verify` oracle stands for `jwt.decode` with RS256: it checks the signature and the token's expiry; no issuer is passed and audience verification is switched off, so neither is checked (services/auth/authorizer.py:59-65).
- Authorizer.FirstMatchingKeyMeaning: `kid` values are compared as JSON values, so Python's `True == 1` equality across types is not reproduced.
- Logging, `log_api_request` and the unused `ValidationError` and `PermissionError` classes are not modelled.
- S3 content type and server-side encryption are not modelled; an archive object is the audit record itself.
- The event bus name is not modelled; only the source, detail type and detail of an entry are recorded.
- The fan-out selects records by a `source` field on the record itself, as the code reads it; the field is not looked up inside a nested EventBridge envelope.
- UpdateTask.Handle: an update whose body holds `status` completes in the model as the code intends, storing the new status and `GSI1SK`. The update expression names `status` directly, without `ExpressionAttributeNames`, and `status` is a reserved word of the store's expression language. The store therefore refuses such an update, and the deployed handler answers 500 without a write (services/tasks/update_task.py:90-111 and 162-171).
- Store.Table.UpdateItem: the update-expression syntax and its reserved words are not modelled; an update is a map from attribute names to values.
- ListTasks.Prepare and Api.MissingField: `repr` of a string (`Values.Repr`) escapes quotes, backslashes and ASCII control characters as Python does, but writes every non-ASCII character as itself, where Python escapes the non-printable ones.
- Infrastructure code (`infrastructure/`) and the test scripts are not part of this model.
