/** The `Task Created` event consumer: for every record from `saas.tasks` it
    writes an analytics record and overwrites the tenant's metrics record,
    writes a notification record, and writes an audit record that it also
    archives to the bucket. Each of the three steps catches its own failure
    and reports it in the result; only a record that cannot be read at all
    stops the batch. */
module TaskCreatedHandler {
  import opened Values
  import opened Keys
  import opened Store

  /** The outside inputs of one record's processing: the clock reading used
      for the notification key, and which of the five writes fail. */
  datatype Env = Env(now: string, analyticsPutFails: bool, metricsPutFails: bool,
                     notificationPutFails: bool, auditPutFails: bool, archivePutFails: bool)

  /** Why a step reported `error`: a required detail field was missing, a
      value could not be sliced, or a write failed. */
  datatype StepFault = MissingKey(key: string) | NotSliceable | WriteFailed

  /** A step's result dictionary: `success` (with the notification id or the
      archive key where the step returns one) or `error`. */
  datatype StepResult = Succeeded(reference: Option<string>) | Failed(fault: StepFault)

  /** One entry of `processed_events`. */
  datatype ProcessedEntry = ProcessedEntry(taskId: Value, tenantId: Value, analytics: StepResult,
                                           notifications: StepResult, audit: StepResult)

  /** The handler's answer: 200 with every entry, or 500 with the number of
      records processed before the exception. */
  datatype Outcome = Completed(results: seq<ProcessedEntry>) | Aborted(processed: nat)

  function StatusCode(o: Outcome): int {
    if o.Completed? then 200 else 500
  }

  /** The table and the archive bucket together. */
  datatype World = World(items: map<Key, Record>, objects: map<string, Record>)

  /** A world after a step, with the step's result. */
  datatype Effect = Effect(world: World, result: StepResult)

  function AnalyticsItem(tenant: Value, taskId: Value, createdAt: Value, createdBy: Value): Record {
    map[
      "PK" := Str(TenantPk(Render(tenant))),
      "SK" := Str(AnalyticsSk(Render(createdAt), Render(taskId))),
      "GSI1PK" := Str(AnalyticsGsiPk(Render(tenant))),
      "GSI1SK" := Str(TaskCreatedGsiSk(Render(createdAt))),
      "event_type" := Str("TASK_CREATED"),
      "task_id" := taskId,
      "tenant_id" := tenant,
      "created_by" := createdBy,
      "timestamp" := createdAt,
      "entity_type" := Str("ANALYTICS")]
  }

  /** The metrics record, written with counters of 1 whatever was stored. */
  function MetricsItem(tenant: Value, createdAt: Value): Record {
    map[
      "PK" := Str(TenantPk(Render(tenant))),
      "SK" := Str(MetricsSk),
      "total_tasks" := Int(1),
      "tasks_this_month" := Int(1),
      "last_task_created" := createdAt,
      "entity_type" := Str("METRICS")]
  }

  const Channels: Value := List([Str("email"), Str("slack")])

  function NotificationItem(tenant: Value, taskId: Value, title: Value, createdBy: Value, now: string): Record {
    map[
      "PK" := Str(TenantPk(Render(tenant))),
      "SK" := Str(NotificationSk(now, Render(taskId))),
      "notification_type" := Str("TASK_CREATED"),
      "task_id" := taskId,
      "tenant_id" := tenant,
      "title" := title,
      "created_by" := createdBy,
      "status" := Str("SENT"),
      "channels" := Channels,
      "entity_type" := Str("NOTIFICATION")]
  }

  function AuditItem(tenant: Value, taskId: Value, createdAt: Value, createdBy: Value, title: Value): Record {
    map[
      "PK" := Str(TenantPk(Render(tenant))),
      "SK" := Str(AuditSk(Render(createdAt), Render(taskId))),
      "GSI1PK" := Str(AuditGsiPk(Render(tenant))),
      "GSI1SK" := Str(TaskCreatedGsiSk(Render(createdAt))),
      "action" := Str("TASK_CREATED"),
      "resource_type" := Str("TASK"),
      "resource_id" := taskId,
      "tenant_id" := tenant,
      "user_id" := createdBy,
      "timestamp" := createdAt,
      "details" := Obj(map["task_title" := title, "event_source" := Str("task_management_api")]),
      "entity_type" := Str("AUDIT")]
  }

  /** `created_at[:7]` as the archive key's f-string renders it: a string is
      cut to seven characters, an array slice gets the container placeholder,
      and any other value cannot be sliced. */
  function MonthText(createdAt: Value): Option<string> {
    match createdAt
    case Str(s) => Some(Take(s, 7))
    case List(_) => Some(Render(createdAt))
    case _ => None
  }

  function Put(w: World, item: Record): World
    requires HasKey(item)
  {
    w.(items := w.items[KeyOf(item) := item])
  }

  /** `await_process_analytics`: `tenant_id`, `task_id` and `created_at` are
      required; the analytics record is written, then the metrics record. */
  function AnalyticsStep(w: World, d: Record, env: Env): Effect {
    if "tenant_id" !in d then Effect(w, Failed(MissingKey("tenant_id")))
    else if "task_id" !in d then Effect(w, Failed(MissingKey("task_id")))
    else if "created_at" !in d then Effect(w, Failed(MissingKey("created_at")))
    else
      var analytics := AnalyticsItem(d["tenant_id"], d["task_id"], d["created_at"], Get(d, "created_by", Null));
      if env.analyticsPutFails then Effect(w, Failed(WriteFailed))
      else
        var w1 := Put(w, analytics);
        if env.metricsPutFails then Effect(w1, Failed(WriteFailed))
        else Effect(Put(w1, MetricsItem(d["tenant_id"], d["created_at"])), Succeeded(None))
  }

  /** `await_send_notifications`: `tenant_id`, `task_id` and `title` are
      required; one notification record is written and its sort key is the
      notification id. */
  function NotificationStep(w: World, d: Record, env: Env): Effect {
    if "tenant_id" !in d then Effect(w, Failed(MissingKey("tenant_id")))
    else if "task_id" !in d then Effect(w, Failed(MissingKey("task_id")))
    else if "title" !in d then Effect(w, Failed(MissingKey("title")))
    else
      var item := NotificationItem(d["tenant_id"], d["task_id"], d["title"], Get(d, "created_by", Null), env.now);
      if env.notificationPutFails then Effect(w, Failed(WriteFailed))
      else Effect(Put(w, item), Succeeded(Some(NotificationSk(env.now, Render(d["task_id"])))))
  }

  /** `await_create_audit_log`: `tenant_id`, `task_id` and `created_at` are
      required, and `title` while the record is built; the audit record is
      written, then archived under the month of `created_at`. */
  function AuditStep(w: World, d: Record, env: Env): Effect {
    if "tenant_id" !in d then Effect(w, Failed(MissingKey("tenant_id")))
    else if "task_id" !in d then Effect(w, Failed(MissingKey("task_id")))
    else if "created_at" !in d then Effect(w, Failed(MissingKey("created_at")))
    else if "title" !in d then Effect(w, Failed(MissingKey("title")))
    else
      var item := AuditItem(d["tenant_id"], d["task_id"], d["created_at"], Get(d, "created_by", Null), d["title"]);
      if env.auditPutFails then Effect(w, Failed(WriteFailed))
      else
        var w1 := Put(w, item);
        match MonthText(d["created_at"])
        case None => Effect(w1, Failed(NotSliceable))
        case Some(month) =>
          var key := ArchiveKey(Render(d["tenant_id"]), month, Render(d["task_id"]));
          if env.archivePutFails then Effect(w1, Failed(WriteFailed))
          else Effect(w1.(objects := w1.objects[key := item]), Succeeded(Some(key)))
  }

  /** The three steps in order, each on the world the previous one left. */
  function ProcessDetail(w: World, d: Record, env: Env): (World, ProcessedEntry) {
    var a := AnalyticsStep(w, d, env);
    var n := NotificationStep(a.world, d, env);
    var u := AuditStep(n.world, d, env);
    (u.world, ProcessedEntry(Get(d, "task_id", Null), Get(d, "tenant_id", Null), a.result, n.result, u.result))
  }

  /** `event.get('Records', [])` as the loop iterates it. */
  function RecordsOf(event: Record): Option<seq<Value>> {
    ElementsForLookup(Get(event, "Records", List([])))
  }

  predicate FromTaskService(record: Value) {
    record.Obj? && Get(record.fields, "source", Null) == Str("saas.tasks")
  }

  /** `record.get('detail', {})`. */
  function DetailOf(record: Value): Value
    requires record.Obj?
  {
    Get(record.fields, "detail", Obj(map[]))
  }

  datatype Pass = Pass(world: World, outcome: Outcome)

  /** The handler's loop over the records seen so far. A record that is not
      an object, or a task-service record whose detail is not an object,
      raises and stops the batch. */
  function Run(w: World, records: seq<Value>, env: nat -> Env): Pass {
    if records == [] then Pass(w, Completed([]))
    else
      var n := |records| - 1;
      var record := records[n];
      match Run(w, records[..n], env)
      case Pass(w1, Aborted(k)) => Pass(w1, Aborted(k))
      case Pass(w1, Completed(results)) =>
        if !record.Obj? then Pass(w1, Aborted(|results|))
        else if !FromTaskService(record) then Pass(w1, Completed(results))
        else if !DetailOf(record).Obj? then Pass(w1, Aborted(|results|))
        else
          var (w2, entry) := ProcessDetail(w1, DetailOf(record).fields, env(n));
          Pass(w2, Completed(results + [entry]))
  }

  lemma {:induction false} RunAbortPersists(w: World, records: seq<Value>, env: nat -> Env, i: nat)
    requires i <= |records| && Run(w, records[..i], env).outcome.Aborted?
    ensures Run(w, records, env) == Run(w, records[..i], env)
    decreases |records| - i
  {
    if i < |records| {
      assert records[..i + 1][..i] == records[..i];
      RunAbortPersists(w, records, env, i + 1);
    } else {
      assert records[..i] == records;
    }
  }

  /** The records from `saas.tasks`, in order. */
  function Selected(records: seq<Value>): (s: seq<Value>)
    ensures forall i :: 0 <= i < |s| ==> FromTaskService(s[i])
    ensures forall x :: x in s <==> x in records && FromTaskService(x)
    ensures |s| <= |records|
  {
    if records == [] then []
    else
      var init, last := records[..|records| - 1], records[|records| - 1];
      assert records == init + [last];
      Selected(init) + (if FromTaskService(last) then [last] else [])
  }

  predicate AllObjects(records: seq<Value>) {
    forall i :: 0 <= i < |records| ==> records[i].Obj?
  }

  predicate ObjectDetails(records: seq<Value>) {
    forall i :: 0 <= i < |records| ==> records[i].Obj? && DetailOf(records[i]).Obj?
  }

  lemma ObjectsAppend(init: seq<Value>, extra: seq<Value>)
    ensures AllObjects(init + extra) <==> AllObjects(init) && AllObjects(extra)
    ensures ObjectDetails(init + extra) <==> ObjectDetails(init) && ObjectDetails(extra)
  {
    var all := init + extra;
    assert forall i :: 0 <= i < |init| ==> all[i] == init[i];
    assert forall i :: 0 <= i < |extra| ==> all[|init| + i] == extra[i];
  }

  /** The batch completes exactly when every record is an object and every
      task-service record has an object detail; every other record is
      skipped. */
  lemma {:induction false} RunCompletesExactly(w: World, records: seq<Value>, env: nat -> Env)
    ensures Run(w, records, env).outcome.Completed? <==> AllObjects(records) && ObjectDetails(Selected(records))
    decreases |records|
  {
    if records != [] {
      var n := |records| - 1;
      var init, last := records[..n], records[n];
      RunCompletesExactly(w, init, env);
      assert records == init + [last];
      ObjectsAppend(init, [last]);
      ObjectsAppend(Selected(init), if FromTaskService(last) then [last] else []);
    }
  }

  /** A completed batch has one entry per task-service record, in order,
      each with an object detail, naming that record's task and tenant. */
  lemma {:induction false} RunResultsFollowSelected(w: World, records: seq<Value>, env: nat -> Env)
    ensures Run(w, records, env).outcome.Completed? ==>
      var results := Run(w, records, env).outcome.results;
      && |results| == |Selected(records)|
      && (forall i :: 0 <= i < |results| ==> DetailOf(Selected(records)[i]).Obj?)
      && forall i :: 0 <= i < |results| ==>
           && results[i].taskId == Get(DetailOf(Selected(records)[i]).fields, "task_id", Null)
           && results[i].tenantId == Get(DetailOf(Selected(records)[i]).fields, "tenant_id", Null)
    decreases |records|
  {
    if records != [] {
      var n := |records| - 1;
      var init, last := records[..n], records[n];
      RunResultsFollowSelected(w, init, env);
      var before, now := Selected(init), Selected(records);
      assert now == before + (if FromTaskService(last) then [last] else []);
    }
  }

  /** An aborted batch reports at most as many processed records as there
      are task-service records. */
  lemma {:induction false} RunAbortedBound(w: World, records: seq<Value>, env: nat -> Env)
    ensures Run(w, records, env).outcome.Aborted? ==> Run(w, records, env).outcome.processed <= |Selected(records)|
    decreases |records|
  {
    if records != [] {
      var n := |records| - 1;
      var init := records[..n];
      RunAbortedBound(w, init, env);
      RunResultsFollowSelected(w, init, env);
    }
  }

  /** The four records the steps write: each under the tenant partition of
      the detail's `tenant_id`, with the documented sort keys, none of them a
      task row, and none filed under a tenant partition of `GSI1`. */
  lemma AnalyticsItemShape(tenant: Value, taskId: Value, createdAt: Value, createdBy: Value)
    ensures var a := AnalyticsItem(tenant, taskId, createdAt, createdBy);
      && FitsPartition(a) && KeyOf(a) == Key(TenantPk(Render(tenant)), AnalyticsSk(Render(createdAt), Render(taskId)))
      && a["GSI1PK"] == Str(AnalyticsGsiPk(Render(tenant))) && a["GSI1SK"] == Str(TaskCreatedGsiSk(Render(createdAt)))
      && !StartsWith(KeyOf(a).sk, "TASK#")
  {
    FanOutKeysAreNotTaskKeys(Render(createdAt), Render(taskId), "", "TASK#");
    assert AnalyticsGsiPk(Render(tenant))[0] == 'A';
  }

  lemma MetricsItemShape(tenant: Value, createdAt: Value)
    ensures var m := MetricsItem(tenant, createdAt);
      && FitsPartition(m) && KeyOf(m) == Key(TenantPk(Render(tenant)), MetricsSk)
      && m["total_tasks"] == Int(1) && m["tasks_this_month"] == Int(1)
      && !StartsWith(KeyOf(m).sk, "TASK#")
  {
    FanOutKeysAreNotTaskKeys("", "", "", "TASK#");
  }

  lemma NotificationItemShape(tenant: Value, taskId: Value, title: Value, createdBy: Value, now: string)
    ensures var n := NotificationItem(tenant, taskId, title, createdBy, now);
      && FitsPartition(n) && KeyOf(n) == Key(TenantPk(Render(tenant)), NotificationSk(now, Render(taskId)))
      && n["status"] == Str("SENT") && n["channels"] == List([Str("email"), Str("slack")])
      && !StartsWith(KeyOf(n).sk, "TASK#")
  {
    FanOutKeysAreNotTaskKeys("", Render(taskId), now, "TASK#");
  }

  lemma AuditItemShape(tenant: Value, taskId: Value, createdAt: Value, createdBy: Value, title: Value)
    ensures var u := AuditItem(tenant, taskId, createdAt, createdBy, title);
      && FitsPartition(u) && KeyOf(u) == Key(TenantPk(Render(tenant)), AuditSk(Render(createdAt), Render(taskId)))
      && u["GSI1PK"] == Str(AuditGsiPk(Render(tenant)))
      && !StartsWith(KeyOf(u).sk, "TASK#")
  {
    FanOutKeysAreNotTaskKeys(Render(createdAt), Render(taskId), "", "TASK#");
    assert AuditGsiPk(Render(tenant))[0] == 'A';
  }

  /** Task rows (sort key `TASK#...`) are the same in both maps. */
  ghost predicate SameTaskRows(before: map<Key, Record>, after: map<Key, Record>) {
    forall k: Key :: StartsWith(k.sk, "TASK#") ==> (k in before <==> k in after) && (k in before ==> after[k] == before[k])
  }

  /** What every step preserves: the task rows, and a partitioned store. */
  ghost predicate StepKeeps(before: World, after: World) {
    && SameTaskRows(before.items, after.items)
    && (Partitioned(before.items) ==> Partitioned(after.items))
  }

  lemma PutFanOutItemKeeps(w: World, item: Record)
    requires FitsPartition(item) && !StartsWith(KeyOf(item).sk, "TASK#")
    ensures StepKeeps(w, Put(w, item))
  {
    if Partitioned(w.items) {
      PutKeepsPartitioned(w.items, item);
    }
  }

  lemma StepKeepsTransitive(a: World, b: World, c: World)
    requires StepKeeps(a, b) && StepKeeps(b, c)
    ensures StepKeeps(a, c)
  {
  }

  /** None of the three steps touches a task row or breaks the partitioning
      of the store. */
  lemma AnalyticsStepKeeps(w: World, d: Record, env: Env)
    ensures StepKeeps(w, AnalyticsStep(w, d, env).world)
  {
    if "tenant_id" in d && "task_id" in d && "created_at" in d {
      var a := AnalyticsItem(d["tenant_id"], d["task_id"], d["created_at"], Get(d, "created_by", Null));
      var m := MetricsItem(d["tenant_id"], d["created_at"]);
      AnalyticsItemShape(d["tenant_id"], d["task_id"], d["created_at"], Get(d, "created_by", Null));
      MetricsItemShape(d["tenant_id"], d["created_at"]);
      PutFanOutItemKeeps(w, a);
      PutFanOutItemKeeps(Put(w, a), m);
      StepKeepsTransitive(w, Put(w, a), Put(Put(w, a), m));
    }
  }

  lemma NotificationStepKeeps(w: World, d: Record, env: Env)
    ensures StepKeeps(w, NotificationStep(w, d, env).world)
  {
    if "tenant_id" in d && "task_id" in d && "title" in d {
      var n := NotificationItem(d["tenant_id"], d["task_id"], d["title"], Get(d, "created_by", Null), env.now);
      NotificationItemShape(d["tenant_id"], d["task_id"], d["title"], Get(d, "created_by", Null), env.now);
      PutFanOutItemKeeps(w, n);
    }
  }

  lemma AuditStepKeeps(w: World, d: Record, env: Env)
    ensures StepKeeps(w, AuditStep(w, d, env).world)
  {
    if "tenant_id" in d && "task_id" in d && "created_at" in d && "title" in d {
      var u := AuditItem(d["tenant_id"], d["task_id"], d["created_at"], Get(d, "created_by", Null), d["title"]);
      AuditItemShape(d["tenant_id"], d["task_id"], d["created_at"], Get(d, "created_by", Null), d["title"]);
      PutFanOutItemKeeps(w, u);
    }
  }

  /** The whole batch leaves every task row as it was and keeps the store
      partitioned, whatever the records and whichever writes fail. */
  lemma {:induction false} RunKeepsTaskRows(w: World, records: seq<Value>, env: nat -> Env)
    ensures StepKeeps(w, Run(w, records, env).world)
    decreases |records|
  {
    if records != [] {
      var n := |records| - 1;
      RunKeepsTaskRows(w, records[..n], env);
      var p := Run(w, records[..n], env);
      var record := records[n];
      if p.outcome.Completed? && FromTaskService(record) && DetailOf(record).Obj? {
        var d, e := DetailOf(record).fields, env(n);
        var a := AnalyticsStep(p.world, d, e);
        var b := NotificationStep(a.world, d, e);
        AnalyticsStepKeeps(p.world, d, e);
        NotificationStepKeeps(a.world, d, e);
        AuditStepKeeps(b.world, d, e);
        StepKeepsTransitive(p.world, a.world, b.world);
        StepKeepsTransitive(p.world, b.world, AuditStep(b.world, d, e).world);
        StepKeepsTransitive(w, p.world, AuditStep(b.world, d, e).world);
      }
    }
  }

  /** Each step's result depends on the detail and the outside inputs only,
      never on the store it runs against: a failure in one step neither stops
      nor changes the outcome of the later ones. */
  lemma StepResultsIndependent(w1: World, w2: World, d: Record, env: Env)
    ensures AnalyticsStep(w1, d, env).result == AnalyticsStep(w2, d, env).result
    ensures NotificationStep(w1, d, env).result == NotificationStep(w2, d, env).result
    ensures AuditStep(w1, d, env).result == AuditStep(w2, d, env).result
  {
  }

  /** A successful analytics step leaves the metrics record at counters of 1,
      whatever was stored there before. */
  lemma MetricsOverwritten(w: World, d: Record, env: Env)
    requires AnalyticsStep(w, d, env).result.Succeeded?
    ensures "tenant_id" in d && "created_at" in d
    ensures var k := Key(TenantPk(Render(d["tenant_id"])), MetricsSk);
      var items := AnalyticsStep(w, d, env).world.items;
      && k in items && items[k] == MetricsItem(d["tenant_id"], d["created_at"])
      && items[k]["total_tasks"] == Int(1) && items[k]["tasks_this_month"] == Int(1)
  {
  }

  /** Once the audit record is written it stays in the table whatever
      happens to the archive copy; the step succeeds exactly when the month
      can be cut from `created_at` and the archive write goes through, and the
      archived object is then the audit record itself, stored under
      `audit-logs/<tenant>/<created_at[:7]>/<task>.json`. */
  lemma AuditRecordOutlivesArchive(w: World, d: Record, env: Env)
    requires "tenant_id" in d && "task_id" in d && "created_at" in d && "title" in d && !env.auditPutFails
    ensures var item := AuditItem(d["tenant_id"], d["task_id"], d["created_at"], Get(d, "created_by", Null), d["title"]);
      var e := AuditStep(w, d, env);
      && e.world.items == w.items[KeyOf(item) := item]
      && (e.result.Succeeded? <==> MonthText(d["created_at"]).Some? && !env.archivePutFails)
      && (e.result.Failed? ==> e.world.objects == w.objects)
      && (e.result.Succeeded? ==> e.result.reference.Some? && e.world.objects == w.objects[e.result.reference.value := item])
      && (d["created_at"].Str? && e.result.Succeeded? ==>
            e.result.reference == Some(ArchiveKey(Render(d["tenant_id"]), Take(d["created_at"].s, 7), Render(d["task_id"]))))
  {
    AuditItemShape(d["tenant_id"], d["task_id"], d["created_at"], Get(d, "created_by", Null), d["title"]);
  }

  /** `await_process_analytics`. */
  method ProcessAnalytics(table: Table, bucket: Bucket, d: Record, env: Env) returns (result: StepResult)
    modifies table
    ensures Effect(World(table.items, bucket.objects), result) == AnalyticsStep(World(old(table.items), old(bucket.objects)), d, env)
  {
    if "tenant_id" !in d {
      return Failed(MissingKey("tenant_id"));
    }
    if "task_id" !in d {
      return Failed(MissingKey("task_id"));
    }
    if "created_at" !in d {
      return Failed(MissingKey("created_at"));
    }
    var tenant, taskId, createdAt := d["tenant_id"], d["task_id"], d["created_at"];
    var analytics := AnalyticsItem(tenant, taskId, createdAt, Get(d, "created_by", Null));
    if env.analyticsPutFails {
      return Failed(WriteFailed);
    }
    table.PutItem(analytics);
    if env.metricsPutFails {
      return Failed(WriteFailed);
    }
    table.PutItem(MetricsItem(tenant, createdAt));
    result := Succeeded(None);
  }

  /** `await_send_notifications`. */
  method SendNotifications(table: Table, bucket: Bucket, d: Record, env: Env) returns (result: StepResult)
    modifies table
    ensures Effect(World(table.items, bucket.objects), result) == NotificationStep(World(old(table.items), old(bucket.objects)), d, env)
  {
    if "tenant_id" !in d {
      return Failed(MissingKey("tenant_id"));
    }
    if "task_id" !in d {
      return Failed(MissingKey("task_id"));
    }
    if "title" !in d {
      return Failed(MissingKey("title"));
    }
    var item := NotificationItem(d["tenant_id"], d["task_id"], d["title"], Get(d, "created_by", Null), env.now);
    if env.notificationPutFails {
      return Failed(WriteFailed);
    }
    table.PutItem(item);
    result := Succeeded(Some(NotificationSk(env.now, Render(d["task_id"]))));
  }

  /** `await_create_audit_log`. */
  method CreateAuditLog(table: Table, bucket: Bucket, d: Record, env: Env) returns (result: StepResult)
    modifies table, bucket
    ensures Effect(World(table.items, bucket.objects), result) == AuditStep(World(old(table.items), old(bucket.objects)), d, env)
  {
    if "tenant_id" !in d {
      return Failed(MissingKey("tenant_id"));
    }
    if "task_id" !in d {
      return Failed(MissingKey("task_id"));
    }
    if "created_at" !in d {
      return Failed(MissingKey("created_at"));
    }
    if "title" !in d {
      return Failed(MissingKey("title"));
    }
    var tenant, taskId, createdAt := d["tenant_id"], d["task_id"], d["created_at"];
    var item := AuditItem(tenant, taskId, createdAt, Get(d, "created_by", Null), d["title"]);
    if env.auditPutFails {
      return Failed(WriteFailed);
    }
    table.PutItem(item);
    var month := MonthText(createdAt);
    if month.None? {
      return Failed(NotSliceable);
    }
    var key := ArchiveKey(Render(tenant), month.value, Render(taskId));
    if env.archivePutFails {
      return Failed(WriteFailed);
    }
    bucket.PutObject(key, item);
    result := Succeeded(Some(key));
  }

  /** The handler: the batch as `Run` describes it, against the table and
      the bucket. */
  method Handle(table: Table, bucket: Bucket, event: Record, env: nat -> Env) returns (o: Outcome)
    modifies table, bucket
    ensures RecordsOf(event).None? ==>
      o == Aborted(0) && table.items == old(table.items) && bucket.objects == old(bucket.objects)
    ensures RecordsOf(event).Some? ==>
      Pass(World(table.items, bucket.objects), o) ==
      Run(World(old(table.items), old(bucket.objects)), RecordsOf(event).value, env)
  {
    var records := RecordsOf(event);
    if records.None? {
      return Aborted(0);
    }
    ghost var w0 := World(table.items, bucket.objects);
    var rs := records.value;
    var results: seq<ProcessedEntry> := [];
    var i := 0;
    while i < |rs|
      invariant 0 <= i <= |rs|
      invariant Run(w0, rs[..i], env) == Pass(World(table.items, bucket.objects), Completed(results))
    {
      assert rs[..i + 1][..i] == rs[..i];
      var record := rs[i];
      if !record.Obj? {
        RunAbortPersists(w0, rs, env, i + 1);
        return Aborted(|results|);
      }
      if Get(record.fields, "source", Null) == Str("saas.tasks") {
        var detail := Get(record.fields, "detail", Obj(map[]));
        if !detail.Obj? {
          RunAbortPersists(w0, rs, env, i + 1);
          return Aborted(|results|);
        }
        var d := detail.fields;
        var analytics := ProcessAnalytics(table, bucket, d, env(i));
        var notifications := SendNotifications(table, bucket, d, env(i));
        var audit := CreateAuditLog(table, bucket, d, env(i));
        results := results + [ProcessedEntry(Get(d, "task_id", Null), Get(d, "tenant_id", Null), analytics, notifications, audit)];
      }
      i := i + 1;
    }
    assert rs[..i] == rs;
    o := Completed(results);
  }
}
