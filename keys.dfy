/** The composite-key conventions of the single shared table: every record
    of a tenant lives in the partition `TENANT#<tenant>`, and the sort key's
    prefix names the kind of record. */
module Keys {
  import opened Values

  function TenantPk(tenantId: string): string { "TENANT#" + tenantId }
  function TaskSk(taskId: string): string { "TASK#" + taskId }
  function StatusSortKey(status: string, time: string): string { "STATUS#" + status + "#" + time }
  function StatusPrefix(status: string): string { "STATUS#" + status + "#" }

  function AnalyticsSk(createdAt: string, taskId: string): string { "ANALYTICS#" + createdAt + "#" + taskId }
  function AnalyticsGsiPk(tenantId: string): string { "ANALYTICS#" + tenantId }
  function TaskCreatedGsiSk(createdAt: string): string { "TASK_CREATED#" + createdAt }
  const MetricsSk: string := "METRICS#TASKS"
  /** `now` is `datetime.utcnow().isoformat()`, to which the handler appends `Z`. */
  function NotificationSk(now: string, taskId: string): string { "NOTIFICATION#" + now + "Z#" + taskId }
  function AuditSk(createdAt: string, taskId: string): string { "AUDIT#" + createdAt + "#" + taskId }
  function AuditGsiPk(tenantId: string): string { "AUDIT#" + tenantId }

  /** The archive object key: `audit-logs/<tenant>/<month>/<task>.json`, where
      `month` is the creation time cut to its `YYYY-MM` prefix. */
  function ArchiveKey(tenantId: string, month: string, taskId: string): string {
    "audit-logs/" + tenantId + "/" + month + "/" + taskId + ".json"
  }

  /** Distinct tenants get distinct partitions, so a key built for one tenant
      never reaches another tenant's records. */
  lemma TenantPkInjective(a: string, b: string)
    requires TenantPk(a) == TenantPk(b)
    ensures a == b
  {
    assert a == TenantPk(a)[7..];
  }

  lemma TaskSkInjective(a: string, b: string)
    requires TaskSk(a) == TaskSk(b)
    ensures a == b
  {
    assert a == TaskSk(a)[5..];
  }

  /** A task's sort key starts with `TASK#`; none of the records the event
      handler writes does, so the fan-out never overwrites a task and a task
      query never sees those records. */
  lemma FanOutKeysAreNotTaskKeys(createdAt: string, taskId: string, now: string, prefix: string)
    requires StartsWith(prefix, "TASK#")
    ensures StartsWith(TaskSk(taskId), "TASK#")
    ensures !StartsWith(AnalyticsSk(createdAt, taskId), prefix)
    ensures !StartsWith(MetricsSk, prefix)
    ensures !StartsWith(NotificationSk(now, taskId), prefix)
    ensures !StartsWith(AuditSk(createdAt, taskId), prefix)
  {
    assert TaskSk(taskId)[..5] == "TASK#";
    assert prefix[0] == 'T' && prefix[1] == 'A';
    assert AnalyticsSk(createdAt, taskId)[0] == 'A';
    assert MetricsSk[0] == 'M';
    assert NotificationSk(now, taskId)[0] == 'N';
    assert AuditSk(createdAt, taskId)[0] == 'A';
  }

  /** The secondary-index partitions of analytics and audit records never
      coincide with a tenant's task partition. */
  lemma IndexPartitionsDisjoint(a: string, b: string)
    ensures TenantPk(a) != AnalyticsGsiPk(b)
    ensures TenantPk(a) != AuditGsiPk(b)
  {
    assert TenantPk(a)[0] == 'T';
    assert AnalyticsGsiPk(b)[0] == 'A' && AuditGsiPk(b)[0] == 'A';
  }

  /** The archive key embeds the tenant, the first seven characters of the
      creation time (the `YYYY-MM` month of an ISO timestamp) and the task. */
  lemma ArchiveKeyShape(tenantId: string, createdAt: string, taskId: string)
    requires |createdAt| >= 7
    ensures var k := ArchiveKey(tenantId, Take(createdAt, 7), taskId);
      && StartsWith(k, "audit-logs/" + tenantId + "/")
      && k[|"audit-logs/" + tenantId + "/"|..][..7] == createdAt[..7]
      && |k| == 11 + |tenantId| + 1 + 7 + 1 + |taskId| + 5
  {
  }
}
