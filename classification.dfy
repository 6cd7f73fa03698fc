/** The classification of a KV request: whether it bypasses admission, the
    source it is treated as coming from, and the create time that orders it
    in the queues. */
module Classification {

  import opened AdmissionTypes

  datatype Classified = Classified(bypassAdmission: bool, source: Source, createTime: int64)

  /** The rules apply in order, each later one overriding the earlier:
      an admin request bypasses; a request of a non-system tenant is a SQL
      request and never bypasses; a request of source OTHER bypasses; with
      bulk-only admission on, a request of normal priority or above bypasses.
      A request that does not bypass and carries no create time gets `now`. */
  function Classify(tenantID: TenantID, ba: BatchRequest, bulkOnly: bool, now: int64): (c: Classified)
    ensures c.source == if IsSystemTenantID(tenantID) then ba.header.source else FromSQL
    ensures c.bypassAdmission <==>
      || (IsSystemTenantID(tenantID) && ba.isAdmin)
      || c.source == Other
      || (bulkOnly && ToWorkPriority(ba.header.priority) >= NormalPri)
    ensures !c.bypassAdmission && ba.header.createTime == 0 ==> c.createTime == now
    ensures c.bypassAdmission || ba.header.createTime != 0 ==> c.createTime == ba.header.createTime
  {
    var bypass := ba.isAdmin;
    var (bypass, source) := if !IsSystemTenantID(tenantID) then (false, FromSQL) else (bypass, ba.header.source);
    var bypass := if source == Other then true else bypass;
    var bypass := if bulkOnly && ToWorkPriority(ba.header.priority) >= NormalPri then true else bypass;
    var createTime := if !bypass && ba.header.createTime == 0 then now else ba.header.createTime;
    Classified(bypass, source, createTime)
  }

  /** The work information a KV request is admitted with. */
  function AdmissionInfo(tenantID: TenantID, ba: BatchRequest, bulkOnly: bool, now: int64): (wi: WorkInfo)
    ensures wi.tenantID == tenantID
    ensures (wi.priority - ba.header.priority) % 0x100 == 0
    ensures wi.bypassAdmission == Classify(tenantID, ba, bulkOnly, now).bypassAdmission
    ensures !wi.bypassAdmission && ba.header.createTime == 0 ==> wi.createTime == now
    ensures wi.bypassAdmission || ba.header.createTime != 0 ==> wi.createTime == ba.header.createTime
  {
    var c := Classify(tenantID, ba, bulkOnly, now);
    WorkInfo(tenantID, ToWorkPriority(ba.header.priority), c.createTime, c.bypassAdmission)
  }
}
