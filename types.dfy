/** Values shared by the admission-control integration layer: identifiers,
    Go's fixed integer widths, the admission header of a request,
    the work information handed to every queue, and the cluster-setting
    values the layer reads. */
module AdmissionTypes {

  import opened Wrappers

  type int8 = x: int | -0x80 <= x < 0x80
  type int32 = x: int | -0x8000_0000 <= x < 0x8000_0000
  type int64 = x: int | -0x8000_0000_0000_0000 <= x < 0x8000_0000_0000_0000
  type uint32 = x: int | 0 <= x < 0x1_0000_0000
  type uint64 = x: int | 0 <= x < 0x1_0000_0000_0000_0000

  /** A tenant identifier; the zero value is the identifier of `Handle{}`. */
  type TenantID = uint64
  const SystemTenantID: TenantID := 1

  predicate IsSystemTenantID(id: TenantID) { id == SystemTenantID }

  type StoreID = int32

  /** Durations are nanosecond counts, as Go's time.Duration. */
  type Duration = int64

  /** The admission package's work priority is an 8-bit integer. */
  type WorkPriority = int8
  const NormalPri: WorkPriority := 0

  /** Converting the header's 32-bit priority to an 8-bit work priority keeps
      the low eight bits, read as two's complement. */
  function ToWorkPriority(p: int32): (w: WorkPriority)
    ensures (w - p) % 0x100 == 0
    ensures -0x80 <= p < 0x80 ==> w == p
  {
    (p + 0x80) % 0x100 - 0x80
  }

  /** Where a request comes from, as declared in its admission header. */
  datatype Source = Other | FromSQL | RootKV

  datatype AdmissionHeader = AdmissionHeader(priority: int32, createTime: int64, source: Source)

  /** What the layer reads of a batch request. The four flags are computed
      by the request types from the batch's contents. */
  datatype BatchRequest = BatchRequest(
    header: AdmissionHeader,
    storeID: StoreID,
    isAdmin: bool,
    isWrite: bool,
    isSingleHeartbeatTxn: bool,
    isSingleExport: bool)

  datatype RangeFeedRequest = RangeFeedRequest(header: AdmissionHeader)

  /** The admission information passed to every queue consulted. */
  datatype WorkInfo = WorkInfo(tenantID: TenantID, priority: WorkPriority, createTime: int64, bypassAdmission: bool)

  /** The values of the cluster settings read by the layer, at the moment
      of a call. */
  datatype SettingValues = SettingValues(
    bulkOnlyAdmissionControl: bool,
    durationPerExportRequest: Duration,
    durationPerRangefeedScanUnit: Duration,
    kvTenantWeightsEnabled: bool,
    kvStoresTenantWeightsEnabled: bool)

  /** An error returned by a queue: an admit call refused (cancellation,
      shutdown, ...), which the layer propagates verbatim, or a completion
      report the store queue could not account. */
  datatype Error = Error(reason: string)

  /** The store queue's completion report: what a request actually wrote. */
  datatype StoreWorkDoneInfo = StoreWorkDoneInfo(writeBytes: int64, ingestedBytes: int64)

  const NoWorkDone := StoreWorkDoneInfo(0, 0)

  /** Storage-engine statistics of an ingestion, forwarded unchanged. */
  datatype IngestOperationStats = IngestOperationStats(bytes: uint64, approxIngestedIntoL0Bytes: uint64)

  /** Tenant identifier to weight. A nil map and an empty one read alike. */
  type WeightMap = map<uint64, uint32>

  datatype TenantWeightsForStore = TenantWeightsForStore(storeID: StoreID, weights: WeightMap)

  datatype TenantWeights = TenantWeights(node: WeightMap, stores: seq<TenantWeightsForStore>)
}
