/** The admission controller of the KV layer: it classifies each request,
    routes it through the store write queue and then the elastic-CPU queue
    or the general KV queue, gives back what it acquired when a later queue
    refuses, and releases the rest once the work is done. */
module KvAdmission {

  import opened Wrappers
  import opened AdmissionTypes
  import opened Classification
  import opened AdmissionQueues
  import opened Accounting
  import opened TenantWeighting
  import opened Pacing

  /** The receipt of one admitted request: the store queue and its token,
      the elastic CPU grant, and whether the KV queue expects a completion
      call. */
  datatype Handle = Handle(
    tenantID: TenantID,
    storeAdmissionQ: StoreWorkQueue?,
    storeWorkHandle: StoreWorkHandle,
    elasticCPUWorkHandle: Option<ElasticCPUWorkHandle>,
    callAdmittedWorkDoneOnKVAdmissionQ: bool)
  {
    ghost function StoreTokens(): (r: set<nat>)
    {
      if storeAdmissionQ != null then {storeWorkHandle.token} else {}
    }

    ghost function ElasticTokens(): (r: set<ElasticCPUWorkHandle>)
    {
      if elasticCPUWorkHandle.Some? then {elasticCPUWorkHandle.value} else {}
    }

    ghost function KVTenants(): (r: multiset<TenantID>)
    {
      if callAdmittedWorkDoneOnKVAdmissionQ then multiset{tenantID} else multiset{}
    }

    /** The store queue the receipt records, as a frame. */
    ghost function StoreQueueFrame(): (r: set<StoreWorkQueue>)
    {
      if storeAdmissionQ != null then {storeAdmissionQ} else {}
    }
  }

  /** `Handle{tenantID: t}`: a receipt that holds nothing. */
  function PassThroughHandle(tenantID: TenantID): (h: Handle)
  {
    Handle(tenantID, null, NoStoreWork, None, false)
  }

  /** `Handle{}`, returned with an error. */
  const EmptyHandle := PassThroughHandle(0)

  /** Whether a follower's writes are worth reporting: some bytes were
      written or ingested. */
  predicate ReportsFollowerWrites(f: FollowerCounts)
  {
    !(f.writeBytes == 0 && f.ingestedBytes == 0)
  }

  class Controller {
    const kvAdmissionQ: WorkQueue?
    const storeGrantCoords: StoreGrantCoordinators?
    const elasticCPUWorkQueue: ElasticCPUWorkQueue?

    ghost predicate Configured()
    {
      kvAdmissionQ != null
    }

    ghost function StoreQueues(): (r: set<StoreWorkQueue>)
    {
      if storeGrantCoords == null then {} else storeGrantCoords.queues.Values
    }

    ghost function KVQueueFrame(): (r: set<WorkQueue>)
    {
      if kvAdmissionQ == null then {} else {kvAdmissionQ}
    }

    ghost function ElasticQueueFrame(): (r: set<ElasticCPUWorkQueue>)
    {
      if elasticCPUWorkQueue == null then {} else {elasticCPUWorkQueue}
    }

    /** The three queues are all present or all absent. */
    ghost predicate Valid()
      reads ElasticQueueFrame()`nextHandle, ElasticQueueFrame()`outstanding
      reads StoreQueues()`nextToken, StoreQueues()`outstanding
    {
      && (kvAdmissionQ == null <==> storeGrantCoords == null)
      && (kvAdmissionQ == null <==> elasticCPUWorkQueue == null)
      && (storeGrantCoords != null ==> storeGrantCoords.Valid())
      && (elasticCPUWorkQueue != null ==> elasticCPUWorkQueue.Valid())
    }

    ghost function StoreQueue(storeID: StoreID): (r: StoreWorkQueue?)
    {
      if storeGrantCoords == null then null else storeGrantCoords.TryGetQueueForStore(storeID)
    }

    ghost function StoreQueueFrame(storeID: StoreID): (r: set<StoreWorkQueue>)
    {
      if StoreQueue(storeID) == null then {} else {StoreQueue(storeID)}
    }

    /** The store queue a request is admitted through: writes other than a
        lone transaction heartbeat, on a store that has a queue. */
    ghost function RoutedStoreQueue(ba: BatchRequest): (r: StoreWorkQueue?)
    {
      if ba.isWrite && !ba.isSingleHeartbeatTxn then StoreQueue(ba.storeID) else null
    }

    ghost function RoutedStoreFrame(ba: BatchRequest): (r: set<StoreWorkQueue>)
    {
      if RoutedStoreQueue(ba) == null then {} else {RoutedStoreQueue(ba)}
    }

    ghost predicate StoreRefuses(ba: BatchRequest)
      reads RoutedStoreQueue(ba)
    {
      RoutedStoreQueue(ba) != null && RoutedStoreQueue(ba).refusal.Some?
    }

    /** The store queue admits and charges the request. */
    ghost predicate StoreCharges(ba: BatchRequest)
      reads RoutedStoreQueue(ba)
    {
      RoutedStoreQueue(ba) != null && RoutedStoreQueue(ba).refusal.None? && RoutedStoreQueue(ba).enabled
    }

    /** The request goes on to the elastic-CPU or the KV queue: queues are
        configured and the store queue, if consulted, admitted and charged. */
    ghost predicate ReachesSecondQueue(ba: BatchRequest)
      reads RoutedStoreQueue(ba)
    {
      Configured() && (RoutedStoreQueue(ba) == null || StoreCharges(ba))
    }

    /** Every token the receipt records is outstanding in its queue. */
    ghost predicate Live(ah: Handle)
      reads kvAdmissionQ, elasticCPUWorkQueue, ah.storeAdmissionQ
    {
      && (ah.elasticCPUWorkHandle.Some? ==>
            elasticCPUWorkQueue != null && ah.elasticCPUWorkHandle.value in elasticCPUWorkQueue.outstanding)
      && (ah.callAdmittedWorkDoneOnKVAdmissionQ ==>
            kvAdmissionQ != null && ah.tenantID in kvAdmissionQ.outstanding)
      && StoreLive(ah)
    }

    /** The store token the receipt records, if any, is outstanding in one
        of this node's store queues. */
    ghost predicate StoreLive(ah: Handle)
      reads ah.storeAdmissionQ
    {
      ah.storeAdmissionQ != null ==>
        && ah.storeAdmissionQ in StoreQueues()
        && ah.storeWorkHandle.admissionEnabled
        && ah.storeWorkHandle.token in ah.storeAdmissionQ.outstanding
    }

    constructor (kvAdmissionQ: WorkQueue?, elasticCPUWorkQueue: ElasticCPUWorkQueue?, storeGrantCoords: StoreGrantCoordinators?)
      requires kvAdmissionQ == null <==> storeGrantCoords == null
      requires kvAdmissionQ == null <==> elasticCPUWorkQueue == null
      requires storeGrantCoords != null ==> storeGrantCoords.Valid()
      requires elasticCPUWorkQueue != null ==> elasticCPUWorkQueue.Valid()
      ensures this.kvAdmissionQ == kvAdmissionQ && this.elasticCPUWorkQueue == elasticCPUWorkQueue
      ensures this.storeGrantCoords == storeGrantCoords
      ensures Valid()
    {
      this.kvAdmissionQ := kvAdmissionQ;
      this.storeGrantCoords := storeGrantCoords;
      this.elasticCPUWorkQueue := elasticCPUWorkQueue;
    }

    /** Admits a KV request. On success the receipt records exactly the
        tokens this call acquired; on error nothing is left outstanding. */
    method AdmitKVWork(tenantID: TenantID, ba: BatchRequest, sv: SettingValues, now: int64)
      returns (handle: Handle, retErr: Option<Error>)
      requires Valid()
      modifies KVQueueFrame()`outstanding, KVQueueFrame()`requests
      modifies ElasticQueueFrame()`nextHandle, ElasticQueueFrame()`outstanding, ElasticQueueFrame()`requests
      modifies RoutedStoreFrame(ba)`nextToken, RoutedStoreFrame(ba)`outstanding
      modifies RoutedStoreFrame(ba)`requests, RoutedStoreFrame(ba)`completions
      ensures Valid()
      // Without queues the layer passes everything through.
      ensures !Configured() ==> handle == PassThroughHandle(tenantID) && retErr.None?
      // The queues consulted, with the request's admission information.
      ensures Configured() ==>
        var info := AdmissionInfo(tenantID, ba, sv.bulkOnlyAdmissionControl, now);
        && (RoutedStoreQueue(ba) != null ==>
              RoutedStoreQueue(ba).requests == old(RoutedStoreQueue(ba).requests) + [info])
        && elasticCPUWorkQueue.requests == old(elasticCPUWorkQueue.requests) +
             (if old(ReachesSecondQueue(ba)) && ba.isSingleExport
              then [ElasticRequest(sv.durationPerExportRequest, info)] else [])
        && kvAdmissionQ.requests == old(kvAdmissionQ.requests) +
             (if old(ReachesSecondQueue(ba)) && !ba.isSingleExport then [info] else [])
      // The error is the first refusal met.
      ensures retErr ==
        if !Configured() then None
        else if old(StoreRefuses(ba)) then old(RoutedStoreQueue(ba).refusal)
        else if !old(ReachesSecondQueue(ba)) then None
        else if ba.isSingleExport then old(elasticCPUWorkQueue.refusal)
        else old(kvAdmissionQ.refusal)
      // What the receipt records.
      ensures retErr.Some? ==> handle == EmptyHandle
      ensures retErr.None? ==> handle.tenantID == tenantID
      ensures retErr.None? ==>
        handle.storeAdmissionQ == if old(StoreCharges(ba)) then RoutedStoreQueue(ba) else null
      ensures retErr.None? ==>
        (handle.elasticCPUWorkHandle.Some? <==>
           old(ReachesSecondQueue(ba)) && ba.isSingleExport && old(elasticCPUWorkQueue.enabled))
      ensures retErr.None? ==>
        handle.callAdmittedWorkDoneOnKVAdmissionQ ==
          (old(ReachesSecondQueue(ba)) && !ba.isSingleExport && old(kvAdmissionQ.enabled))
      ensures retErr.None? && handle.storeAdmissionQ == null ==> handle.storeWorkHandle == NoStoreWork
      ensures retErr.None? ==> Live(handle)
      // Outstanding tokens grow by exactly the receipt's, all of them fresh.
      ensures kvAdmissionQ != null ==>
        kvAdmissionQ.outstanding == old(kvAdmissionQ.outstanding) + handle.KVTenants()
      ensures elasticCPUWorkQueue != null ==>
        && elasticCPUWorkQueue.outstanding == old(elasticCPUWorkQueue.outstanding) + handle.ElasticTokens()
        && handle.ElasticTokens() !! old(elasticCPUWorkQueue.outstanding)
      ensures RoutedStoreQueue(ba) != null ==>
        && RoutedStoreQueue(ba).outstanding == old(RoutedStoreQueue(ba).outstanding) + handle.StoreTokens()
        && handle.StoreTokens() !! old(RoutedStoreQueue(ba).outstanding)
      // A store token followed by a refusal was given back as having done no work.
      ensures RoutedStoreQueue(ba) != null ==>
        RoutedStoreQueue(ba).completions == old(RoutedStoreQueue(ba).completions) +
          (if retErr.Some? && old(StoreCharges(ba)) then [NoWorkDone] else [])
    {
      var ah := PassThroughHandle(tenantID);
      if kvAdmissionQ == null {
        return ah, None;
      }
      var admissionInfo := AdmissionInfo(tenantID, ba, sv.bulkOnlyAdmissionControl, now);
      var admissionEnabled := true;
      if ba.isWrite && !ba.isSingleHeartbeatTxn {
        var storeAdmissionQ := storeGrantCoords.TryGetQueueForStore(ba.storeID);
        if storeAdmissionQ != null {
          var storeWorkHandle, err := storeAdmissionQ.Admit(admissionInfo);
          if err.Some? {
            return EmptyHandle, err;
          }
          admissionEnabled := storeWorkHandle.admissionEnabled;
          if admissionEnabled {
            ah := ah.(storeAdmissionQ := storeAdmissionQ, storeWorkHandle := storeWorkHandle);
          }
        }
      }
      if admissionEnabled {
        handle, retErr := AdmitElasticOrKV(ah, ba, sv, admissionInfo);
        return;
      }
      return ah, None;
    }

    /** The second step of `AdmitKVWork`: a lone export request asks the
        elastic-CPU queue for the export duration, any other request asks
        the KV queue. A refusal gives back the store token `ah` holds. */
    method AdmitElasticOrKV(ah: Handle, ba: BatchRequest, sv: SettingValues, admissionInfo: WorkInfo)
      returns (handle: Handle, retErr: Option<Error>)
      requires Valid() && Configured()
      requires ah.elasticCPUWorkHandle.None? && !ah.callAdmittedWorkDoneOnKVAdmissionQ
      requires admissionInfo.tenantID == ah.tenantID
      requires StoreLive(ah)
      modifies KVQueueFrame()`outstanding, KVQueueFrame()`requests
      modifies ElasticQueueFrame()`nextHandle, ElasticQueueFrame()`outstanding, ElasticQueueFrame()`requests
      modifies ah.StoreQueueFrame()`outstanding, ah.StoreQueueFrame()`completions
      ensures Valid()
      ensures elasticCPUWorkQueue.requests == old(elasticCPUWorkQueue.requests) +
        (if ba.isSingleExport then [ElasticRequest(sv.durationPerExportRequest, admissionInfo)] else [])
      ensures kvAdmissionQ.requests == old(kvAdmissionQ.requests) + (if ba.isSingleExport then [] else [admissionInfo])
      ensures retErr == if ba.isSingleExport then old(elasticCPUWorkQueue.refusal) else old(kvAdmissionQ.refusal)
      ensures retErr.Some? ==> handle == EmptyHandle
      ensures retErr.None? ==>
        && handle.tenantID == ah.tenantID
        && handle.storeAdmissionQ == ah.storeAdmissionQ
        && handle.storeWorkHandle == ah.storeWorkHandle
        && (handle.elasticCPUWorkHandle.Some? <==> ba.isSingleExport && old(elasticCPUWorkQueue.enabled))
        && handle.callAdmittedWorkDoneOnKVAdmissionQ == (!ba.isSingleExport && old(kvAdmissionQ.enabled))
        && Live(handle)
      ensures kvAdmissionQ.outstanding == old(kvAdmissionQ.outstanding) + handle.KVTenants()
      ensures elasticCPUWorkQueue.outstanding == old(elasticCPUWorkQueue.outstanding) + handle.ElasticTokens()
      ensures handle.ElasticTokens() !! old(elasticCPUWorkQueue.outstanding)
      ensures ah.storeAdmissionQ != null ==>
        && ah.storeAdmissionQ.requests == old(ah.storeAdmissionQ.requests)
        && ah.storeAdmissionQ.outstanding ==
             old(ah.storeAdmissionQ.outstanding) - (if retErr.Some? then ah.StoreTokens() else {})
        && ah.storeAdmissionQ.completions ==
             old(ah.storeAdmissionQ.completions) + (if retErr.Some? then [NoWorkDone] else [])
    {
      if ba.isSingleExport {
        var elasticWorkHandle, err := elasticCPUWorkQueue.Admit(sv.durationPerExportRequest, admissionInfo);
        if err.Some? {
          StoreWorkDone(ah, NoWorkDone);
          return EmptyHandle, err;
        }
        return ah.(elasticCPUWorkHandle := elasticWorkHandle), None;
      } else {
        var callAdmittedWorkDone, err := kvAdmissionQ.Admit(admissionInfo);
        if err.Some? {
          StoreWorkDone(ah, NoWorkDone);
          return EmptyHandle, err;
        }
        return ah.(callAdmittedWorkDoneOnKVAdmissionQ := callAdmittedWorkDone), None;
      }
    }

    /** Gives the store token `ah` records back to its queue with the work
        done, if `ah` holds one. A live token is always accepted, so the
        queue's error answer never comes up. */
    method StoreWorkDone(ah: Handle, doneInfo: StoreWorkDoneInfo)
      requires Valid()
      requires StoreLive(ah)
      modifies ah.StoreQueueFrame()`outstanding, ah.StoreQueueFrame()`completions
      ensures Valid()
      ensures ah.storeAdmissionQ != null ==>
        && ah.storeAdmissionQ.outstanding == old(ah.storeAdmissionQ.outstanding) - ah.StoreTokens()
        && ah.storeAdmissionQ.completions == old(ah.storeAdmissionQ.completions) + [doneInfo]
        && ah.storeAdmissionQ.requests == old(ah.storeAdmissionQ.requests)
    {
      if ah.storeAdmissionQ != null {
        var err := ah.storeAdmissionQ.AdmittedWorkDone(ah.storeWorkHandle, doneInfo);
        // The Go code treats a failure here as an assertion failure; a live
        // receipt never meets one.
        assert err.None?;
      }
    }

    /** Reports the work of an admitted request done, giving back every
        token its receipt records. */
    method AdmittedKVWorkDone(ah: Handle, writeBytes: StoreWriteBytes?)
      requires Valid() && Live(ah)
      requires writeBytes != null ==> !writeBytes.released
      modifies ElasticQueueFrame()`outstanding, KVQueueFrame()`outstanding
      modifies ah.StoreQueueFrame()`outstanding, ah.StoreQueueFrame()`completions
      ensures Valid()
      ensures elasticCPUWorkQueue != null ==>
        elasticCPUWorkQueue.outstanding == old(elasticCPUWorkQueue.outstanding) - ah.ElasticTokens()
      ensures kvAdmissionQ != null ==>
        kvAdmissionQ.outstanding == old(kvAdmissionQ.outstanding) - ah.KVTenants()
      ensures ah.storeAdmissionQ != null ==>
        && ah.storeAdmissionQ.outstanding == old(ah.storeAdmissionQ.outstanding) - ah.StoreTokens()
        && ah.storeAdmissionQ.completions == old(ah.storeAdmissionQ.completions) +
             [if writeBytes != null then writeBytes.DoneInfo() else NoWorkDone]
    {
      // A nil elastic queue has handed out no grant, so only a present one
      // is called.
      if elasticCPUWorkQueue != null {
        elasticCPUWorkQueue.AdmittedWorkDone(ah.elasticCPUWorkHandle);
      }
      if ah.callAdmittedWorkDoneOnKVAdmissionQ {
        kvAdmissionQ.AdmittedWorkDone(ah.tenantID);
      }
      var doneInfo := if writeBytes != null then writeBytes.DoneInfo() else NoWorkDone;
      StoreWorkDone(ah, doneInfo);
    }

    /** A pacer for a rangefeed catch-up scan, never bypassing admission. */
    method AdmitRangefeedRequest(tenantID: TenantID, request: RangeFeedRequest, sv: SettingValues)
      returns (p: Pacer)
      requires Valid()
      ensures fresh(p) && p.Valid() && p.cur.None? && p.wq == elasticCPUWorkQueue
      ensures p.unit == sv.durationPerRangefeedScanUnit
      ensures p.wi == WorkInfo(tenantID, ToWorkPriority(request.header.priority), request.header.createTime, false)
    {
      p := new Pacer(sv.durationPerRangefeedScanUnit,
                     WorkInfo(tenantID, ToWorkPriority(request.header.priority), request.header.createTime, false),
                     elasticCPUWorkQueue);
    }

    /** One tick of the weight-redistribution loop, the loop's "all weights
        disabled" flag threaded in and out. Once both kinds of weighting are
        off and were already off, the provider is not called. */
    method WeightTick(provider: TenantWeightProvider, allWeightsDisabled: bool, sv: SettingValues)
      returns (allDisabled: bool)
      requires Valid() && Configured()
      modifies provider`polls, kvAdmissionQ`tenantWeights, elasticCPUWorkQueue`tenantWeights, StoreQueues()`tenantWeights
      ensures Valid()
      ensures
        var t := Tick(allWeightsDisabled, TickSettings(sv.kvTenantWeightsEnabled, sv.kvStoresTenantWeightsEnabled));
        allDisabled == t.allWeightsDisabled && provider.polls == old(provider.polls) + (if t.polls then 1 else 0)
      ensures allWeightsDisabled && allDisabled ==>
        && provider.polls == old(provider.polls)
        && kvAdmissionQ.tenantWeights == old(kvAdmissionQ.tenantWeights)
        && elasticCPUWorkQueue.tenantWeights == old(elasticCPUWorkQueue.tenantWeights)
        && forall q :: q in StoreQueues() ==> q.tenantWeights == old(q.tenantWeights)
      ensures !(allWeightsDisabled && allDisabled) ==>
        var nodeWeights := if sv.kvTenantWeightsEnabled then provider.weights.node else map[];
        && provider.polls == old(provider.polls) + 1
        && kvAdmissionQ.tenantWeights == nodeWeights
        && elasticCPUWorkQueue.tenantWeights == nodeWeights
        && forall id :: id in storeGrantCoords.queues ==>
             storeGrantCoords.queues[id].tenantWeights ==
               StoreWeightsAfter(provider.weights.stores, id, !sv.kvStoresTenantWeightsEnabled,
                                 old(storeGrantCoords.queues[id].tenantWeights))
    {
      var kvDisabled := !sv.kvTenantWeightsEnabled;
      var kvStoresDisabled := !sv.kvStoresTenantWeightsEnabled;
      if allWeightsDisabled && kvDisabled && kvStoresDisabled {
        return allWeightsDisabled;
      }
      var weights := provider.GetTenantWeights();
      var nodeWeights := weights.node;
      if kvDisabled {
        nodeWeights := map[];
      }
      kvAdmissionQ.SetTenantWeights(nodeWeights);
      elasticCPUWorkQueue.SetTenantWeights(nodeWeights);
      ghost var queues := storeGrantCoords.queues;
      for k := 0 to |weights.stores|
        invariant Valid()
        invariant provider.polls == old(provider.polls) + 1
        invariant kvAdmissionQ.tenantWeights == nodeWeights && elasticCPUWorkQueue.tenantWeights == nodeWeights
        invariant forall id :: id in queues ==>
          queues[id].tenantWeights == StoreWeightsAfter(weights.stores[..k], id, kvStoresDisabled, old(queues[id].tenantWeights))
      {
        var storeWeights := weights.stores[k];
        var q := storeGrantCoords.TryGetQueueForStore(storeWeights.storeID);
        assert weights.stores[..k + 1][..k] == weights.stores[..k];
        if q != null {
          if kvStoresDisabled {
            storeWeights := storeWeights.(weights := map[]);
          }
          q.SetTenantWeights(storeWeights.weights);
        }
      }
      assert weights.stores[..|weights.stores|] == weights.stores;
      allDisabled := kvDisabled && kvStoresDisabled;
    }

    /** Tells the store's queue to leave an ingested snapshot out of its
        throughput accounting; a store without a queue is ignored. */
    method SnapshotIngested(storeID: StoreID, ingestStats: IngestOperationStats)
      requires Valid() && Configured()
      modifies StoreQueueFrame(storeID)`ignoredStats
      ensures StoreQueue(storeID) != null ==>
        StoreQueue(storeID).ignoredStats == old(StoreQueue(storeID).ignoredStats) + [ingestStats]
    {
      var storeAdmissionQ := storeGrantCoords.TryGetQueueForStore(storeID);
      if storeAdmissionQ == null {
        return;
      }
      storeAdmissionQ.StatsToIgnore(ingestStats);
    }

    /** Reports writes a follower replica applied without admission to the
        store's queue, unless no bytes were written or ingested or the store
        has no queue. */
    method FollowerStoreWriteBytes(storeID: StoreID, followerWriteBytes: FollowerCounts)
      requires Valid()
      requires ReportsFollowerWrites(followerWriteBytes) ==> Configured()
      modifies StoreQueueFrame(storeID)`bypassed
      ensures StoreQueue(storeID) != null ==>
        StoreQueue(storeID).bypassed == old(StoreQueue(storeID).bypassed) +
          (if ReportsFollowerWrites(followerWriteBytes)
           then [BypassedWork(followerWriteBytes.numEntries, followerWriteBytes.DoneInfo())] else [])
    {
      if followerWriteBytes.writeBytes == 0 && followerWriteBytes.ingestedBytes == 0 {
        return;
      }
      var storeAdmissionQ := storeGrantCoords.TryGetQueueForStore(storeID);
      if storeAdmissionQ == null {
        return;
      }
      storeAdmissionQ.BypassedWorkDone(followerWriteBytes.numEntries, followerWriteBytes.DoneInfo());
    }
  }

  /** A request's whole life: admitted, and, if admitted, reported done.
      Every token acquired is released exactly once, so no queue is left
      holding anything for it. */
  method ServeKVWork(n: Controller, tenantID: TenantID, ba: BatchRequest, sv: SettingValues, now: int64,
                     writeBytes: StoreWriteBytes?) returns (err: Option<Error>)
    requires n.Valid()
    requires writeBytes != null ==> !writeBytes.released
    modifies n.KVQueueFrame()`outstanding, n.KVQueueFrame()`requests
    modifies n.ElasticQueueFrame()`nextHandle, n.ElasticQueueFrame()`outstanding, n.ElasticQueueFrame()`requests
    modifies n.RoutedStoreFrame(ba)`nextToken, n.RoutedStoreFrame(ba)`outstanding
    modifies n.RoutedStoreFrame(ba)`requests, n.RoutedStoreFrame(ba)`completions
    ensures n.Valid()
    ensures n.kvAdmissionQ != null ==> n.kvAdmissionQ.outstanding == old(n.kvAdmissionQ.outstanding)
    ensures n.elasticCPUWorkQueue != null ==>
      n.elasticCPUWorkQueue.outstanding == old(n.elasticCPUWorkQueue.outstanding)
    ensures n.RoutedStoreQueue(ba) != null ==>
      n.RoutedStoreQueue(ba).outstanding == old(n.RoutedStoreQueue(ba).outstanding)
  {
    var handle;
    handle, err := n.AdmitKVWork(tenantID, ba, sv, now);
    if err.None? {
      n.AdmittedKVWorkDone(handle, writeBytes);
    }
  }
}
