/** The capacity queues the layer consults, at their interface boundary.
    Their admission algorithms are not modelled: what a queue answers to the
    next admit call is read from oracle fields (`refusal`, `enabled`,
    `overLimit`) that stand for whatever the queue's own state would decide,
    so every contract below holds for every possible answer. Each queue keeps
    the tokens it has handed out and not yet had back (`outstanding`), and
    ghost logs of the calls it received. */
module AdmissionQueues {

  import opened Wrappers
  import opened AdmissionTypes

  /** The general KV work queue. A successful admit may or may not charge a
      slot; when it does, the caller must report completion for the tenant. */
  class WorkQueue {
    var refusal: Option<Error>
    var enabled: bool
    var tenantWeights: WeightMap
    var outstanding: multiset<TenantID>
    ghost var requests: seq<WorkInfo>

    constructor ()
      ensures refusal == None && enabled && tenantWeights == map[]
      ensures outstanding == multiset{} && requests == []
    {
      refusal, enabled, tenantWeights := None, true, map[];
      outstanding, requests := multiset{}, [];
    }

    method Admit(info: WorkInfo) returns (mustReport: bool, err: Option<Error>)
      modifies this`outstanding, this`requests
      ensures requests == old(requests) + [info]
      ensures err == refusal
      ensures mustReport == (err.None? && enabled)
      ensures outstanding == old(outstanding) + (if mustReport then multiset{info.tenantID} else multiset{})
    {
      requests := requests + [info];
      err := refusal;
      mustReport := err.None? && enabled;
      if mustReport {
        outstanding := outstanding + multiset{info.tenantID};
      }
    }

    method AdmittedWorkDone(tenantID: TenantID)
      requires tenantID in outstanding
      modifies this`outstanding
      ensures outstanding == old(outstanding) - multiset{tenantID}
    {
      outstanding := outstanding - multiset{tenantID};
    }

    method SetTenantWeights(w: WeightMap)
      modifies this`tenantWeights
      ensures tenantWeights == w
    {
      tenantWeights := w;
    }
  }

  /** The store queue's receipt for an admitted write. Only a receipt whose
      admission is enabled holds a token that must be given back. */
  datatype StoreWorkHandle = StoreWorkHandle(token: nat, admissionEnabled: bool)

  const NoStoreWork := StoreWorkHandle(0, false)

  /** Writes applied without admission, reported after the fact. */
  datatype BypassedWork = BypassedWork(numEntries: int64, doneInfo: StoreWorkDoneInfo)

  /** The write queue of one store. */
  class StoreWorkQueue {
    var refusal: Option<Error>
    var enabled: bool
    var nextToken: nat
    var tenantWeights: WeightMap
    var outstanding: set<nat>
    ghost var requests: seq<WorkInfo>
    ghost var completions: seq<StoreWorkDoneInfo>
    ghost var bypassed: seq<BypassedWork>
    ghost var ignoredStats: seq<IngestOperationStats>

    /** Every token handed out is fresh: it is below `nextToken`. */
    ghost predicate Valid()
      reads this`nextToken, this`outstanding
    {
      0 < nextToken && forall t :: t in outstanding ==> 0 < t < nextToken
    }

    constructor ()
      ensures Valid()
      ensures refusal == None && enabled && tenantWeights == map[]
      ensures outstanding == {} && requests == [] && completions == [] && bypassed == [] && ignoredStats == []
    {
      refusal, enabled, nextToken, tenantWeights := None, true, 1, map[];
      outstanding, requests, completions, bypassed, ignoredStats := {}, [], [], [], [];
    }

    method Admit(info: WorkInfo) returns (h: StoreWorkHandle, err: Option<Error>)
      requires Valid()
      modifies this`nextToken, this`outstanding, this`requests
      ensures Valid()
      ensures requests == old(requests) + [info]
      ensures err == refusal
      ensures err.Some? ==> h == NoStoreWork
      ensures err.None? ==> h.admissionEnabled == enabled
      ensures h.admissionEnabled ==> h.token !in old(outstanding)
      ensures outstanding == old(outstanding) + (if h.admissionEnabled then {h.token} else {})
    {
      requests := requests + [info];
      if refusal.Some? {
        return NoStoreWork, refusal;
      }
      if !enabled {
        return NoStoreWork, None;
      }
      h, err := StoreWorkHandle(nextToken, true), None;
      outstanding := outstanding + {nextToken};
      nextToken := nextToken + 1;
    }

    /** Reports the work an admitted write did. A receipt without enabled
        admission holds nothing; a receipt whose token is not outstanding
        cannot be accounted and is reported as an error. */
    method AdmittedWorkDone(h: StoreWorkHandle, doneInfo: StoreWorkDoneInfo) returns (err: Option<Error>)
      requires Valid()
      modifies this`outstanding, this`completions
      ensures Valid()
      ensures err.Some? <==> h.admissionEnabled && h.token !in old(outstanding)
      ensures h.admissionEnabled && err.None? ==>
        outstanding == old(outstanding) - {h.token} && completions == old(completions) + [doneInfo]
      ensures !h.admissionEnabled || err.Some? ==>
        outstanding == old(outstanding) && completions == old(completions)
    {
      if !h.admissionEnabled {
        return None;
      }
      if h.token !in outstanding {
        return Some(Error("store work handle is not outstanding"));
      }
      outstanding := outstanding - {h.token};
      completions := completions + [doneInfo];
      err := None;
    }

    method BypassedWorkDone(numEntries: int64, doneInfo: StoreWorkDoneInfo)
      modifies this`bypassed
      ensures bypassed == old(bypassed) + [BypassedWork(numEntries, doneInfo)]
    {
      bypassed := bypassed + [BypassedWork(numEntries, doneInfo)];
    }

    method StatsToIgnore(stats: IngestOperationStats)
      modifies this`ignoredStats
      ensures ignoredStats == old(ignoredStats) + [stats]
    {
      ignoredStats := ignoredStats + [stats];
    }

    method SetTenantWeights(w: WeightMap)
      modifies this`tenantWeights
      ensures tenantWeights == w
    {
      tenantWeights := w;
    }
  }

  /** The per-store queues of a node: one distinct queue per store. */
  class StoreGrantCoordinators {
    const queues: map<StoreID, StoreWorkQueue>

    ghost predicate Valid()
      reads queues.Values`nextToken, queues.Values`outstanding
    {
      && (forall i, j :: i in queues && j in queues && queues[i] == queues[j] ==> i == j)
      && (forall i :: i in queues ==> queues[i].Valid())
    }

    constructor (queues: map<StoreID, StoreWorkQueue>)
      requires forall i, j :: i in queues && j in queues && queues[i] == queues[j] ==> i == j
      ensures this.queues == queues
    {
      this.queues := queues;
    }

    function TryGetQueueForStore(storeID: StoreID): (r: StoreWorkQueue?)
    {
      if storeID in queues then queues[storeID] else null
    }
  }

  /** An elastic CPU grant, identified by a number. */
  type ElasticCPUWorkHandle = nat

  datatype ElasticRequest = ElasticRequest(duration: Duration, info: WorkInfo)

  /** The elastic-CPU queue. A successful admit returns a grant, or nil when
      the queue does not charge this work; releasing nil does nothing. */
  class ElasticCPUWorkQueue {
    var refusal: Option<Error>
    var enabled: bool
    var nextHandle: nat
    var tenantWeights: WeightMap
    /** The grants whose CPU time is used up. */
    var overLimit: set<ElasticCPUWorkHandle>
    var outstanding: set<ElasticCPUWorkHandle>
    ghost var requests: seq<ElasticRequest>

    ghost predicate Valid()
      reads this`nextHandle, this`outstanding
    {
      0 < nextHandle && forall t :: t in outstanding ==> 0 < t < nextHandle
    }

    constructor ()
      ensures Valid()
      ensures refusal == None && enabled && tenantWeights == map[] && overLimit == {}
      ensures outstanding == {} && requests == []
    {
      refusal, enabled, nextHandle, tenantWeights, overLimit := None, true, 1, map[], {};
      outstanding, requests := {}, [];
    }

    method Admit(duration: Duration, info: WorkInfo) returns (h: Option<ElasticCPUWorkHandle>, err: Option<Error>)
      requires Valid()
      modifies this`nextHandle, this`outstanding, this`requests
      ensures Valid()
      ensures requests == old(requests) + [ElasticRequest(duration, info)]
      ensures err == refusal
      ensures h.Some? <==> err.None? && enabled
      ensures h.Some? ==> h.value !in old(outstanding) && h.value >= old(nextHandle)
      ensures outstanding == old(outstanding) + (if h.Some? then {h.value} else {})
    {
      requests := requests + [ElasticRequest(duration, info)];
      if refusal.Some? || !enabled {
        return None, refusal;
      }
      h, err := Some(nextHandle), None;
      outstanding := outstanding + {nextHandle};
      nextHandle := nextHandle + 1;
    }

    method AdmittedWorkDone(h: Option<ElasticCPUWorkHandle>)
      requires Valid()
      requires h.Some? ==> h.value in outstanding
      modifies this`outstanding
      ensures Valid()
      ensures outstanding == old(outstanding) - (if h.Some? then {h.value} else {})
    {
      if h.Some? {
        outstanding := outstanding - {h.value};
      }
    }

    /** Whether a grant has used up its CPU time; nil never has. */
    predicate OverLimit(h: Option<ElasticCPUWorkHandle>)
      reads this
    {
      h.Some? && h.value in overLimit
    }

    method SetTenantWeights(w: WeightMap)
      modifies this`tenantWeights
      ensures tenantWeights == w
    {
      tenantWeights := w;
    }
  }

  /** The host-supplied source of tenant weights. */
  class TenantWeightProvider {
    var weights: TenantWeights
    ghost var polls: nat

    constructor (weights: TenantWeights)
      ensures this.weights == weights && polls == 0
    {
      this.weights, polls := weights, 0;
    }

    method GetTenantWeights() returns (w: TenantWeights)
      modifies this`polls
      ensures w == weights && polls == old(polls) + 1
    {
      w := weights;
      polls := polls + 1;
    }
  }
}
