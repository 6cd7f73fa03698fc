# KV admission control integration, modelled in Dafny

This project models the layer of CockroachDB's KV server that sits between
incoming KV work and admission control (`pkg/kv/kvserver/kvadmission`). For
each batch request the controller decides whether it bypasses admission and
which capacity queues it must pass: the store write queue of the target
store, then either the elastic-CPU queue (lone export requests) or the
general KV work queue. It returns a `Handle` recording what was acquired,
gives back a store token when a later queue refuses, and releases everything
the handle records once the work is reported done. Beside that path the
model covers the `Pacer` used by CPU-bound rangefeed catch-up scans, one
tick of the tenant-weight redistribution loop, the out-of-band store reports
(`SnapshotIngested`, `FollowerStoreWriteBytes`), the accounting values
(`FollowerStoreWriteBytes.Merge`, the pooled `StoreWriteBytes`), and the two
elastic-CPU duration settings' validators.

Layout, one module per component:

- `types.dfy` (`AdmissionTypes`): identifiers, Go's integer widths, the
  request's admission header, `WorkInfo`, setting values, weights.
- `classification.dfy` (`Classification`): the bypass / source /
  create-time rule.
- `settings.dfy` (`ElasticCPUSettings`): the duration validators.
- `queues.dfy` (`AdmissionQueues`): the three queues, the store
  coordinators and the weight provider at their interface boundary. What a
  queue answers is read from oracle fields (`refusal`, `enabled`,
  `overLimit`, the provider's `weights`), so each contract holds for every
  answer the real queue could give. Each queue keeps the set (or, for the
  KV queue, the multiset of tenants) of tokens it has handed out and not
  had back, plus ghost logs of the calls it received.
- `accounting.dfy` (`Accounting`): follower write statistics with Go's
  wrapping int64 addition, and `StoreWriteBytes`.
- `weights.dfy` (`TenantWeighting`): what a weight tick leaves in a store's
  queue, and which ticks of a run poll the weight provider.
- `controller.dfy` (`KvAdmission`): `Handle` and `Controller`.
- `pacer.dfy` (`Pacing`): `Pacer`, `Pace`, `Close`.

The token discipline is proved, not assumed. Giving back an elastic grant
or a KV slot requires it to be outstanding. The store queue reports an
error for a token that is not outstanding. `AdmittedKVWorkDone` proves that
this error cannot happen for a handle returned by `AdmitKVWork`. That error
branch is the one the source makes fatal in test builds.

Three facts about the code shape the model:

- A write is passed through the store queue even when it bypasses
  admission (lines 215-233). Only the queue's own `AdmissionEnabled`
  answer decides whether a store token is recorded.
- The deferred elastic-CPU release at lines 256-261 can never run: nothing
  can fail after it is registered. The model leaves that dead branch out.
- The elastic-CPU queue may admit without handing out a grant (a nil
  handle). So after a successful `Pace` the pacer holds a grant unless the
  queue answered that way, and then it stays idle.

## Model

| member | source | states |
|---|---|---|
| `AdmissionTypes.ToWorkPriority` | pkg/kv/kvserver/kvadmission/kvadmission.go:191 | the header's int32 priority becomes an int8 work priority congruent to it modulo 256, equal to it when it fits in 8 bits |
| `Classification.Classify` | pkg/kv/kvserver/kvadmission/kvadmission.go:179-200 | source is the header's for the system tenant and FROM_SQL otherwise; bypass holds iff (system tenant and admin) or source OTHER or (bulk-only on and priority >= NormalPri); a non-bypassed request with create time 0 gets `now`, every other request keeps its create time |
| `Classification.AdmissionInfo` | pkg/kv/kvserver/kvadmission/kvadmission.go:201-206 | the work information every queue receives: the tenant, the header priority cut to an int8 work priority (congruent modulo 256), the bypass flag `Classify` decides, and a create time that is `now` for a non-bypassed request without one and the header's otherwise |
| `ElasticCPUSettings.ValidateDurationPerExportRequest` | pkg/kv/kvserver/kvadmission/kvadmission.go:41-51 | accepts exactly the durations in [10ms, 100ms]; below the minimum and above the maximum give their own error naming the bound and the value |
| `ElasticCPUSettings.ValidateDurationPerRangefeedScanUnit` | pkg/kv/kvserver/kvadmission/kvadmission.go:61-71 | the same range check for the rangefeed scan-unit setting |
| `Accounting.Wrap64` | pkg/kv/kvserver/kvadmission/kvadmission.go:406-408 | Go's int64 `+=` result: the int64 congruent to the sum modulo 2^64, the sum itself when it does not overflow |
| `Accounting.Wrap64Congruent` | pkg/kv/kvserver/kvadmission/kvadmission.go:406-408 | values congruent modulo 2^64 wrap to the same int64 |
| `Accounting.Add64Associative` | pkg/kv/kvserver/kvadmission/kvadmission.go:406-408 | wrapping int64 addition is associative |
| `Accounting.SumCommutative` | pkg/kv/kvserver/kvadmission/kvadmission.go:405-409 | merging two follower reports is commutative |
| `Accounting.SumAssociative` | pkg/kv/kvserver/kvadmission/kvadmission.go:405-409 | merging follower reports is associative, overflow included |
| `Accounting.SumIdentity` | pkg/kv/kvserver/kvadmission/kvadmission.go:405-409 | merging into a zero value yields the report merged |
| `Accounting.TotalRemoveAt` | pkg/kv/kvserver/kvadmission/kvadmission.go:405-409 | any one report of a sequence can be merged last without changing the total |
| `Accounting.TotalPermutation` | pkg/kv/kvserver/kvadmission/kvadmission.go:405-409 | merging the same reports in any order gives the same statistics |
| `Accounting.FollowerStoreWriteBytes.Merge` | pkg/kv/kvserver/kvadmission/kvadmission.go:405-409 | the new value is the field-wise wrapping sum of the old value and the report |
| `Accounting.NewStoreWriteBytes` | pkg/kv/kvserver/kvadmission/kvadmission.go:421-425 | returns a fresh, zeroed, unreleased instance |
| `Accounting.Release` | pkg/kv/kvserver/kvadmission/kvadmission.go:428-433 | nil is ignored; an instance is marked returned to the pool, contents untouched; releasing twice is refused |
| `TenantWeighting.StoreWeightsAfterUnnamed` | pkg/kv/kvserver/kvadmission/kvadmission.go:345-353 | a store no weight entry names keeps the weights it had |
| `TenantWeighting.StoreWeightsAfterLastEntry` | pkg/kv/kvserver/kvadmission/kvadmission.go:345-353 | a store ends with the weights of the last entry naming it, or none when per-store weighting is disabled |
| `TenantWeighting.StoreWeightsAfterDisabled` | pkg/kv/kvserver/kvadmission/kvadmission.go:348-351 | with per-store weighting disabled every named store ends with no weights |
| `TenantWeighting.Tick` | pkg/kv/kvserver/kvadmission/kvadmission.go:332-354 | a tick polls the provider unless the previous tick and this one both found both weightings disabled; the flag it leaves is "both weightings disabled now" |
| `TenantWeighting.DisabledRunPolls` | pkg/kv/kvserver/kvadmission/kvadmission.go:328-354 | over any run of ticks with both weightings disabled the provider is polled once if the loop's flag was clear and never if it was set, and the flag ends set |
| `TenantWeighting.EnabledTickPolls` | pkg/kv/kvserver/kvadmission/kvadmission.go:332-338 | after any run of ticks, a tick with either weighting enabled polls the provider exactly once and clears the flag |
| `KvAdmission.Controller.constructor` | pkg/kv/kvserver/kvadmission/kvadmission.go:150-165 | a controller built from queues that are all present or all absent is valid |
| `KvAdmission.Controller.AdmitKVWork` | pkg/kv/kvserver/kvadmission/kvadmission.go:171-271 | without queues: a tenant-only handle, no error, nothing consulted. With queues: the store queue is asked only for writes that are not a lone heartbeat on a store with a queue; the elastic queue, with the export duration, only for lone exports and the KV queue only for the rest, and neither when the store queue refused or admitted without charging; every queue gets the classified `WorkInfo`; the error is the first refusal met; on error the empty handle, no token outstanding, and a charged store token reported with zero bytes; on success the handle records exactly the fresh tokens acquired, and its store receipt stays the zero value when no store queue is recorded |
| `KvAdmission.Controller.AdmitElasticOrKV` | pkg/kv/kvserver/kvadmission/kvadmission.go:235-269 | a lone export asks only the elastic queue, with the export duration, and any other request only the KV queue, both with the request's `WorkInfo`; a refusal is returned with the empty handle, and a store token the handle held is given back with zero bytes; on success the handle gains exactly the fresh grant or KV slot acquired and keeps its store token |
| `KvAdmission.Controller.StoreWorkDone` | pkg/kv/kvserver/kvadmission/kvadmission.go:278-293 | a live store token goes back to its queue with the work done given, the queue's error answer cannot occur, and a receipt without a store queue changes nothing; the deferred rollback at lines 225-230 is this call with zero bytes |
| `KvAdmission.Controller.AdmittedKVWorkDone` | pkg/kv/kvserver/kvadmission/kvadmission.go:274-295 | the elastic grant, if any, goes back; the KV slot goes back only when the handle says so; the store token goes back only when the handle records a store queue, with `*writeBytes` or zero bytes; the store's error branch is unreachable |
| `KvAdmission.Controller.AdmitRangefeedRequest` | pkg/kv/kvserver/kvadmission/kvadmission.go:298-316 | a fresh idle pacer on the elastic queue with the scan-unit duration, the request's priority and create time, never bypassing |
| `KvAdmission.Controller.WeightTick` | pkg/kv/kvserver/kvadmission/kvadmission.go:331-354 | the new flag and the number of provider calls are those of `Tick` on the old flag and the settings; if the flag was already set and both weightings are still disabled, the provider is not called and no weights change; otherwise one provider call, node weights (empty when KV weighting is disabled) pushed to the KV and elastic queues, and every store queue left with the weights of its last entry (empty when store weighting is disabled), stores without a queue skipped |
| `KvAdmission.Controller.SnapshotIngested` | pkg/kv/kvserver/kvadmission/kvadmission.go:364-372 | the stats reach the store's queue as stats to ignore; a store without a queue is left alone |
| `KvAdmission.Controller.FollowerStoreWriteBytes` | pkg/kv/kvserver/kvadmission/kvadmission.go:375-387 | a report with zero write and ingested bytes, or for a store without a queue, does nothing; otherwise the queue records it as bypassed work with its entry count and bytes |
| `KvAdmission.ServeKVWork` | pkg/kv/kvserver/kvadmission/kvadmission.go:76-84 | admitting a request and, on success, reporting it done leaves every queue's outstanding tokens as they were: each token acquired is released exactly once |
| `Pacing.Pace` | pkg/kv/kvserver/kvadmission/kvadmission.go:449-467 | a nil pacer returns no error; a held grant not over its limit is kept and nothing is asked; otherwise a new grant of `unit` is asked for, and a held grant over its limit is given back first and is never the grant kept; the queue's refusal is returned with the pacer idle; the pacer's grants account for the whole change to the queue's outstanding set, and a new grant is one the queue had not handed out before |
| `Pacing.Close` | pkg/kv/kvserver/kvadmission/kvadmission.go:470-477 | leaves the pacer idle, giving back the grant it held and nothing else; safe on nil and on an idle pacer |
| `Pacing.CloseTwice` | pkg/kv/kvserver/kvadmission/kvadmission.go:470-477 | closing twice gives the grant back once |

## Left out

- The goroutine, `time.Ticker` and quiesce select of `SetTenantWeightProvider` (lines 323-360): concurrency and timing. `WeightTick` is one tick, with the loop's "all weights disabled" flag passed in and returned.
- The admission algorithms of the KV work queue, the store queues and the elastic-CPU queue, `OverLimit`, and the elastic queue's clamping of the requested duration: they are outside this package. They are oracles here.
- Request contexts (cancellation, deadlines): a cancelled admit is one of the refusals the oracles can give.
- `timeutil.Now`: passed in as `now`. Cluster settings: passed in as `SettingValues`. Pebble's ingest statistics: an opaque value forwarded unchanged.
- The request-type predicates `IsAdmin`, `IsWrite`, `IsSingleHeartbeatTxnRequest` and `IsSingleExportRequest`: inputs, since they are computed outside this package.
- The text of the validators' error messages: the model returns a structured error naming the setting, the bound and the value.
- The rate-limited logging and the test-build `log.Fatalf` on a failed store completion (lines 286-292): no I/O is modelled. The branch is proved unreachable instead.
- `sync.Pool` (lines 416-418): `NewStoreWriteBytes` allocates, and `Release` only marks the instance as returned.
- `ContextWithPacer` / `PacerFromContext` (lines 479-497): context-value plumbing.
- The `ProvisionedBandwidth` setting (lines 391-395): informational, read elsewhere.
- The deferred elastic-CPU release in `AdmitKVWork` (lines 256-261): it can never run, as noted above.
- `KvAdmission.Controller.WeightTick`, `KvAdmission.Controller.SnapshotIngested`, `KvAdmission.Controller.FollowerStoreWriteBytes`, `Pacing.Pace`: calls on a controller built without queues are not modelled (the first three require the queues, and `Pace` requires its pacer to have an elastic queue). The code then calls methods on nil queue pointers (lines 342-343, 367, 381, 460), and what those methods do with a nil receiver is not part of this model. A pacer built by `AdmitRangefeedRequest` on such a controller can therefore be closed but not paced.
- The raft interaction test driver in `pkg/raft/rafttest`: a test harness, not admission logic.
