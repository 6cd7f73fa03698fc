/** What one tick of the weight-redistribution loop leaves in a store's
    queue, and which ticks of the loop poll the weight provider. */
module TenantWeighting {

  import opened AdmissionTypes

  /** The weights the queue of store `id` holds once the per-store entries
      `stores` have been pushed in order, starting from `prior`: each entry
      for that store overwrites the previous one, cleared when per-store
      weighting is disabled; entries for other stores leave it alone. */
  function StoreWeightsAfter(stores: seq<TenantWeightsForStore>, id: StoreID, storesDisabled: bool, prior: WeightMap): (r: WeightMap)
  {
    if stores == [] then prior
    else if stores[|stores| - 1].storeID == id then (if storesDisabled then map[] else stores[|stores| - 1].weights)
    else StoreWeightsAfter(stores[..|stores| - 1], id, storesDisabled, prior)
  }

  /** A store no entry names keeps its weights. */
  lemma {:induction false} StoreWeightsAfterUnnamed(stores: seq<TenantWeightsForStore>, id: StoreID, storesDisabled: bool, prior: WeightMap)
    requires forall k :: 0 <= k < |stores| ==> stores[k].storeID != id
    ensures StoreWeightsAfter(stores, id, storesDisabled, prior) == prior
  {
    if stores != [] {
      StoreWeightsAfterUnnamed(stores[..|stores| - 1], id, storesDisabled, prior);
    }
  }

  /** A store gets the weights of the last entry naming it, or none at all
      when per-store weighting is disabled. */
  lemma {:induction false} StoreWeightsAfterLastEntry(stores: seq<TenantWeightsForStore>, id: StoreID, storesDisabled: bool, prior: WeightMap, k: nat)
    requires k < |stores| && stores[k].storeID == id
    requires forall j :: k < j < |stores| ==> stores[j].storeID != id
    ensures StoreWeightsAfter(stores, id, storesDisabled, prior) == if storesDisabled then map[] else stores[k].weights
  {
    if k < |stores| - 1 {
      StoreWeightsAfterLastEntry(stores[..|stores| - 1], id, storesDisabled, prior, k);
    }
  }

  /** With per-store weighting disabled, every store some entry names ends
      with no weights. */
  lemma {:induction false} StoreWeightsAfterDisabled(stores: seq<TenantWeightsForStore>, id: StoreID, prior: WeightMap, k: nat)
    requires k < |stores| && stores[k].storeID == id
    ensures StoreWeightsAfter(stores, id, true, prior) == map[]
  {
    if stores[|stores| - 1].storeID != id {
      StoreWeightsAfterDisabled(stores[..|stores| - 1], id, prior, k);
    }
  }

  /** The two weighting settings as one tick of the loop reads them. */
  datatype TickSettings = TickSettings(kvEnabled: bool, storesEnabled: bool)

  /** What one tick decides: whether it polls the provider, and the "all
      weights disabled" flag it leaves for the next tick. */
  datatype TickOutcome = TickOutcome(polls: bool, allWeightsDisabled: bool)

  /** One tick's decision. A tick that finds both weightings disabled after
      a tick that already had them disabled does nothing; any other tick
      polls and records whether both are disabled now. */
  function Tick(allWeightsDisabled: bool, s: TickSettings): (t: TickOutcome)
    ensures t.allWeightsDisabled <==> !s.kvEnabled && !s.storesEnabled
    ensures !t.polls <==> allWeightsDisabled && t.allWeightsDisabled
  {
    var kvDisabled := !s.kvEnabled;
    var kvStoresDisabled := !s.storesEnabled;
    if allWeightsDisabled && kvDisabled && kvStoresDisabled then TickOutcome(false, allWeightsDisabled)
    else TickOutcome(true, kvDisabled && kvStoresDisabled)
  }

  /** The loop's flag after the ticks `run`, starting from `start`. */
  function FlagAfter(start: bool, run: seq<TickSettings>): (r: bool)
  {
    if run == [] then start else Tick(FlagAfter(start, run[..|run| - 1]), run[|run| - 1]).allWeightsDisabled
  }

  /** How many times the ticks `run` poll the provider, starting from the
      flag `start` (the loop starts with `false`). */
  function Polls(start: bool, run: seq<TickSettings>): (r: nat)
  {
    if run == [] then 0
    else
      var prior := run[..|run| - 1];
      Polls(start, prior) + if Tick(FlagAfter(start, prior), run[|run| - 1]).polls then 1 else 0
  }

  predicate AllDisabled(run: seq<TickSettings>)
  {
    forall k :: 0 <= k < |run| ==> !run[k].kvEnabled && !run[k].storesEnabled
  }

  /** While both weightings stay disabled the provider is polled at most
      once: on the first such tick, and not at all when the previous tick
      had already found them disabled. */
  lemma {:induction false} DisabledRunPolls(start: bool, run: seq<TickSettings>)
    requires AllDisabled(run)
    ensures FlagAfter(start, run) == (start || run != [])
    ensures Polls(start, run) == if start || run == [] then 0 else 1
  {
    if run != [] {
      var prior := run[..|run| - 1];
      assert AllDisabled(prior) by {
        forall k | 0 <= k < |prior| ensures !prior[k].kvEnabled && !prior[k].storesEnabled {
          assert prior[k] == run[k];
        }
      }
      DisabledRunPolls(start, prior);
    }
  }

  /** A tick with either weighting enabled polls the provider once, however
      many ticks came before it. */
  lemma {:induction false} EnabledTickPolls(start: bool, run: seq<TickSettings>, s: TickSettings)
    requires s.kvEnabled || s.storesEnabled
    ensures Polls(start, run + [s]) == Polls(start, run) + 1
    ensures !FlagAfter(start, run + [s])
  {
    assert (run + [s])[..|run + [s]| - 1] == run;
  }
}
