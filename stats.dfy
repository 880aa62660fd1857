/// Turning the per-index counters of one stats response into instantaneous
/// indexing rates, by difference with the snapshot kept from the previous
/// poll, and copying the cluster health response.
module Stats {
  import opened Base
  import opened Models

  /// One entry of the stats response (the primaries' counters).
  datatype IndexStatsEntry = IndexStatsEntry(
    docCount: nat,
    indexTotal: nat,
    sizeInBytes: nat,
    health: string)

  /// The stats response: index name to its counters.
  type StatsResponse = map<string, IndexStatsEntry>

  /// The counters of every index, with the clock reading (milliseconds) at
  /// which they were taken.
  datatype Snapshot = Snapshot(takenAt: nat, indices: map<string, IndexSnapshot>)

  const MILLIS_PER_SEC: real := 1000.0

  /// `Instant::duration_since`, which saturates at zero.
  function Elapsed(start: nat, now: nat): nat {
    if now >= start then now - start else 0
  }

  function ToSnapshot(e: IndexStatsEntry): IndexSnapshot {
    IndexSnapshot(e.docCount, e.indexTotal, e.sizeInBytes, e.health)
  }

  function CurrentSnapshot(stats: StatsResponse): (m: map<string, IndexSnapshot>)
    ensures m.Keys == stats.Keys
  {
    map n | n in stats :: ToSnapshot(stats[n])
  }

  /// The instantaneous rate of one index: zero on the first poll, for an
  /// index the previous snapshot does not know, when no time has passed, or
  /// when the counter went backwards (a reset); otherwise the counter's
  /// increase per second.
  function InstantRate(previous: Option<Snapshot>, now: nat, name: string, current: IndexSnapshot): (r: real)
    ensures r >= 0.0
    ensures previous.None? ==> r == 0.0
  {
    match previous
    case None => 0.0
    case Some(prev) =>
      var elapsed := Elapsed(prev.takenAt, now) as real / MILLIS_PER_SEC;
      if name in prev.indices && elapsed > 0.0 && current.indexTotal >= prev.indices[name].indexTotal
      then (current.indexTotal - prev.indices[name].indexTotal) as real / elapsed
      else 0.0
  }

  /// The table row of one index: counters copied, rate computed.
  function RateRow(previous: Option<Snapshot>, now: nat, name: string, current: IndexSnapshot): IndexRate {
    IndexRate(name, current.docCount, InstantRate(previous, now, name, current), current.sizeBytes, current.health)
  }

  function Names(rates: seq<IndexRate>): set<string> {
    set i | 0 <= i < |rates| :: rates[i].name
  }

  /// `rates` has exactly one row per index of `current`, each built by `RateRow`.
  ghost predicate IsRateTable(rates: seq<IndexRate>, current: map<string, IndexSnapshot>, previous: Option<Snapshot>, now: nat) {
    && Names(rates) == current.Keys
    && (forall i, j :: 0 <= i < j < |rates| ==> rates[i].name != rates[j].name)
    && (forall i :: 0 <= i < |rates| ==>
          rates[i].name in current && rates[i] == RateRow(previous, now, rates[i].name, current[rates[i].name]))
  }

  /// Builds the rate table. The order of the rows is that of the hash map's
  /// iteration, which is unspecified; the loop picks any remaining name.
  method ComputeRates(current: map<string, IndexSnapshot>, previous: Option<Snapshot>, now: nat)
    returns (rates: seq<IndexRate>)
    ensures IsRateTable(rates, current, previous, now)
  {
    var remaining := current.Keys;
    rates := [];
    while remaining != {}
      invariant remaining <= current.Keys
      invariant Names(rates) == current.Keys - remaining
      invariant forall i, j :: 0 <= i < j < |rates| ==> rates[i].name != rates[j].name
      invariant forall i :: 0 <= i < |rates| ==>
        rates[i].name in current && rates[i] == RateRow(previous, now, rates[i].name, current[rates[i].name])
      decreases remaining
    {
      var name :| name in remaining;
      var row := RateRow(previous, now, name, current[name]);
      assert Names(rates + [row]) == Names(rates) + {name} by {
        var r' := rates + [row];
        assert forall i :: 0 <= i < |rates| ==> r'[i] == rates[i];
        assert r'[|rates|] == row;
      }
      rates := rates + [row];
      remaining := remaining - {name};
    }
  }

  /// On the first poll every row of the rate table shows a rate of zero,
  /// with its document count, size and health taken from the response.
  lemma FirstPollRatesAreZero(rates: seq<IndexRate>, current: map<string, IndexSnapshot>, now: nat)
    requires IsRateTable(rates, current, None, now)
    ensures forall i :: 0 <= i < |rates| ==> rates[i].ratePerSec == 0.0
    ensures forall i :: 0 <= i < |rates| ==>
      rates[i].name in current
      && rates[i].docCount == current[rates[i].name].docCount
      && rates[i].sizeBytes == current[rates[i].name].sizeBytes
      && rates[i].health == current[rates[i].name].health
  {
  }

  /// Rates are never negative, and they are exactly the counter increase
  /// per second when the index was known before, time passed and the
  /// counter did not go backwards; zero otherwise.
  lemma InstantRateCases(prev: Snapshot, now: nat, name: string, current: IndexSnapshot)
    ensures InstantRate(Some(prev), now, name, current) >= 0.0
    ensures var elapsed := Elapsed(prev.takenAt, now) as real / MILLIS_PER_SEC;
      if name in prev.indices && now > prev.takenAt && current.indexTotal >= prev.indices[name].indexTotal
      then InstantRate(Some(prev), now, name, current) * elapsed == (current.indexTotal - prev.indices[name].indexTotal) as real
      else InstantRate(Some(prev), now, name, current) == 0.0
  {
  }

  /// 100 operations, then 150 five seconds later, is 10 per second; a
  /// counter that drops to 90 gives 0.
  lemma RateExamples(name: string, a: IndexSnapshot, b: IndexSnapshot, c: IndexSnapshot)
    requires a.indexTotal == 100 && b.indexTotal == 150 && c.indexTotal == 90
    ensures InstantRate(Some(Snapshot(1000, map[name := a])), 6000, name, b) == 10.0
    ensures InstantRate(Some(Snapshot(1000, map[name := a])), 6000, name, c) == 0.0
  {
  }

  /// The cluster health response.
  datatype ClusterHealthResponse = ClusterHealthResponse(
    clusterName: string,
    status: string,
    numberOfNodes: nat,
    numberOfDataNodes: nat,
    activePrimaryShards: nat,
    activeShards: nat,
    relocatingShards: nat,
    initializingShards: nat,
    unassignedShards: nat,
    activeShardsPercentAsNumber: real,
    numberOfPendingTasks: nat)

  /// `fetch_cluster_health`: a failed request is passed on; a response is
  /// copied field by field.
  function FetchClusterHealth(response: Result<ClusterHealthResponse, string>): (r: Result<ClusterHealth, string>)
    ensures r.Err? <==> response.Err?
    ensures response.Err? ==> r.error == response.error
  {
    match response
    case Err(e) => Err(e)
    case Ok(h) => Ok(ClusterHealth(
      h.clusterName, h.status, h.numberOfNodes, h.numberOfDataNodes,
      h.activePrimaryShards, h.activeShards, h.relocatingShards,
      h.initializingShards, h.unassignedShards,
      h.activeShardsPercentAsNumber, h.numberOfPendingTasks))
  }

  /// The health summary carries the response's values unchanged.
  lemma ClusterHealthCopied(h: ClusterHealthResponse)
    ensures FetchClusterHealth(Ok(h)).Ok?
    ensures var c := FetchClusterHealth(Ok(h)).value;
      && c.clusterName == h.clusterName && c.status == h.status
      && c.numberOfNodes == h.numberOfNodes && c.numberOfDataNodes == h.numberOfDataNodes
      && c.activePrimaryShards == h.activePrimaryShards && c.activeShards == h.activeShards
      && c.relocatingShards == h.relocatingShards && c.initializingShards == h.initializingShards
      && c.unassignedShards == h.unassignedShards
      && c.activeShardsPercent == h.activeShardsPercentAsNumber
      && c.numberOfPendingTasks == h.numberOfPendingTasks
  {
  }

  /// The monitoring client; of its fields only the previous snapshot is state.
  class EsClient {
    var previousSnapshot: Option<Snapshot>

    constructor ()
      ensures previousSnapshot == None
    {
      previousSnapshot := None;
    }

    /// `fetch_index_rates`: a failed request leaves the snapshot alone; a
    /// response yields the rate table against the old snapshot and then
    /// becomes the new snapshot.
    method FetchIndexRates(response: Result<StatsResponse, string>, now: nat)
      returns (r: Result<seq<IndexRate>, string>)
      modifies this
      ensures response.Err? ==> r == Err(response.error) && previousSnapshot == old(previousSnapshot)
      ensures response.Ok? ==>
        && r.Ok?
        && IsRateTable(r.value, CurrentSnapshot(response.value), old(previousSnapshot), now)
        && previousSnapshot == Some(Snapshot(now, CurrentSnapshot(response.value)))
    {
      match response {
        case Err(e) =>
          return Err(e);
        case Ok(stats) =>
          var current := CurrentSnapshot(stats);
          var rates := ComputeRates(current, previousSnapshot, now);
          previousSnapshot := Some(Snapshot(now, current));
          return Ok(rates);
      }
    }
  }
}
