/// The records that flow between the monitoring client and the dashboard.
/// Unsigned counters are `nat`; floating-point rates are `real`.
module Models {
  import opened Base

  /// One row of the index table: the smoothed indexing rate of one index.
  datatype IndexRate = IndexRate(
    name: string,
    docCount: nat,
    ratePerSec: real,
    sizeBytes: nat,
    health: string)

  /// The raw counters of one index at one poll.
  datatype IndexSnapshot = IndexSnapshot(
    docCount: nat,
    indexTotal: nat,
    sizeBytes: nat,
    health: string)

  datatype ShardInfo = ShardInfo(
    shardId: nat,
    primary: bool,
    state: string,
    node: string,
    docs: Option<nat>,
    size: Option<string>)

  datatype DataStreamDetails = DataStreamDetails(
    name: string,
    timestampField: string,
    generation: nat,
    totalBackingIndices: nat,
    backingIndexPosition: nat,
    isWriteIndex: bool,
    template: Option<string>,
    dataRetention: Option<string>)

  /// The extended metadata shown in the details popup. `creationDate` holds
  /// the parsed millisecond timestamp; its calendar rendering is not modelled.
  datatype IndexDetails = IndexDetails(
    name: string,
    providedName: Option<string>,
    creationDate: Option<int>,
    primaryShards: nat,
    replicaShards: nat,
    isFrozen: bool,
    isPartial: bool,
    ilmPolicy: Option<string>,
    ilmPhase: Option<string>,
    totalSegments: nat,
    shardAllocation: seq<ShardInfo>,
    templates: seq<string>,
    uuid: Option<string>,
    health: Option<string>,
    status: Option<string>,
    docCount: nat,
    ratePerSec: real,
    sizeBytes: nat,
    dataStream: Option<DataStreamDetails>)

  datatype ClusterHealth = ClusterHealth(
    clusterName: string,
    status: string,
    numberOfNodes: nat,
    numberOfDataNodes: nat,
    activePrimaryShards: nat,
    activeShards: nat,
    relocatingShards: nat,
    initializingShards: nat,
    unassignedShards: nat,
    activeShardsPercent: real,
    numberOfPendingTasks: nat)

  /// `ClusterHealth::default()`.
  const DEFAULT_CLUSTER_HEALTH: ClusterHealth :=
    ClusterHealth("", "", 0, 0, 0, 0, 0, 0, 0, 0.0, 0)

  /// The value model of the filter language: what an item is serialised to
  /// before the compiled filter runs on it.
  datatype Json =
    | JNull
    | JBool(b: bool)
    | JNumber(n: real)
    | JString(s: string)
    | JArray(items: seq<Json>)
    | JObject(fields: seq<(string, Json)>)

  /// `serde_json::to_value` of an `IndexRate`, with its field names. It
  /// cannot fail for this record.
  function Serialize(r: IndexRate): Option<Json> {
    Some(JObject([
      ("name", JString(r.name)),
      ("doc_count", JNumber(r.docCount as real)),
      ("rate_per_sec", JNumber(r.ratePerSec)),
      ("size_bytes", JNumber(r.sizeBytes as real)),
      ("health", JString(r.health))]))
  }
}
