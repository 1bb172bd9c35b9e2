/**
 * The query parameters the facade operations build before delegating to the
 * request layer. An optional key is present exactly when its argument is
 * non-empty (a string or a list) or non-zero (a number), as Python's
 * truthiness test in the source decides.
 */
module Query {
  import opened Http
  import Commas

  /** Every part free of commas, so that a comma-joined value can be split back. */
  predicate CommaFree(parts: seq<string>)
  {
    forall i :: 0 <= i < |parts| ==> ',' !in parts[i]
  }

  /** `get_repairs`: the optional cluster name and the comma-joined run states. */
  function RepairsQuery(cluster: string, states: seq<string>): (p: Params)
    ensures p.Keys <= {"cluster_name", "state"}
    ensures "cluster_name" in p <==> cluster != ""
    ensures "cluster_name" in p ==> p["cluster_name"] == Str(cluster)
    ensures "state" in p <==> |states| > 0
    ensures "state" in p ==> p["state"] == Str(Commas.Join(states, ','))
  {
    var p := map[];
    var p := if cluster != "" then p["cluster_name" := Str(cluster)] else p;
    var p := if states != [] then p["state" := Str(Commas.Join(states, ','))] else p;
    p
  }

  /** The states a server reads back from a `get_repairs` query are the ones asked for. */
  lemma RepairsStatesRecoverable(cluster: string, states: seq<string>)
    requires |states| > 0 && CommaFree(states)
    ensures "state" in RepairsQuery(cluster, states)
    ensures Commas.Split(RepairsQuery(cluster, states)["state"].s, ',') == states
  {
    Commas.SplitJoin(states, ',');
  }

  /** `get_schedules`: the optional cluster name and keyspace. */
  function SchedulesQuery(cluster: string, keyspace: string): (p: Params)
    ensures p.Keys <= {"clusterName", "keyspace"}
    ensures "clusterName" in p <==> cluster != ""
    ensures "clusterName" in p ==> p["clusterName"] == Str(cluster)
    ensures "keyspace" in p <==> keyspace != ""
    ensures "keyspace" in p ==> p["keyspace"] == Str(keyspace)
  {
    var p := map[];
    var p := if cluster != "" then p["clusterName" := Str(cluster)] else p;
    var p := if keyspace != "" then p["keyspace" := Str(keyspace)] else p;
    p
  }

  const ScheduleRequiredKeys: set<string> :=
    {"clusterName", "keyspace", "owner", "scheduleDaysBetween", "repairParallelism",
     "incrementalRepair", "scheduleTriggerTime", "repairThreadCount", "adaptive",
     "percentUnrepairedThreshold"}

  const ScheduleOptionalKeys: set<string> :=
    {"tables", "segmentCountPerNode", "intensity", "nodes", "datacenters", "blacklistedTables"}

  /**
   * `add_schedule`: ten keys always sent, six only when their argument is
   * truthy. List values are passed as lists (the transport repeats the key).
   * `scheduleTriggerTime` is the already formatted timestamp.
   */
  function AddScheduleQuery(
    cluster: string, keyspace: string, owner: string, scheduleDaysBetween: int,
    segmentCountPerNode: int, intensity: real, repairParallelism: string,
    repairThreadCount: int, nodes: seq<string>, scheduleTriggerTime: string,
    datacenters: seq<string>, tables: seq<string>, blacklistedTables: seq<string>,
    incrementalRepair: bool, adaptive: bool, percentUnrepairedThreshold: int): (p: Params)
    ensures ScheduleRequiredKeys <= p.Keys <= ScheduleRequiredKeys + ScheduleOptionalKeys
    ensures p["clusterName"] == Str(cluster) && p["keyspace"] == Str(keyspace)
    ensures p["owner"] == Str(owner) && p["scheduleDaysBetween"] == Int(scheduleDaysBetween)
    ensures p["repairParallelism"] == Str(repairParallelism)
    ensures p["incrementalRepair"] == Bool(incrementalRepair)
    ensures p["scheduleTriggerTime"] == Str(scheduleTriggerTime)
    ensures p["repairThreadCount"] == Int(repairThreadCount) && p["adaptive"] == Bool(adaptive)
    ensures p["percentUnrepairedThreshold"] == Int(percentUnrepairedThreshold)
    ensures ("tables" in p <==> |tables| > 0) && ("tables" in p ==> p["tables"] == Strs(tables))
    ensures ("segmentCountPerNode" in p <==> segmentCountPerNode != 0)
    ensures "segmentCountPerNode" in p ==> p["segmentCountPerNode"] == Int(segmentCountPerNode)
    ensures ("intensity" in p <==> intensity != 0.0)
    ensures "intensity" in p ==> p["intensity"] == Real(intensity)
    ensures ("nodes" in p <==> |nodes| > 0) && ("nodes" in p ==> p["nodes"] == Strs(nodes))
    ensures ("datacenters" in p <==> |datacenters| > 0)
    ensures "datacenters" in p ==> p["datacenters"] == Strs(datacenters)
    ensures ("blacklistedTables" in p <==> |blacklistedTables| > 0)
    ensures "blacklistedTables" in p ==> p["blacklistedTables"] == Strs(blacklistedTables)
  {
    assert ScheduleRequiredKeys !! ScheduleOptionalKeys;
    ScheduleRequired(cluster, keyspace, owner, scheduleDaysBetween, repairParallelism,
                     incrementalRepair, scheduleTriggerTime, repairThreadCount, adaptive,
                     percentUnrepairedThreshold)
    + ScheduleOptionals(segmentCountPerNode, intensity, nodes, datacenters, tables, blacklistedTables)
  }

  /** The ten `add_schedule` keys that are always sent. */
  function ScheduleRequired(
    cluster: string, keyspace: string, owner: string, scheduleDaysBetween: int,
    repairParallelism: string, incrementalRepair: bool, scheduleTriggerTime: string,
    repairThreadCount: int, adaptive: bool, percentUnrepairedThreshold: int): (p: Params)
    ensures p.Keys == ScheduleRequiredKeys
    ensures p["clusterName"] == Str(cluster) && p["keyspace"] == Str(keyspace)
    ensures p["owner"] == Str(owner) && p["scheduleDaysBetween"] == Int(scheduleDaysBetween)
    ensures p["repairParallelism"] == Str(repairParallelism)
    ensures p["incrementalRepair"] == Bool(incrementalRepair)
    ensures p["scheduleTriggerTime"] == Str(scheduleTriggerTime)
    ensures p["repairThreadCount"] == Int(repairThreadCount) && p["adaptive"] == Bool(adaptive)
    ensures p["percentUnrepairedThreshold"] == Int(percentUnrepairedThreshold)
  {
    map[
      "clusterName" := Str(cluster),
      "keyspace" := Str(keyspace),
      "owner" := Str(owner),
      "scheduleDaysBetween" := Int(scheduleDaysBetween),
      "repairParallelism" := Str(repairParallelism),
      "incrementalRepair" := Bool(incrementalRepair),
      "scheduleTriggerTime" := Str(scheduleTriggerTime),
      "repairThreadCount" := Int(repairThreadCount),
      "adaptive" := Bool(adaptive),
      "percentUnrepairedThreshold" := Int(percentUnrepairedThreshold)]
  }

  /** The six `add_schedule` keys that are sent only when their argument is truthy. */
  function ScheduleOptionals(segmentCountPerNode: int, intensity: real, nodes: seq<string>,
                             datacenters: seq<string>, tables: seq<string>,
                             blacklistedTables: seq<string>): (p: Params)
    ensures p.Keys <= ScheduleOptionalKeys
    ensures ("tables" in p <==> |tables| > 0) && ("tables" in p ==> p["tables"] == Strs(tables))
    ensures ("segmentCountPerNode" in p <==> segmentCountPerNode != 0)
    ensures "segmentCountPerNode" in p ==> p["segmentCountPerNode"] == Int(segmentCountPerNode)
    ensures ("intensity" in p <==> intensity != 0.0)
    ensures "intensity" in p ==> p["intensity"] == Real(intensity)
    ensures ("nodes" in p <==> |nodes| > 0) && ("nodes" in p ==> p["nodes"] == Strs(nodes))
    ensures ("datacenters" in p <==> |datacenters| > 0)
    ensures "datacenters" in p ==> p["datacenters"] == Strs(datacenters)
    ensures ("blacklistedTables" in p <==> |blacklistedTables| > 0)
    ensures "blacklistedTables" in p ==> p["blacklistedTables"] == Strs(blacklistedTables)
  {
    var p := map[];
    var p := if tables != [] then p["tables" := Strs(tables)] else p;
    var p := if segmentCountPerNode != 0 then p["segmentCountPerNode" := Int(segmentCountPerNode)] else p;
    var p := if intensity != 0.0 then p["intensity" := Real(intensity)] else p;
    var p := if nodes != [] then p["nodes" := Strs(nodes)] else p;
    var p := if datacenters != [] then p["datacenters" := Strs(datacenters)] else p;
    var p := if blacklistedTables != [] then p["blacklistedTables" := Strs(blacklistedTables)] else p;
    p
  }

  /**
   * `create_cluster_snapshot` and `create_host_snapshot` build the same
   * parameters: name and owner always, the rest when given; the tables are
   * comma-joined.
   */
  function SnapshotQuery(snapshotName: string, owner: string, cause: string,
                         keyspace: string, tables: seq<string>): (p: Params)
    ensures {"snapshot_name", "owner"} <= p.Keys <= {"snapshot_name", "owner", "keyspace", "tables", "cause"}
    ensures p["snapshot_name"] == Str(snapshotName) && p["owner"] == Str(owner)
    ensures ("keyspace" in p <==> keyspace != "") && ("keyspace" in p ==> p["keyspace"] == Str(keyspace))
    ensures "tables" in p <==> |tables| > 0
    ensures "tables" in p ==> p["tables"] == Str(Commas.Join(tables, ','))
    ensures ("cause" in p <==> cause != "") && ("cause" in p ==> p["cause"] == Str(cause))
  {
    map["snapshot_name" := Str(snapshotName), "owner" := Str(owner)]
    + SnapshotOptionals(cause, keyspace, tables)
  }

  /** The snapshot keys sent only when given. */
  function SnapshotOptionals(cause: string, keyspace: string, tables: seq<string>): (p: Params)
    ensures p.Keys <= {"keyspace", "tables", "cause"}
    ensures ("keyspace" in p <==> keyspace != "") && ("keyspace" in p ==> p["keyspace"] == Str(keyspace))
    ensures "tables" in p <==> |tables| > 0
    ensures "tables" in p ==> p["tables"] == Str(Commas.Join(tables, ','))
    ensures ("cause" in p <==> cause != "") && ("cause" in p ==> p["cause"] == Str(cause))
  {
    var p := map[];
    var p := if keyspace != "" then p["keyspace" := Str(keyspace)] else p;
    var p := if tables != [] then p["tables" := Str(Commas.Join(tables, ','))] else p;
    var p := if cause != "" then p["cause" := Str(cause)] else p;
    p
  }

  /** The tables named in a snapshot query can be read back as the list given. */
  lemma SnapshotTablesRecoverable(snapshotName: string, owner: string, cause: string,
                                  keyspace: string, tables: seq<string>)
    requires |tables| > 0 && CommaFree(tables)
    ensures "tables" in SnapshotQuery(snapshotName, owner, cause, keyspace, tables)
    ensures Commas.Split(SnapshotQuery(snapshotName, owner, cause, keyspace, tables)["tables"].s, ',') == tables
  {
    Commas.SplitJoin(tables, ',');
  }
}
