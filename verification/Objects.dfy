/** The API objects the controllers read, reduced to the fields they use. */
module Objects {

  datatype Option<+T> = None | Some(value: T)

  /** Every declared restore phase; `NoPhase` is the empty string of a new object. */
  datatype Phase =
    | NoPhase
    | Started
    | Shutdown
    | Restore
    | PostRestorePodCleanup
    | InitialRestartCluster
    | PostRestoreNodeCleanup
    | RestartCluster
    | Finished
    | Failed

  datatype RestoreSpec = RestoreSpec(clusterName: string, backupName: string)

  datatype RestoreStatus = RestoreStatus(phase: Phase, conditions: seq<string>)

  datatype RestoreObject = RestoreObject(
    labels: map<string, string>, deleting: bool, spec: RestoreSpec, status: RestoreStatus)

  datatype Address = Address(kind: string, address: string)

  /** `clusterLabel` is the cluster-name label, `clusterName` the cluster of the
      machine's spec, `configName` the RKE2Config it was bootstrapped from. */
  datatype Machine = Machine(
    namespace: string, name: string, clusterLabel: string, clusterName: string,
    configName: string, nodeRef: Option<string>, addresses: seq<Address>)

  datatype Backup = Backup(clusterName: string, machineName: string, location: string, manual: bool)
}
