/** The EnshroudedServer resource as stored in the API server. */
module Api {

  datatype Option<+T> = None | Some(value: T)

  // ------------------------------------------------------------ spec

  datatype SecretRef = SecretRef(name: string, key: string)

  datatype UserGroup = UserGroup(
    name: string, password: Option<SecretRef>,
    canKickBan: bool, canAccessInventories: bool, canEditWorld: bool, canEditBase: bool, canExtendBase: bool,
    reservedSlots: int)

  datatype Image = Image(repository: string, tag: string, pullPolicy: string)

  /** Sizes are quantities, counted in bytes; zero stands for an unset quantity. */
  datatype Storage = Storage(size: int, className: Option<string>, retainOnDelete: Option<bool>)

  datatype Strategy = Unset | NoSnapshot | SnapshotBeforeUpdate | StrictSnapshotBeforeUpdate

  datatype UpdatePolicy = UpdatePolicy(deferWhilePlaying: bool, windows: seq<string>, strategy: Strategy)

  datatype MetricsSidecar = MetricsSidecar(enabled: bool, image: string, metricsPort: int, scrapeSeconds: int)

  datatype ScalingMode = ModeUnset | Off | WhenIdle | InPlace

  datatype VerticalScaling = VerticalScaling(enabled: bool, mode: ScalingMode)

  /** Scheduled snapshots; a retain count of zero stands for an unset one. */
  datatype Backup = Backup(enabled: bool, schedule: string, retainCount: nat)

  datatype Resources = Resources(requests: map<string, int>, limits: map<string, int>)

  datatype Spec = Spec(
    serverName: string, password: Option<SecretRef>,
    port: int, steamPort: int, slots: int, ip: string,
    image: Image, resources: Resources, storage: Storage,
    groups: seq<UserGroup>, policy: UpdatePolicy,
    sidecar: MetricsSidecar, scaling: VerticalScaling, backup: Backup)

  // ------------------------------------------------------------ status

  datatype Phase = NoPhase | Pending | Running | Updating | Error

  datatype Condition = Condition(kind: string, holds: bool, reason: string, generation: nat)

  const READY := "Ready"
  const UPDATE_DEFERRED := "UpdateDeferred"

  /** `activePlayers` and `gameVersion` belong to the sidecar, all else to the operator. */
  datatype Status = Status(
    phase: Phase, readyReplicas: nat, activePlayers: nat, gameVersion: string,
    updateDeferred: bool, conditions: seq<Condition>)

  const NO_STATUS := Status(NoPhase, 0, 0, "", false, [])

  // ------------------------------------------------------------ object

  const FINALIZER := "enshrouded.enshrouded.io/finalizer"

  datatype Server = Server(
    uid: nat, generation: nat, deleting: bool, finalizers: set<string>, spec: Spec, status: Status)
  {
    predicate Guarded() { FINALIZER in finalizers }
  }

  /** The save data is kept unless the spec says otherwise. */
  predicate Retains(spec: Spec) {
    spec.storage.retainOnDelete.None? || spec.storage.retainOnDelete.value
  }
}
