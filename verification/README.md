# Enshrouded operator: a verified model

The Enshrouded operator keeps a game server running on Kubernetes. It reconciles one custom
resource into a StatefulSet, a claim for the save data, a disruption budget, a network policy,
a Service and a config Secret. It holds updates back while people play, takes a snapshot before
an update and drives vertical scaling. A metrics sidecar next to the game queries the server over
UDP and writes the player count into the status of the very resource the operator reconciles.

This project models that behaviour and proves what it guarantees.

- **Reconcile protocol** (`Protocol`, `Invariants`). The cluster is a `World`: every version ever
  stored of the resource and of its StatefulSet, the other children, the Secrets of the namespace
  (the generated config Secret among those of the users), snapshots, and where
  the operator and the sidecar are in their programs. One `Action` is one API call or one move of
  somebody else. Calls may fail, fail after taking effect, lose their reply, read from a stale
  cache or conflict on the version; users edit, delete and re-create the resource; the clock
  is read anew at every call. A run is any sequence of actions, so a statement about `Run` is one
  about every interleaving.
- **What runs guarantee** (`Guarantees`, `StrictUpdates`, `SaveData`, `UserSecrets`, `SidecarAccess`,
  `StatusMeaning`, `ScalingMeaning`, `Convergence`, `Liveness`, `Standstill`, `Publications`): the two status writers, deferred
  reconciles, strict snapshots, save data, the users' Secrets, convergence, idempotence, coherence
  of the gate, progress, and the gauges.
- **What does not hold** (`Witnesses` on `Stretches`, and parts of `Guarantees` and `SaveData`): whole
  runs from the empty cluster that break what one might expect.
- **The controller as a program** (`Reconciler`). A class whose methods are the controller's,
  changing the cluster call by call while others interfere; whatever `Reconcile` does is
  proved to be a run of the protocol.
- **The parts** (`Cron`, `CronSyntax`, `A2S`, `Handshake`, `Scraping`, `Config`, `Objects`,
  `Webhook`, `StatusRules`, `Vertical`, `Snapshots`, `Gauges`). Loops and in-place updates are
  methods with invariants, proved against functions whose meaning is stated separately.

`dafny verify dfyconfig.toml` checks everything.

## What is not true, and when it is

Some promises hold of the code only under a condition. Each is listed with the run from the empty
cluster or the input that breaks it, and with the condition under which it holds.

- *The stored player count and version are the sidecar's last report.* Not if the resource is
  deleted and re-created between the sidecar's read and its patch: the merge patch leaves
  unchanged fields out (`CrossedPatchMixes`; exactly `PatchStoresReportIff`).
- *The claim is gone when a server that does not retain it goes.* Not if the cached read of the
  claim misses it (`StaleReadLeaksClaim`; exactly `ReleasedBeforeUnguarded`).
- *A successful reconcile leaves the wanted state behind.* A stale read of the disruption budget
  or of an obsolete config Secret is accepted silently (`StaleReadsKeepOldChildren`; exactly
  `Converged`, and `BudgetAfterIff` for the one call).
- *Budget and deferral agree.* Not if a window opens between the two evaluations
  (`BudgetAndGateDisagree`, `WindowOpens`); while people play, exactly when both gave the same
  answer (`ProgressCoheres`).
- *A missing StatefulSet is created.* Not while a recommendation stands that the operator is to
  apply: it looks for the StatefulSet first and fails (`StandstillReached`, then
  `AdviceBlocksCreation` for every continuation). `AloneConverges` says exactly when an undisturbed
  reconcile succeeds.
- *The operator leaves the users' Secrets alone.* It overwrites or deletes whatever Secret is called
  `<name>-config`, without asking whose it is. If the password is kept there, it is deleted and then
  missed (`CleanupDeletesPassword`; exactly `PasswordSurvivesIff`); if a group's is, it is overwritten and
  read as empty the next time, which restarts the pod although nobody changed anything
  (`GenerationLosesPassword`; exactly `ConfigSurvivesIff`). Secrets of any other name are never written
  (`RunLeavesSecrets`), so a spec that does not refer to that name is safe (`CredentialsKept`).
- *Access goes with the sidecar.* Service account, role and binding stay when the sidecar is switched
  off (`AccessOutlivesSidecar`); no call ever takes them away (`RunTakesNothing`), and a success leaves
  exactly what it found, plus all three for an enabled sidecar (`AccessAfterSuccess`).
- *One phase series per server, that of the stored phase.* Not after `setPhaseError`, which writes a
  phase without publishing it (`UnpublishedPhaseLingers`), not after a lost reply
  (`LostReplyLeavesGaugeBehind`), and not after a user takes the finalizer away
  (`StrippedFinalizerLeavesPhase`). On every other run it does (`GaugeShowsStoredPhase`); exactly, call by
  call, `PublishLeavesOneIff` and `ForgetLeavesNoneIff`.
- *One info series per game server.* Not after an outage, which makes the sidecar forget the old labels
  (`OutageLeavesOldInfo`; exactly `OneInfoIff`).
- *Effective ports differ.* The validator alone lets two kinds of specs through (`PortsCollideIff`); with
  defaulting they always differ (`AdmittedChain`).
- The API documentation (`api/v1alpha1/enshroudedserver_types.go:280`) gives `0 */6 * * *` as
  "every 6 hours". The matcher has no steps; `*/6` matches the value 6 only
  (`StepFieldMatchesOnlyItsStep`). The model follows the code.

## Model

| member | source | states |
|---|---|---|
| `Guarantees.TwoWriters` | cmd/metrics-sidecar/main.go:357-379 | in every interleaving the stored phase, conditions and deferral flag are the operator's last landed verdict, the stored players and version the sidecar's last report unless that patch crossed a re-creation, and every status ever stored is coherent |
| `Guarantees.PatchStoresReportIff` | cmd/metrics-sidecar/main.go:364-375 | a landed merge patch stores the report if and only if each field it leaves out already holds the reported value; on the incarnation that was read it always does |
| `Guarantees.CrossedPatchMixes` | cmd/metrics-sidecar/main.go:364-375 | a run from the empty cluster after which the stored report is neither the old nor the reported one |
| `Guarantees.DeferralSeesPlayers` | internal/controller/enshroudedserver_controller.go:187-219 | whenever a run commits updateDeferred, the status it is committed to counts at least one player |
| `Guarantees.FrozenWhileDeferred` | internal/controller/enshroudedserver_controller.go:179-203 | over any run of deferred reconciles the StatefulSet is neither created nor re-created after a deletion, it stays unless somebody deletes it, nothing but the game container's cpu and memory requests changes, and memory is never lowered or dropped |
| `Invariants.RunInv` | internal/controller/enshroudedserver_controller.go:101-226 | the protocol invariant (coherent statuses, game container first, work only on stored versions, finalizer before children, gate decisions, snapshot evidence, writers' last words) holds in every world of every run |
| `StrictUpdates.ImageChangeIsProven` | internal/controller/enshroudedserver_controller.go:416-456 | one step: the game image of an existing StatefulSet is changed only by the rollout write, to the image of the spec, in strict mode only on a ready snapshot without an error |
| `StrictUpdates.StrictImageChange` | internal/controller/enshroudedserver_backup.go:179-266 | in every run, a strict image change is preceded in the same reconcile by the request for a snapshot and then by a poll that saw it in the cluster, ready and without an error; it is this server's own new snapshot if the name was free and nobody replaced it |
| `StrictUpdates.RequestMakesOwnIff` | internal/controller/enshroudedserver_backup.go:215-223 | a request makes a new snapshot of this server if and only if the name is free |
| `StrictUpdates.ImageChangeRequestsSnapshot` | internal/controller/enshroudedserver_controller.go:435-449 | in every run, an image change under SnapshotBeforeUpdate or StrictSnapshotBeforeUpdate is preceded in the same reconcile by the request for a snapshot or the report that it cannot be had |
| `StrictUpdates.SnapshotCallsWarranted` | internal/controller/enshroudedserver_controller.go:435-449 | in every run, calls about a pre-update snapshot are made only under these two strategies and for a new image, so none when the strategy is unset or NoSnapshot |
| `StrictUpdates.ReadTells` | internal/controller/enshroudedserver_controller.go:424-433 | a StatefulSet the read does not show is created, which fails if there is one |
| `StrictUpdates.PollTells` | internal/controller/enshroudedserver_backup.go:230-258 | gone or broken ends the wait, with failure in strict mode and the rollout otherwise; ready leads to the rollout; anything else is polled again |
| `StrictUpdates.RolloutLeavesRest` | internal/controller/enshroudedserver_controller.go:451-455 | the rollout write replaces template and replicas and leaves the rest of the StatefulSet |
| `SaveData.NoChildBeforeFinalizer` | internal/controller/enshroudedserver_controller.go:109-121 | in every run, whatever the operator writes to a child (claim, access objects, budget, config Secret, autoscaler, policy, Service, StatefulSet, snapshots), the version it works on is stored and carries the finalizer; a version being deleted causes no write but the release of the claim |
| `SaveData.OthersSnapshotsKept` | internal/controller/enshroudedserver_backup.go:84-134 | no call of the operator, scheduled pruning included, touches a snapshot of another server |
| `SaveData.ClaimChanges` | internal/controller/enshroudedserver_controller.go:229-302 | the claim is created as built from a stored guarded spec, deleted only for a stored version that is being deleted without retaining it, and never rewritten |
| `SaveData.SaveDataKept` | internal/controller/enshroudedserver_controller.go:229-262 | in every run in which no stored version is being deleted without retaining its data, an existing claim stays exactly as it is |
| `SaveData.RetainedDataKept` | internal/controller/enshroudedserver_controller.go:236-251 | in every run, as long as every stored version being deleted has retainOnDelete unset or true, an existing claim stays exactly as it is |
| `SaveData.DisposableDataReleased` | internal/controller/enshroudedserver_controller.go:236-255 | in every run, before the finalizer is dropped from a version with retainOnDelete false the same reconcile has looked for the claim, and if that read was current the claim is deleted or gone by then |
| `SaveData.OthersFinalizersStay` | internal/controller/enshroudedserver_controller.go:254-257 | dropping the finalizer leaves everybody else's, and the resource goes exactly if there are none |
| `SaveData.OthersFinalizersKept` | internal/controller/enshroudedserver_controller.go:114-121 | adding it keeps everybody else's and all the rest |
| `SaveData.ClaimCallTells` | internal/controller/enshroudedserver_controller.go:275-301 | a claim the read shows is left alone, one it does not show is created, which fails if there is one |
| `SaveData.ReleasedBeforeUnguarded` | internal/controller/enshroudedserver_controller.go:236-255 | when the finalizer removal lands for a server that does not retain its data, the claim is deleted or absent if and only if the read did not miss it |
| `SaveData.StaleReadLeaksClaim` | internal/controller/enshroudedserver_controller.go:238-248 | a run in which the resource goes, the reconcile succeeds and the claim stays |
| `Convergence.Converged` | internal/controller/enshroudedserver_controller.go:101-226 | from any cluster state whatsoever, with everybody interfering and nobody deleting children or writing the config Secret after the first read, a successful undeferred reconcile leaves template, replicas, Service, network policy, budget and config Secret equal to those built from spec and Secrets, if and only if two reads were not stale; an enabled sidecar has its access objects |
| `Convergence.Idempotent` | internal/controller/enshroudedserver_controller.go:101-226 | two successful reconciles of a server on the same spec and the same indexed Secrets end in the same managed state, whatever the two clusters looked like before |
| `Convergence.BudgetAfterIff` | internal/controller/enshroudedserver_pdb.go:54-76 | an accepted budget call leaves the wanted value if and only if the read was current or the value was right already |
| `Convergence.BudgetRefusedIff` | internal/controller/enshroudedserver_pdb.go:54-76 | the call is refused exactly if the budget shown is neither the wanted nor the stored one |
| `Witnesses.StaleReadsKeepOldChildren` | internal/controller/enshroudedserver_controller.go:405-413 | a run from the empty cluster whose last reconcile succeeds undeferred, with the obsolete config Secret still there and the budget not reopened |
| `Witnesses.BudgetAndGateDisagree` | internal/controller/enshroudedserver_pdb.go:30-35 | a run from the empty cluster whose last reconcile succeeds with people playing, the budget closed and the StatefulSet rolled out |
| `Witnesses.WindowOpens` | internal/controller/enshroudedserver_controller.go:938-970 | every daily window is closed an hour before it opens, so such runs exist |
| `Witnesses.StandstillReached` | internal/controller/enshroudedserver_vpa.go:203-211 | a run from the empty cluster: the server is up, advice arrives, the StatefulSet is deleted, and the standstill has begun |
| `Witnesses.UnpublishedPhaseLingers` | internal/controller/enshroudedserver_controller.go:786-790 | a run from the empty cluster with one landed setPhaseError whose gauge calls leave two phases |
| `Witnesses.LostReplyLeavesGaugeBehind` | internal/controller/enshroudedserver_controller.go:771-781 | a run from the empty cluster with one lost reply after which the gauge does not show the stored phase |
| `Witnesses.StrippedFinalizerLeavesPhase` | internal/controller/enshroudedserver_controller.go:229-260 | a run from the empty cluster in which a user takes the finalizer away, the server goes and its phase stays on the gauge |
| `Convergence.ProgressCoheres` | internal/controller/enshroudedserver_controller.go:187-225 | flag, condition, requeue and skipped rollout always agree; the budget agrees with them if and only if nobody plays or both window evaluations agree |
| `Convergence.GateCoherence` | internal/controller/enshroudedserver_pdb.go:27-77 | in every run from any reachable world, for every committed reconcile with agreeing window evaluations, closed budget, flag, condition, requeue and skipped rollout are equivalent and exclude an active window |
| `Convergence.WantedHash` | internal/controller/enshroudedserver_controller.go:126-161 | in the wanted state the config Secret exists if and only if there are user groups, and the pod annotation is the hash of its content, or of the password, or absent |
| `Convergence.SecretChangeRestarts` | internal/controller/enshroudedserver_controller.go:123-161 | Secrets change the wanted state if and only if they change the annotation, so every such change restarts the pod |
| `Liveness.AloneConverges` | internal/controller/enshroudedserver_controller.go:101-226 | from any cluster state an undisturbed reconcile with current reads ends within 17 calls and 18 polls; it is committed if and only if the Secrets resolve (after the cleanup), advice finds a StatefulSet, and a snapshot insisted on for a new image is ready within 18 polls, and fails otherwise; deferred if and only if people play outside every window; a success leaves everything as wanted |
| `Liveness.FailsForSnapshotIff` | internal/controller/enshroudedserver_backup.go:225-265 | where everything else is in order it fails if and only if it is strict, the image is new and the snapshot is not ready within 18 polls |
| `UserSecrets.RunLeavesSecrets` | internal/controller/enshroudedserver_controller.go:367-413 | in every run, a Secret not called <name>-config stays as it is unless somebody else writes it |
| `UserSecrets.CredentialsKept` | internal/controller/enshroudedserver_controller.go:126-161 | a spec that does not refer to that name keeps configuration, hash and outcome over every run in which nobody else writes its Secrets |
| `UserSecrets.PasswordSurvivesIff` | internal/controller/enshroudedserver_controller.go:134-156 | without user groups the password is still found after the cleanup if and only if it is not kept in a Secret of that name |
| `UserSecrets.ConfigSurvivesIff` | internal/controller/enshroudedserver_controller.go:367-402 | with user groups the next configuration is the same if and only if every group that keeps its password there had the value it then finds |
| `Witnesses.CleanupDeletesPassword` | internal/controller/enshroudedserver_controller.go:405-413 | a run from the empty cluster, with current reads, in which the operator deletes the user's password Secret and sets phase Error |
| `Witnesses.GenerationLosesPassword` | internal/controller/enshroudedserver_controller.go:390-401 | a run from the empty cluster, with nobody else moving, in which two successes in a row leave different configurations because the first overwrote the user's Secret |
| `SidecarAccess.RunTakesNothing` | internal/controller/enshroudedserver_sidecar.go:31-43 | in every run, no access object goes unless somebody else deletes it |
| `SidecarAccess.AccessAfterSuccess` | internal/controller/enshroudedserver_sidecar.go:31-43 | from any cluster state, a committed reconcile leaves exactly the access objects it found, plus all three if the sidecar is enabled |
| `Witnesses.AccessOutlivesSidecar` | internal/controller/enshroudedserver_sidecar.go:32-34 | a run from the empty cluster that ends with a success, the sidecar disabled and all three objects present |
| `Objects.ChildrenFit` | internal/controller/enshroudedserver_controller.go:519-704 | Service, network policy, claim labels and StatefulSet select the pod, the Service forwards exactly the game's ports, every mount has its volume, and the config volume is there if and only if there are user groups |
| `Objects.LetsInWhatListens` | internal/controller/enshroudedserver_controller.go:797-899 | the network policy admits a number and protocol if and only if some container of the pod listens on it |
| `Objects.SelectsOnlyOwn` | internal/controller/enshroudedserver_controller.go:1043-1049 | StatefulSet, Service and network policy select the pods of their own server and of no other |
| `Objects.ServersApart` | internal/controller/enshroudedserver_controller.go:1043-1049 | two servers never share labels, a claim or a config Secret |
| `Objects.ClaimAsSpecified` | internal/controller/enshroudedserver_controller.go:268-297 | the claim has the size and class asked for; only an unset size becomes ten gibibytes |
| `Objects.PodAsSpecified` | internal/controller/enshroudedserver_controller.go:519-704 | image, pull policy, ports, resources and save directory of the game as asked for; sidecar, account and probe exactly if enabled; annotation exactly with a hash |
| `Objects.SidecarAsSpecified` | internal/controller/enshroudedserver_sidecar.go:169-225 | the sidecar queries the port the game listens on, and both probes ask where the sidecar listens |
| `Objects.EgressAsSpecified` | internal/controller/enshroudedserver_controller.go:890-896 | outbound game traffic is allowed on exactly the two game ports |
| `Objects.SettingsByEnv` | internal/controller/enshroudedserver_controller.go:602-618 | without user groups the environment holds exactly what the generated file would, and the password from its Secret |
| `Objects.SettingsByFile` | internal/controller/enshroudedserver_controller.go:579-601 | with user groups the game is told the path at which the config Secret is mounted |
| `Standstill.AdviceBlocksCreation` | internal/controller/enshroudedserver_vpa.go:203-211 | while advice that asks for anything stands, even changing, and there is no StatefulSet, no number of reconciles creates one or reaches the status update |
| `Publications.GaugeShowsStoredPhase` | internal/controller/enshroudedserver_controller.go:771-781 | in every clean run the phase gauge shows exactly the stored phase, none before the first status and none after the finalizer is gone |
| `Gauges.Collector.SetServerMetrics` | internal/metrics/collector.go:81-100 | the gauges become those of `Applied`, all four vectors |
| `Gauges.Collector.DeleteServerMetrics` | internal/metrics/collector.go:103-108 | the same for the deletion |
| `Gauges.OthersUntouched` | internal/metrics/collector.go:81-108 | nothing shown for another server changes |
| `Gauges.PublishShows` | internal/metrics/collector.go:81-100 | the value of every gauge of the server after a publication |
| `Publications.PublishesStored` | internal/controller/enshroudedserver_controller.go:709-783 | a publication carries exactly what the commit stored, over the phase stored before |
| `Gauges.PublishLeavesOneIff` | internal/metrics/collector.go:90-93 | exactly the new phase is shown if and only if nothing but it and the named old phase was |
| `Gauges.ForgetLeavesNoneIff` | internal/metrics/collector.go:103-108 | nothing is shown any more if and only if nothing but the named phase was |
| `Gauges.OnePhase` | internal/metrics/collector.go:81-108 | over any run of calls naming the phase last published each server shows exactly that phase, none once forgotten |
| `Gauges.MisnamedPhaseLingers` | internal/metrics/collector.go:90-93 | a publication that does not name the phase last published leaves both |
| `Publications.BoardChainIsCalls` | internal/controller/enshroudedserver_controller.go:771-781 | gauges updated along a run are those of the run's calls in order |
| `Reconciler.Controller.Reconcile` | internal/controller/enshroudedserver_controller.go:101-226 | one reconcile under any failures and interference is a run of the protocol and of its gauge calls, keeps the invariant, ends committed or failed or with nothing to do, and converges as above if nobody deletes children after its read |
| `Reconciler.Controller.HandleDeletion` | internal/controller/enshroudedserver_controller.go:229-260 | the deletion path is a run of the protocol, deletes the metrics when its removal is acknowledged, and ends |
| `Reconciler.Controller.ReconcileStatefulSet` | internal/controller/enshroudedserver_controller.go:416-456 | read, optional snapshot and version-checked write are a run of the protocol, ending rolled out or failed |
| `Reconciler.Controller.SnapshotBeforeUpdate` | internal/controller/enshroudedserver_backup.go:179-266 | create and poll loop against the clock: a run of the protocol, at most 18 polls; without strictness the rollout always follows, with it only on a ready snapshot without an error |
| `Reconciler.Controller.ReconcileVolumeSnapshot` | internal/controller/enshroudedserver_backup.go:39-95 | the scheduled snapshot: if due, stored and then pruned to the retain count (three if unset), exactly that many being left unless a delete fails, the deleted ones no newer than those left, other servers' untouched |
| `Reconciler.Controller.ReconcileMetricsSidecarRbac` | internal/controller/enshroudedserver_sidecar.go:31-43 | the access objects of an enabled sidecar one after the other, until a call fails |
| `Reconciler.Controller.ReconcileCredentials` | internal/controller/enshroudedserver_controller.go:126-161 | config Secret written over or removed among the users' Secrets, annotation hash and the two ways to fail, as in the protocol step |
| `Reconciler.Controller.ReconcilePvc` | internal/controller/enshroudedserver_controller.go:265-302 | the claim is created if the read showed none and left alone otherwise; creating an existing one fails |
| `Reconciler.Controller.ReconcilePdb` | internal/controller/enshroudedserver_pdb.go:27-77 | the budget step of the protocol, including the accepted "already exists" and the conflict |
| `Reconciler.Controller.ReconcileVpa` | internal/controller/enshroudedserver_vpa.go:49-156 | the autoscaler object is created, switched or removed; nothing without its definition |
| `Reconciler.Controller.ApplyVpaRecommendation` | internal/controller/enshroudedserver_vpa.go:166-271 | the scaling step of the protocol, including the error without a StatefulSet and the conflict |
| `Reconciler.Controller.CheckDeferral` | internal/controller/enshroudedserver_controller.go:190-203 | the gate of the protocol |
| `Reconciler.Controller.GetStatefulSet` | internal/controller/enshroudedserver_controller.go:419-449 | creation, conflict, or the decision whether a snapshot is due |
| `Reconciler.Controller.UpdateStatus` | internal/controller/enshroudedserver_controller.go:709-783 | the version-checked status commit of the protocol, the result of the reconcile, and the publication exactly when it landed and was acknowledged |
| `StatusRules.DeriveStatus` | internal/controller/enshroudedserver_controller.go:712-769 | the derived status, field by field, sidecar fields untouched |
| `StatusMeaning.CommittedStatusTells` | internal/controller/enshroudedserver_controller.go:709-773 | in every run, a landed commit stores Running exactly if a replica of the StatefulSet it read is ready, Updating exactly if none is and two different revisions are reported, Pending exactly otherwise, each with its reason; the deferral with its condition; and leaves all else |
| `StatusMeaning.GateMeaning` | internal/controller/enshroudedserver_controller.go:187-203 | the rollout is held back exactly if the server asks for it, people play and no window of the list denotes the hour and weekday of its zone |
| `StatusMeaning.BudgetMeaning` | internal/controller/enshroudedserver_pdb.go:30-35 | exactly then a current read closes the budget, and else it opens it |
| `StatusMeaning.ScheduleMeaning` | internal/controller/enshroudedserver_backup.go:40-50 | a scheduled snapshot is taken exactly if backups are enabled and the schedule, read as a window, is open |
| `StatusRules.SetConditionInPlace` | internal/controller/enshroudedserver_controller.go:751-766 | a condition is replaced where it stands, or added at the end |
| `StatusRules.StatusAfterCoherent` | internal/controller/enshroudedserver_controller.go:709-769 | condition kinds unique; flag if and only if its condition is there and true; Running means ready with replicas, Pending and Updating not ready with none |
| `StatusRules.SetConditionEffect` | internal/controller/enshroudedserver_controller.go:751-766 | setting a condition changes the lookup of that kind only and keeps kinds unique |
| `StatusRules.RemoveConditionEffect` | internal/controller/enshroudedserver_controller.go:768-768 | removing a condition removes the lookup of that kind only and keeps kinds unique |
| `Vertical.FindTarget` | internal/controller/enshroudedserver_vpa.go:190-205 | the target of the first recommendation for the game container, if it asks for anything |
| `Vertical.ScaleRequests` | internal/controller/enshroudedserver_vpa.go:225-259 | cpu follows, memory follows unless lowered while somebody plays; `changed` if and only if the requests differ |
| `Vertical.PlanRecommendation` | internal/controller/enshroudedserver_vpa.go:213-266 | the object to write, none if and only if nothing would change |
| `Vertical.ScaledKeeps` | internal/controller/enshroudedserver_vpa.go:166-271 | images, order of containers and everything but the game's cpu and memory requests stay; with players memory is kept |
| `ScalingMeaning.RecommendationArrives` | internal/controller/enshroudedserver_vpa.go:190-270 | with a current read the first recommendation for the game arrives in the stored requests: cpu always, memory unless people play and it would be lowered; what is not asked for and all else stays |
| `ScalingMeaning.NoAdviceNoChange` | internal/controller/enshroudedserver_vpa.go:167-205 | in any other mode, without an autoscaler object or without an entry for the game, the StatefulSet is left alone |
| `ScalingMeaning.AutoscalerAsAsked` | internal/controller/enshroudedserver_vpa.go:55-155 | the autoscaler object is there exactly if scaling is enabled, acts by itself exactly in mode InPlace, and keeps its recommendations |
| `Snapshots.Prune` | internal/controller/enshroudedserver_backup.go:98-134 | exactly min(n, retainCount) are left on success; whether or not a delete fails, only own snapshots go and each is no newer than any left |
| `Snapshots.NewestSurvives` | internal/controller/enshroudedserver_backup.go:119-133 | a snapshot newer than all others of its server survives pruning |
| `Snapshots.SortByAge` | internal/controller/enshroudedserver_backup.go:119-124 | in place, ascending and a permutation |
| `Snapshots.ListsReordered` | internal/controller/enshroudedserver_backup.go:104-126 | the sorted items still are every snapshot of the server exactly once |
| `Snapshots.SnapshotBeforeUpdate` | internal/controller/enshroudedserver_backup.go:215-265 | at most 18 polls (reached when the clock does not drift); strict proceeds if and only if the last poll was ready without error; otherwise the update is never blocked |
| `Config.BuildServerConfig` | internal/controller/enshroudedserver_controller.go:307-363 | the generated configuration with every group's password resolved, or none if a Secret is missing |
| `Config.ConfigTells` | internal/controller/enshroudedserver_controller.go:307-358 | every entry of the configuration comes from its own field, every group with its rights and the password its reference leads to |
| `Config.CredentialsTell` | internal/controller/enshroudedserver_controller.go:126-161 | with groups the reconcile fails exactly if a Secret is missing; without, the password is missing exactly if Secret or key is; the hash is of the one or the other |
| `Config.IndexSecrets` | internal/controller/enshroudedserver_controller.go:1059-1071 | the names of all Secrets a server refers to |
| `Config.IndexedIff` | internal/controller/enshroudedserver_controller.go:1059-1071 | the index names exactly the Secrets the spec refers to |
| `Config.OnlyIndexedSecretsMatter` | internal/controller/enshroudedserver_controller.go:126-161 | stores that agree on the index entry give the same configuration, hash and error outcome |
| `Config.FindServersForSecret` | internal/controller/enshroudedserver_controller.go:1093-1111 | exactly the servers of the namespace whose index contains the Secret |
| `Config.SecretChangeFindsServer` | internal/controller/enshroudedserver_controller.go:1053-1111 | no missed wake-up: a Secret change that alters what a server's reconcile learns is one that finds the server |
| `Webhook.Candidate.Default` | internal/webhook/v1alpha1/enshroudedserver_webhook.go:65-103 | in-place defaulting yields `Defaulted` of the old spec |
| `Webhook.DefaultPreservesMeaning` | internal/webhook/v1alpha1/enshroudedserver_webhook.go:65-103 | defaulting is idempotent, and every child and the retain decision are the same as without it |
| `Webhook.ValidateServer` | internal/webhook/v1alpha1/enshroudedserver_webhook.go:154-216 | every objection, in order |
| `Webhook.AcceptedIff` | internal/webhook/v1alpha1/enshroudedserver_webhook.go:154-216 | exactly which specs are accepted, field by field |
| `Webhook.DefaultFills` | internal/webhook/v1alpha1/enshroudedserver_webhook.go:65-103 | exactly the unset fields are filled, with these values |
| `Webhook.ValidateUpdate` | internal/webhook/v1alpha1/enshroudedserver_webhook.go:125-145 | accepts if and only if the spec is valid and storage does not shrink |
| `Webhook.UpdateAcceptedIff` | internal/webhook/v1alpha1/enshroudedserver_webhook.go:125-145 | exactly which updates are accepted |
| `Webhook.AdmittedChain` | internal/webhook/v1alpha1/enshroudedserver_webhook.go:119-216 | along any chain of admitted writes storage stays positive and never shrinks and the effective ports differ |
| `Webhook.PortsCollideIff` | internal/webhook/v1alpha1/enshroudedserver_webhook.go:154-216 | exactly which accepted specs would have colliding ports without defaulting |
| `Cron.Atoi` | internal/controller/enshroudedserver_controller.go:1032-1040 | the 64-bit wrapped value of the digits |
| `Cron.SplitByComma` | internal/controller/enshroudedserver_controller.go:1006-1018 | the pieces between the commas |
| `Cron.SplitFields` | internal/controller/enshroudedserver_controller.go:972-989 | the maximal blank-free runs, in order |
| `Cron.MatchRange` | internal/controller/enshroudedserver_controller.go:1020-1030 | inclusive range at the first dash, otherwise equality |
| `Cron.MatchCronField` | internal/controller/enshroudedserver_controller.go:993-1004 | star, or some piece matches |
| `Cron.InWindow` | internal/controller/enshroudedserver_controller.go:938-970 | zone prefix, five fields, hour and weekday |
| `Cron.IsInMaintenanceWindow` | internal/controller/enshroudedserver_controller.go:922-933 | some window is open |
| `CronSyntax.ValueOfDecimal` | internal/controller/enshroudedserver_controller.go:1032-1040 | reading back a printed number gives the number |
| `CronSyntax.PiecesOfJoin` | internal/controller/enshroudedserver_controller.go:1006-1018 | splitting undoes joining |
| `CronSyntax.JoinOfPieces` | internal/controller/enshroudedserver_controller.go:1006-1018 | joining undoes splitting, for every text |
| `CronSyntax.FieldMeaning` | internal/controller/enshroudedserver_controller.go:993-1030 | a printed field matches exactly the values it denotes |
| `CronSyntax.BodyWords` | internal/controller/enshroudedserver_controller.go:972-989 | any layout of blanks and tabs yields the five printed fields |
| `CronSyntax.WindowMeaning` | internal/controller/enshroudedserver_controller.go:938-970 | a printed window is open if and only if local hour and weekday lie in the denoted sets; other fields do not matter and an unknown zone is UTC |
| `CronSyntax.WindowsMeaning` | internal/controller/enshroudedserver_controller.go:922-933 | a list of printed windows is open if and only if some window of the list denotes the hour and weekday of its zone |
| `CronSyntax.WindowsAsSet` | internal/controller/enshroudedserver_controller.go:927-932 | order and repetition of windows do not matter, whatever their texts |
| `CronSyntax.MoreWindows` | internal/controller/enshroudedserver_controller.go:922-933 | an appended list opens exactly when one of its parts does, and the empty list never |
| `CronSyntax.FiveFieldsNeeded` | internal/controller/enshroudedserver_controller.go:957-961 | a text of more or fewer than five words is never open |
| `CronSyntax.FirstDashSplits` | internal/controller/enshroudedserver_controller.go:1020-1028 | a piece is split at its first dash |
| `CronSyntax.PlainPieceMatches` | internal/controller/enshroudedserver_controller.go:1029-1029 | a piece without a dash matches the number it reads as, an empty one zero |
| `CronSyntax.ValueInRange` | internal/controller/enshroudedserver_controller.go:1032-1040 | every text reads as a 64-bit integer |
| `CronSyntax.StepFieldMatchesOnlyItsStep` | internal/controller/enshroudedserver_controller.go:991-1004 | `*/n` matches n and nothing else |
| `A2S.ByteReader.ReadByte` | cmd/metrics-sidecar/main.go:245-252 | the byte at the cursor, zero behind the end |
| `A2S.ByteReader.ReadString` | cmd/metrics-sidecar/main.go:263-274 | the bytes up to the next NUL and the cursor behind it; fails if and only if there is none |
| `A2S.ByteReader.Skip` | cmd/metrics-sidecar/main.go:276-278 | advances the cursor, possibly behind the end |
| `A2S.ParseInfo` | cmd/metrics-sidecar/main.go:191-238 | succeeds if and only if header, type and at least four NULs from byte 6 on are there; returns the segments and counts the packet carries; never reads out of bounds |
| `A2S.StartCountsNuls` | cmd/metrics-sidecar/main.go:202-215 | the n-th string starts inside the packet if and only if there are n NULs before it |
| `A2S.RoundTrip` | cmd/metrics-sidecar/main.go:191-238 | parsing an encoded response gives back its fields whatever bytes trail |
| `A2S.SampleReads` | cmd/metrics-sidecar/main.go:191-238 | a response given byte by byte reads as its name, map, players, maximum and version |
| `A2S.RefusedFor` | cmd/metrics-sidecar/main.go:191-215 | a packet is refused for the first thing that is wrong with it |
| `Handshake.BuildRequest` | cmd/metrics-sidecar/main.go:106-114 | header, payload and a copy of the challenge bytes |
| `Handshake.RequestOnTheWire` | cmd/metrics-sidecar/main.go:98-114 | the request byte by byte |
| `Handshake.ChallengeOnTheWire` | cmd/metrics-sidecar/main.go:150-156 | exactly nine bytes or more beginning FF FF FF FF 41 are a challenge |
| `Handshake.RequestsSent` | cmd/metrics-sidecar/main.go:133-168 | the first request carries no challenge, a second one goes out exactly after a challenge and carries its four bytes |
| `Handshake.RoundTrip` | cmd/metrics-sidecar/main.go:171-188 | one send, then everything up to the first datagram of the server is consumed |
| `Handshake.QueryInfo` | cmd/metrics-sidecar/main.go:133-168 | at most two requests, the second with the four challenge bytes although their buffer is reused; the outcome is that of `Outcome` |
| `Handshake.OutcomeIgnoresStrangers` | cmd/metrics-sidecar/main.go:171-188 | datagrams of other sources change neither the result nor the requests |
| `Handshake.SecondChallengeRejected` | cmd/metrics-sidecar/main.go:150-168 | a second challenge is an error |
| `Handshake.QueryRecoversInfo` | cmd/metrics-sidecar/main.go:133-238 | challenged or not, amid strangers, the query returns exactly the fields the server encoded |
| `Scraping.Sidecar.Scrape` | cmd/metrics-sidecar/main.go:385-448 | all gauges, readiness, remembered info and the report after one scrape, none if patching is switched off |
| `Scraping.ScrapeTells` | cmd/metrics-sidecar/main.go:395-447 | what is shown and reported after an answer and after a failed query |
| `Scraping.OneInfoIff` | cmd/metrics-sidecar/main.go:432-440 | exactly the current labels are shown if and only if nothing but them and the remembered ones was |
| `Scraping.OneInfo` | cmd/metrics-sidecar/main.go:385-448 | without an outage exactly the labels of the last answer are shown |
| `Scraping.OutageLeavesOldInfo` | cmd/metrics-sidecar/main.go:404-412 | after an outage the old labels linger if and only if the new ones differ |

## Left out

- Several servers at once: a `World` holds one server; only the gauges, the Secret index and the snapshots distinguish servers.
- Content of the sidecar's service account, role and binding, the S3 sidecar with its check for a credentials Secret, and the fixed DNS and HTTPS rules of the network policy: straight object construction.
- Resource policies (minimum and maximum) of the autoscaler object: they do not influence any modelled branch.
- SHA-256 and JSON: a digest is a symbolic value, equal exactly on equal content.
- Numbers in environment values are kept as numbers (`:9090` and `15s` as 9090 and 15), and thresholds a probe leaves out have the values the API server fills in.
- Quantities are integers, time zones a map from zone name to local hour and weekday, IP syntax a predicate handed in.
- Condition messages, transition times, log output and error texts.
- Reading and writing the config Secret, Service or network policy is one step, as is reading all user Secrets; the values read may be any, and failures and conflicts around the step are covered.
- In the protocol pruning may delete any snapshots of its own server, as a stale list would have it; `Prune` states what it does with a current list.
- `patchServerStatus` is the pair of protocol steps `SidecarGet` and `SidecarPatch` and not a method of its own.
- Restart of the operator: the protocol keeps `seen` and the gauges across reconciles, as one process does.
- Bytes of a cron expression outside ASCII: text is a sequence of characters.
- `main`, flags, HTTP handlers, deep copies and manifests.
