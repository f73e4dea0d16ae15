/** The operator as a protocol: one server resource, its child objects, the reconcile
    loop, the metrics sidecar, the users and the rest of the cluster.

    A `World` is everything that is stored, plus where the operator and the sidecar are
    in their programs.  An `Action` is one step of somebody: one API call of the
    operator or the sidecar, or one change made by the environment; its arguments carry
    whatever is outside the program's control (failures, stale reads, the clock).
    `Step` is total: an action that is not possible in a world leaves it as it is.  So a
    run is any sequence of actions, and what holds of `Run(w, actions)` for all
    `actions` holds in every interleaving.
 */
module Protocol {
  import opened Api
  import opened Config
  import opened Cron
  import opened Objects
  import opened Snapshots
  import opened StatusRules
  import opened Vertical

  // ------------------------------------------------------------ API calls

  // A call may fail before it takes effect, or take effect and still be reported as failed.
  // Both are runs here: the operator may give up before any call and after any call.  Only
  // the last call of a reconcile carries its reply, which may be lost.

  function Latest<T>(log: seq<Option<T>>): Option<T> {
    if log == [] then None else log[|log| - 1]
  }

  /** A version-checked write succeeds only for the version it was derived from. */
  predicate IsLatest<T>(log: seq<Option<T>>, version: nat) {
    version + 1 == |log|
  }

  // ------------------------------------------------------------ state

  datatype Vpa = Vpa(inPlace: bool, recommendations: seq<Recommendation>)

  /** The part of the status each of the two writers owns. */
  datatype Report = Report(players: nat, version: string)
  datatype Verdict = Verdict(phase: Phase, readyReplicas: nat, updateDeferred: bool, conditions: seq<Condition>)

  function ReportOf(s: Status): Report { Report(s.activePlayers, s.gameVersion) }
  function VerdictOf(s: Status): Verdict { Verdict(s.phase, s.readyReplicas, s.updateDeferred, s.conditions) }

  datatype Result = Succeeded | Requeue | Failed

  /** The call the operator makes next. */
  datatype Pc =
    | Finished(result: Result)
    | AtFinalizer | AtCredentials | AtPhaseError | AtClaim | AtAccess | AtBudget | AtVpa | AtScaling | AtPolicy
    | AtGate | AtStatefulSet | AtSnapshot | AtPoll | AtRollout | AtService | AtSchedule | AtStatus
    | AtClaimDelete | AtUnguard

  /** The local state of a reconcile.  `server` is the copy it works on, read or written as
      version `version`; the flags record what it has seen and done so far. */
  datatype Operator = Operator(
    pc: Pc, version: nat, server: Server,
    observed: Secrets, hash: Option<Digest>, missedConfig: bool,
    budgetWindow: bool, missedBudget: bool,
    gateWindow: bool, deferred: bool,
    base: nat, snapshot: string, evidence: Option<Snapshot>, applied: bool,
    statusWindow: bool, committed: bool,
    missedClaim: bool)

  /** The sidecar rests, or holds what it read and what it is about to report. */
  datatype Sidecar = Resting | Holding(uid: nat, base: Report, report: Report)

  /** What the metrics sidecar needs to patch the status. */
  datatype Access = Account | Role | Binding

  /** The other child objects; `budget` is the maximum number of unavailable pods. */
  datatype Children = Children(
    claim: Option<Claim>, access: set<Access>, budget: Option<nat>,
    service: Option<Service>, policy: Option<NetworkPolicy>, vpa: Option<Vpa>)

  /** The sidecar's last report and the operator's last verdict that took effect on the
      current resource, and whether that report was a patch computed from another
      incarnation of the resource. */
  datatype History = History(report: Report, verdict: Verdict, crossed: bool)

  /** `servers` and `sets` hold every version ever stored of the resource and of its
      StatefulSet; `None` is a version in which the object does not exist.  `seen` is the
      newest resource version the operator's cache has shown. */
  datatype World = World(
    name: string,
    servers: seq<Option<Server>>, uids: nat,
    sets: seq<Option<StatefulSet>>,
    kids: Children, secrets: Secrets, snapshots: Store,
    op: Operator, seen: nat, sidecar: Sidecar, history: History)

  // ------------------------------------------------------------ actions

  datatype Child = AccessChild | BudgetChild | ServiceChild | PolicyChild | VpaChild

  /** The calls of a reconcile, in the order of the program. */
  datatype Call =
    | Read(at: nat)
    | AddFinalizer
    | Credentials(found: bool, shown: Secrets)
    | PhaseError(lands: bool)
    | EnsureClaim(found: bool)
    | EnsureAccess(made: nat)
    | EnsureBudget(saw: Option<nat>, now: Instant)
    | EnsureVpa(installed: bool)
    | ApplyRecommendation(at: nat)
    | EnsurePolicy
    | Gate(now: Instant)
    | ReadStatefulSet(at: nat)
    | CreateSnapshot(snapshot: Snapshot)
    | PollSnapshot
    | SnapshotTrouble
    | UpdateStatefulSet
    | EnsureService
    | TakeSnapshot(snapshot: Snapshot, now: Instant, left: Store, deleted: bool)
    | CommitStatus(at: nat, now: Instant, acknowledged: bool)
    | DeleteClaim(found: bool)
    | RemoveFinalizer(acknowledged: bool)
    | GiveUp

  /** What users and the rest of the cluster do. */
  datatype Change =
    | UserCreate(spec: Spec, finalizers: set<string>)
    | UserEdit(spec: Spec, finalizers: set<string>)
    | UserDelete
    | SetRollout(rollout: Rollout)
    | LoseStatefulSet
    | ClaimGone
    | SetSecret(secret: string, data: Option<Data>)
    | SetRecommendations(recommendations: seq<Recommendation>)
    | SetSnapshot(key: string, value: Option<Snapshot>)
    | LoseChild(child: Child)

  datatype Action =
    | Operate(call: Call)
    | SidecarGet(report: Report)
    | SidecarPatch(lands: bool)
    | Disturb(change: Change)

  // ------------------------------------------------------------ operator steps

  /** The reconcile ends with an error. */
  function Fail(w: World): World { w.(op := w.op.(pc := Finished(Failed))) }

  function Start(at: nat, s: Server): Operator {
    Operator(
      if s.deleting then
        if !s.Guarded() then Finished(Succeeded) else if Retains(s.spec) then AtUnguard else AtClaimDelete
      else if s.Guarded() then AtCredentials
      else AtFinalizer,
      at, s, map[], None, false, false, false, false, false, 0, "", None, false, false, false, false)
  }

  /** Starts a reconcile from a version no older than the last one seen. */
  function DoRead(w: World, at: nat): World
    requires w.op.pc.Finished? && w.seen <= at < |w.servers|
  {
    w.(seen := at,
       op := if w.servers[at].None? then w.op.(pc := Finished(Succeeded), committed := false)
             else Start(at, w.servers[at].value))
  }

  function DoAddFinalizer(w: World): World {
    var ok := IsLatest(w.servers, w.op.version);
    var s := w.op.server.(finalizers := w.op.server.finalizers + {FINALIZER});
    w.(servers := if ok then w.servers + [Some(s)] else w.servers,
       op := w.op.(server := s, version := |w.servers|, pc := if ok then AtCredentials else Finished(Failed)))
  }

  /** The Secrets after a call that showed a Secret of the config Secret's name or not.  Whoever
      made that Secret, it is overwritten, or removed when there are no user groups. */
  function SecretsAfter(name: string, spec: Spec, shown: Secrets, stored: Secrets, found: bool): Secrets {
    var config := ConfigOf(spec, shown);
    if spec.groups != [] then
      if config.Some? then stored[ConfigSecretName(name) := Rendered(config.value)] else stored
    else if found then stored - {ConfigSecretName(name)}
    else stored
  }

  function AfterCredentials(creds: Credentials): Pc {
    match creds
    case Annotated(_) => AtClaim
    case PasswordMissing => AtPhaseError
    case Unresolvable => Finished(Failed)
  }

  function HashIn(creds: Credentials): Option<Digest> {
    if creds.Annotated? then creds.hash else None
  }

  /** Generates or removes the config Secret and computes the annotation hash; `shown` are the
      Secrets as the cache shows them, `found` is whether it shows one of the config Secret's name. */
  function DoCredentials(w: World, found: bool, shown: Secrets): World {
    var spec := w.op.server.spec;
    var creds := CredentialsOf(spec, shown);
    w.(secrets := SecretsAfter(w.name, spec, shown, w.secrets, found),
       op := w.op.(observed := shown, hash := HashIn(creds),
                   missedConfig := spec.groups == [] && !found && ConfigSecretName(w.name) in w.secrets,
                   pc := AfterCredentials(creds)))
  }

  /** Writes phase Error, ignoring whether the write works, and ends the reconcile with an error. */
  function DoPhaseError(w: World, lands: bool): World {
    var ok := lands && IsLatest(w.servers, w.op.version);
    var s := w.op.server.status.(phase := Error);
    w.(servers := if ok then w.servers + [Some(w.op.server.(status := s))] else w.servers,
       history := w.history.(verdict := if ok then VerdictOf(s) else w.history.verdict),
       op := w.op.(pc := Finished(Failed)))
  }

  /** A claim that the read showed is left alone; creating one that exists is an error. */
  function DoEnsureClaim(w: World, found: bool): World {
    var create := !found && w.kids.claim.None?;
    w.(kids := w.kids.(claim := if create then Some(BuildClaim(w.name, w.op.server.spec)) else w.kids.claim),
       op := w.op.(pc := if found || create then AtAccess else Finished(Failed)))
  }

  function Granted(made: nat): set<Access> {
    (if made > 0 then {Account} else {}) + (if made > 1 then {Role} else {}) + (if made > 2 then {Binding} else {})
  }

  /** Service account, role and binding of an enabled sidecar, one after the other; `made` of
      them before a call fails. */
  function DoEnsureAccess(w: World, made: nat): World {
    var wanted := w.op.server.spec.sidecar.enabled;
    w.(kids := w.kids.(access := if wanted then w.kids.access + Granted(made) else w.kids.access),
       op := w.op.(pc := if wanted && made < 3 then Finished(Failed) else AtBudget))
  }

  /** Updates are held back while somebody plays, unless a maintenance window is open. */
  predicate Holds(s: Server, inWindow: bool) {
    s.spec.policy.deferWhilePlaying && s.status.activePlayers > 0 && !inWindow
  }

  function BudgetFor(s: Server, inWindow: bool): nat { if Holds(s, inWindow) then 0 else 1 }

  /** The stored budget after a successful `reconcilePDB` whose read showed `saw`; `None` if it fails. */
  function BudgetAfter(stored: Option<nat>, saw: Option<nat>, want: nat): Option<Option<nat>> {
    if saw.None? then Some(if stored.None? then Some(want) else stored)  // "already exists" is accepted
    else if saw.value == want then Some(stored)                          // nothing to update
    else if stored == saw then Some(Some(want))
    else None                                                            // conflict
  }

  function DoEnsureBudget(w: World, saw: Option<nat>, now: Instant): World {
    var open := InAnyWindow(w.op.server.spec.policy.windows, now);
    var want := BudgetFor(w.op.server, open);
    var after := BudgetAfter(w.kids.budget, saw, want);
    w.(kids := w.kids.(budget := if after.Some? then after.value else w.kids.budget),
       op := w.op.(budgetWindow := open, missedBudget := saw != w.kids.budget && w.kids.budget != Some(want),
                   pc := if after.Some? then AtVpa else Finished(Failed)))
  }

  function VpaFor(s: VerticalScaling, stored: Option<Vpa>): Option<Vpa> {
    if !s.enabled then None
    else Some(Vpa(s.mode == InPlace, if stored.Some? then stored.value.recommendations else []))
  }

  /** Without the VPA resource definitions installed, or after a stale read, nothing is done. */
  function DoEnsureVpa(w: World, installed: bool): World {
    w.(kids := if installed then w.kids.(vpa := VpaFor(w.op.server.spec.scaling, w.kids.vpa)) else w.kids,
       op := w.op.(pc := AtScaling))
  }

  /** The recommendations the operator would act on. */
  function Advice(s: VerticalScaling, vpa: Option<Vpa>): seq<Recommendation> {
    if s.enabled && s.mode == WhenIdle && vpa.Some? then vpa.value.recommendations else []
  }

  /** The StatefulSet to write on the advice, if there is anything to write. */
  function Plan(sts: Option<StatefulSet>, advice: seq<Recommendation>, playing: bool): Option<StatefulSet> {
    if sts.Some? && Scaled(sts.value, advice, playing) != sts.value then Some(Scaled(sts.value, advice, playing))
    else None
  }

  /** Advice without a StatefulSet is an error, and so is a change derived from an old version. */
  predicate CanApply(sets: seq<Option<StatefulSet>>, at: nat, advice: seq<Recommendation>, playing: bool)
    requires at < |sets|
  {
    !Asks(advice) || (sets[at].Some? && (Plan(sets[at], advice, playing).Some? ==> IsLatest(sets, at)))
  }

  function SetsAfterAdvice(sets: seq<Option<StatefulSet>>, at: nat, advice: seq<Recommendation>, playing: bool)
    : seq<Option<StatefulSet>>
    requires at < |sets|
  {
    var plan := Plan(sets[at], advice, playing);
    if CanApply(sets, at, advice, playing) && plan.Some? then sets + [plan] else sets
  }

  function DoApplyRecommendation(w: World, at: nat): World
    requires at < |w.sets|
  {
    var advice := Advice(w.op.server.spec.scaling, w.kids.vpa);
    var playing := w.op.server.status.activePlayers > 0;
    w.(sets := SetsAfterAdvice(w.sets, at, advice, playing),
       op := w.op.(pc := if CanApply(w.sets, at, advice, playing) then AtPolicy else Finished(Failed)))
  }

  function DoEnsurePolicy(w: World): World {
    w.(kids := w.kids.(policy := Some(BuildNetworkPolicy(w.name, w.op.server.spec))), op := w.op.(pc := AtGate))
  }

  function DoGate(w: World, now: Instant): World {
    var open := InAnyWindow(w.op.server.spec.policy.windows, now);
    var hold := Holds(w.op.server, open);
    w.(op := w.op.(gateWindow := open, deferred := hold, pc := if hold then AtService else AtStatefulSet))
  }

  function Desired(w: World): StatefulSet {
    BuildStatefulSet(w.name, w.op.server.spec, w.op.hash)
  }

  predicate TakesSnapshot(strategy: Strategy) {
    strategy != Unset && strategy != NoSnapshot
  }

  predicate Strict(w: World) {
    w.op.server.spec.policy.strategy == StrictSnapshotBeforeUpdate
  }

  /** The image of the first container, if there is one. */
  function FirstImage(sts: StatefulSet): Option<string> {
    if |sts.template.containers| > 0 then Some(sts.template.containers[0].image) else None
  }

  /** Reads the StatefulSet, possibly from an old version; creates it when there is none. */
  function DoReadStatefulSet(w: World, at: nat): World
    requires at < |w.sets|
  {
    var found := w.sets[at].Some?;
    var create := !found && Latest(w.sets).None?;
    var image := if found then FirstImage(w.sets[at].value) else None;
    var guarded :=
      TakesSnapshot(w.op.server.spec.policy.strategy) && image.Some? && image != FirstImage(Desired(w));
    w.(sets := if create then w.sets + [Some(Desired(w))] else w.sets,
       op := w.op.(base := at, evidence := None, applied := create,
                   pc := if create then AtService else if !found then Finished(Failed)
                         else if guarded then AtSnapshot else AtRollout))
  }

  /** A problem with the snapshot blocks the update in strict mode and is ignored otherwise. */
  function AfterTrouble(w: World): Pc {
    if Strict(w) then Finished(Failed) else AtRollout
  }

  function DoSnapshotTrouble(w: World): World {
    w.(op := w.op.(pc := AfterTrouble(w)))
  }

  /** A snapshot of the same name is taken for the one asked for. */
  function WithSnapshot(items: Store, server: string, snapshot: Snapshot): Store {
    if snapshot.name in items then items
    else items[snapshot.name := snapshot.(server := server, ready := false, error := "")]
  }

  function DoCreateSnapshot(w: World, snapshot: Snapshot): World {
    w.(snapshots := WithSnapshot(w.snapshots, w.name, snapshot),
       op := w.op.(snapshot := snapshot.name, pc := AtPoll))
  }

  function DoPollSnapshot(w: World): World {
    var s := if w.op.snapshot in w.snapshots then Some(w.snapshots[w.op.snapshot]) else None;
    w.(op := w.op.(
         evidence := s,
         pc := if s.None? || s.value.error != "" then AfterTrouble(w)
               else if s.value.ready then AtRollout else AtPoll))
  }

  /** Replaces template and replicas, version-checked against the StatefulSet read earlier. */
  function DoUpdateStatefulSet(w: World): World {
    var ok := IsLatest(w.sets, w.op.base) && Latest(w.sets).Some?;
    w.(sets := if ok
               then w.sets + [Some(Latest(w.sets).value.(template := Desired(w).template, replicas := 1))]
               else w.sets,
       op := w.op.(applied := ok, pc := if ok then AtService else Finished(Failed)))
  }

  function DoEnsureService(w: World): World {
    w.(kids := w.kids.(service := Some(BuildService(w.name, w.op.server.spec))), op := w.op.(pc := AtSchedule))
  }

  /** A scheduled snapshot is due. */
  predicate Due(spec: Spec, now: Instant) {
    spec.backup.enabled && InAnyWindow([spec.backup.schedule], now)
  }

  /** Takes a due snapshot and prunes; `left` are the snapshots after pruning, `deleted` is
      whether all deletes worked. */
  function DoTakeSnapshot(w: World, now: Instant, left: Store, deleted: bool): World {
    var due := Due(w.op.server.spec, now);
    w.(snapshots := if due then left else w.snapshots,
       op := w.op.(pc := if due && !deleted then Finished(Failed) else AtStatus))
  }

  function RolloutOf(sts: Option<StatefulSet>): Option<Rollout> {
    if sts.None? then None else Some(sts.value.rollout)
  }

  function DoCommitStatus(w: World, at: nat, now: Instant, acknowledged: bool): World
    requires at < |w.sets|
  {
    var ok := IsLatest(w.servers, w.op.version);
    var s := StatusAfter(w.op.server.status, RolloutOf(w.sets[at]), w.op.deferred, w.op.server.generation);
    var result := if !ok || !acknowledged then Failed else if w.op.deferred then Requeue else Succeeded;
    w.(servers := if ok then w.servers + [Some(w.op.server.(status := s))] else w.servers,
       history := w.history.(verdict := if ok then VerdictOf(s) else w.history.verdict),
       op := w.op.(statusWindow := InAnyWindow(w.op.server.spec.policy.windows, now),
                   committed := ok && acknowledged, pc := Finished(result)))
  }

  /** Deletes the claim if the read showed one; a read that missed it is remembered. */
  function DoDeleteClaim(w: World, found: bool): World {
    w.(kids := w.kids.(
         claim := if found && w.kids.claim.Some? then Some(w.kids.claim.value.(terminating := true))
                  else w.kids.claim),
       op := w.op.(missedClaim := !found && w.kids.claim.Some? && !w.kids.claim.value.terminating, pc := AtUnguard))
  }

  function DoRemoveFinalizer(w: World, acknowledged: bool): World {
    var ok := IsLatest(w.servers, w.op.version);
    var rest := w.op.server.finalizers - {FINALIZER};
    var next := if rest == {} then None else Some(w.op.server.(finalizers := rest));
    w.(servers := if ok then w.servers + [next] else w.servers,
       op := w.op.(pc := Finished(if ok && acknowledged then Succeeded else Failed)))
  }

  // ------------------------------------------------------------ sidecar steps

  /** Reads the status; a report that is already there needs no patch. */
  function DoSidecarGet(w: World, report: Report): World
    requires Latest(w.servers).Some?
  {
    var s := Latest(w.servers).value;
    var same := ReportOf(s.status) == report;
    w.(sidecar := if same then w.sidecar else Holding(s.uid, ReportOf(s.status), report),
       history := if same then w.history.(report := report, crossed := false) else w.history)
  }

  /** JSON Merge Patch: only the fields in which the report differs from what was read are sent. */
  function Merged(stored: Report, base: Report, report: Report): Report {
    Report(if report.players != base.players then report.players else stored.players,
           if report.version != base.version then report.version else stored.version)
  }

  function Reported(s: Status, r: Report): Status {
    s.(activePlayers := r.players, gameVersion := r.version)
  }

  /** The status with the patch of a holding sidecar applied. */
  function Patched(s: Server, held: Sidecar): Server
    requires held.Holding?
  {
    s.(status := Reported(s.status, Merged(ReportOf(s.status), held.base, held.report)))
  }

  function DoSidecarPatch(w: World, lands: bool): World
    requires w.sidecar.Holding?
  {
    var s := Latest(w.servers);
    var ok := lands && s.Some?;
    w.(servers := if ok then w.servers + [Some(Patched(s.value, w.sidecar))] else w.servers,
       history := if ok then w.history.(report := w.sidecar.report, crossed := s.value.uid != w.sidecar.uid)
                  else w.history,
       sidecar := Resting)
  }

  // ------------------------------------------------------------ environment steps

  function DoUserCreate(w: World, spec: Spec, finalizers: set<string>): World {
    w.(servers := w.servers + [Some(Server(w.uids, 1, false, finalizers, spec, NO_STATUS))], uids := w.uids + 1,
       history := History(ReportOf(NO_STATUS), VerdictOf(NO_STATUS), false))
  }

  /** Users may edit spec and finalizers; once deletion has begun they cannot add finalizers,
      and the resource goes away with the last of them. */
  function DoUserEdit(w: World, spec: Spec, finalizers: set<string>): World
    requires Latest(w.servers).Some?
  {
    var s := Latest(w.servers).value;
    var kept := if s.deleting then finalizers * s.finalizers else finalizers;
    w.(servers := w.servers + [
         if s.deleting && kept == {} then None
         else Some(s.(spec := spec, finalizers := kept,
                      generation := if spec == s.spec then s.generation else s.generation + 1))])
  }

  function DoUserDelete(w: World): World
    requires Latest(w.servers).Some?
  {
    var s := Latest(w.servers).value;
    w.(servers := w.servers + [if s.finalizers == {} then None else Some(s.(deleting := true))])
  }

  function DoSetRollout(w: World, rollout: Rollout): World
    requires Latest(w.sets).Some?
  {
    w.(sets := w.sets + [Some(Latest(w.sets).value.(rollout := rollout))])
  }

  function Without(kids: Children, child: Child): Children {
    match child
    case AccessChild => kids.(access := {})
    case BudgetChild => kids.(budget := None)
    case ServiceChild => kids.(service := None)
    case PolicyChild => kids.(policy := None)
    case VpaChild => kids.(vpa := None)
  }

  // ------------------------------------------------------------ steps and runs

  /** The operator is at the call, and what the call reports is possible. */
  predicate Callable(w: World, c: Call) {
    match c
    case Read(at) => w.op.pc.Finished? && w.seen <= at < |w.servers|
    case AddFinalizer => w.op.pc == AtFinalizer
    case Credentials(_, _) => w.op.pc == AtCredentials
    case PhaseError(_) => w.op.pc == AtPhaseError
    case EnsureClaim(_) => w.op.pc == AtClaim
    case EnsureAccess(_) => w.op.pc == AtAccess
    case EnsureBudget(_, _) => w.op.pc == AtBudget
    case EnsureVpa(_) => w.op.pc == AtVpa
    case ApplyRecommendation(at) => w.op.pc == AtScaling && at < |w.sets|
    case EnsurePolicy => w.op.pc == AtPolicy
    case Gate(_) => w.op.pc == AtGate
    case ReadStatefulSet(at) => w.op.pc == AtStatefulSet && at < |w.sets|
    case CreateSnapshot(_) => w.op.pc == AtSnapshot
    case PollSnapshot => w.op.pc == AtPoll
    case SnapshotTrouble => w.op.pc == AtSnapshot || w.op.pc == AtPoll
    case UpdateStatefulSet => w.op.pc == AtRollout
    case EnsureService => w.op.pc == AtService
    case TakeSnapshot(snapshot, now, left, _) =>
      w.op.pc == AtSchedule && OnlyOwnGone(WithSnapshot(w.snapshots, w.name, snapshot), left, w.name)
    case CommitStatus(at, _, _) => w.op.pc == AtStatus && at < |w.sets|
    case DeleteClaim(_) => w.op.pc == AtClaimDelete
    case RemoveFinalizer(_) => w.op.pc == AtUnguard
    case GiveUp => !w.op.pc.Finished?
  }

  function Operated(w: World, c: Call): World
    requires Callable(w, c)
  {
    match c
    case Read(at) => DoRead(w, at)
    case AddFinalizer => DoAddFinalizer(w)
    case Credentials(found, shown) => DoCredentials(w, found, shown)
    case PhaseError(lands) => DoPhaseError(w, lands)
    case EnsureClaim(found) => DoEnsureClaim(w, found)
    case EnsureAccess(made) => DoEnsureAccess(w, made)
    case EnsureBudget(saw, now) => DoEnsureBudget(w, saw, now)
    case EnsureVpa(installed) => DoEnsureVpa(w, installed)
    case ApplyRecommendation(at) => DoApplyRecommendation(w, at)
    case EnsurePolicy => DoEnsurePolicy(w)
    case Gate(now) => DoGate(w, now)
    case ReadStatefulSet(at) => DoReadStatefulSet(w, at)
    case CreateSnapshot(snapshot) => DoCreateSnapshot(w, snapshot)
    case PollSnapshot => DoPollSnapshot(w)
    case SnapshotTrouble => DoSnapshotTrouble(w)
    case UpdateStatefulSet => DoUpdateStatefulSet(w)
    case EnsureService => DoEnsureService(w)
    case TakeSnapshot(snapshot, now, left, deleted) => DoTakeSnapshot(w, now, left, deleted)
    case CommitStatus(at, now, acknowledged) => DoCommitStatus(w, at, now, acknowledged)
    case DeleteClaim(found) => DoDeleteClaim(w, found)
    case RemoveFinalizer(acknowledged) => DoRemoveFinalizer(w, acknowledged)
    case GiveUp => Fail(w)
  }

  function Disturbed(w: World, c: Change): World {
    match c
    case UserCreate(spec, finalizers) => if Latest(w.servers).None? then DoUserCreate(w, spec, finalizers) else w
    case UserEdit(spec, finalizers) => if Latest(w.servers).Some? then DoUserEdit(w, spec, finalizers) else w
    case UserDelete => if Latest(w.servers).Some? then DoUserDelete(w) else w
    case SetRollout(rollout) => if Latest(w.sets).Some? then DoSetRollout(w, rollout) else w
    case LoseStatefulSet => w.(sets := w.sets + [None])
    case ClaimGone =>
      if w.kids.claim.Some? && w.kids.claim.value.terminating then w.(kids := w.kids.(claim := None)) else w
    case SetSecret(secret, data) =>
      w.(secrets := if data.Some? then w.secrets[secret := data.value] else w.secrets - {secret})
    case SetRecommendations(recommendations) =>
      if w.kids.vpa.None? then w
      else w.(kids := w.kids.(vpa := Some(w.kids.vpa.value.(recommendations := recommendations))))
    case SetSnapshot(key, value) =>
      w.(snapshots := if value.Some? then w.snapshots[key := value.value.(name := key)] else w.snapshots - {key})
    case LoseChild(child) => w.(kids := Without(w.kids, child))
  }

  function Step(w: World, a: Action): World {
    match a
    case Operate(call) => if Callable(w, call) then Operated(w, call) else w
    case SidecarGet(report) =>
      if w.sidecar.Resting? && Latest(w.servers).Some? then DoSidecarGet(w, report) else w
    case SidecarPatch(lands) => if w.sidecar.Holding? then DoSidecarPatch(w, lands) else w
    case Disturb(change) => Disturbed(w, change)
  }

  function Run(w: World, actions: seq<Action>): World {
    if actions == [] then w else Step(Run(w, actions[..|actions| - 1]), actions[|actions| - 1])
  }

  /** The world in which `w` is after the first `k` actions. */
  function At(w: World, actions: seq<Action>, k: nat): World
    requires k <= |actions|
  {
    Run(w, actions[..k])
  }

  lemma RunStep(w: World, actions: seq<Action>, k: nat)
    requires k < |actions|
    ensures At(w, actions, k + 1) == Step(At(w, actions, k), actions[k])
  {
    assert actions[..k + 1][..k] == actions[..k];
  }

  lemma RunPush(w: World, actions: seq<Action>, a: Action)
    ensures Run(w, actions + [a]) == Step(Run(w, actions), a)
  {
    assert (actions + [a])[..|actions|] == actions;
  }

  lemma {:induction false} RunAppend(w: World, a: seq<Action>, b: seq<Action>)
    ensures Run(w, a + b) == Run(Run(w, a), b)
  {
    if b == [] {
      assert a + b == a;
    } else {
      var n := |b| - 1;
      RunAppend(w, a, b[..n]);
      assert (a + b)[..|a + b| - 1] == a + b[..n];
    }
  }

  lemma RunOne(w: World, a: Action)
    ensures Run(w, [a]) == Step(w, a)
  {
    assert [a] == [] + [a];
    RunPush(w, [], a);
  }

  lemma RunTwo(w: World, a: Action, b: Action)
    ensures Run(w, [a, b]) == Step(Step(w, a), b)
  {
    assert [a, b] == [a] + [b];
    RunOne(w, a);
    RunPush(w, [a], b);
  }

  lemma RunThree(w: World, a: Action, b: Action, c: Action)
    ensures Run(w, [a, b, c]) == Step(Step(Step(w, a), b), c)
  {
    assert [a, b, c] == [] + [a] + [b] + [c];
    RunPush(w, [], a);
    RunPush(w, [] + [a], b);
    RunPush(w, [] + [a] + [b], c);
  }

  /** A run, world by world. */
  ghost predicate Chain(worlds: seq<World>, actions: seq<Action>) {
    |worlds| == |actions| + 1 && forall i {:trigger actions[i]} :: 0 <= i < |actions| ==> worlds[i + 1] == Step(worlds[i], actions[i])
  }

  lemma {:induction false} ChainIsRun(worlds: seq<World>, actions: seq<Action>)
    requires Chain(worlds, actions)
    ensures worlds[|actions|] == Run(worlds[0], actions)
  {
    if actions != [] {
      ChainIsRun(worlds[..|actions|], actions[..|actions| - 1]);
    }
  }

  /** Nothing has happened yet: no resource and no child, except that save data, Secrets and
      snapshots of an earlier life may be around. */
  predicate Initial(w: World) {
    && w.servers == [None] && w.sets == [None]
    && w.kids == Children(w.kids.claim, {}, None, None, None, None)
    && w.op.pc == Finished(Succeeded) && !w.op.committed && w.seen == 0
    && w.sidecar.Resting? && w.history == History(ReportOf(NO_STATUS), VerdictOf(NO_STATUS), false)
  }
}
