/** What every step of the protocol keeps. */
module Invariants {
  import opened Api
  import opened Config
  import opened Cron
  import opened Objects
  import opened Snapshots
  import opened StatusRules
  import opened Vertical
  import opened Protocol

  // ------------------------------------------------------------ the invariant

  ghost predicate AllCoherent(log: seq<Option<Server>>) {
    forall k :: 0 <= k < |log| && log[k].Some? ==> Coherent(log[k].value.status)
  }

  ghost predicate AllLed(log: seq<Option<StatefulSet>>) {
    forall k :: 0 <= k < |log| && log[k].Some? ==> GameLeads(log[k].value)
  }

  /** Every stored status is coherent; in every stored StatefulSet the game container comes first. */
  ghost predicate Logs(w: World) {
    && |w.servers| > 0 && |w.sets| > 0 && w.seen < |w.servers|
    && AllCoherent(w.servers) && AllLed(w.sets)
  }

  /** The operator is between the finalizer and the end of an ordinary reconcile. */
  predicate Reconciling(pc: Pc) {
    !pc.Finished? && pc != AtFinalizer && pc != AtClaimDelete && pc != AtUnguard
  }

  /** The operator works on a stored version; children are only touched on behalf of a version
      that carries the finalizer, the claim only deleted on behalf of one being deleted. */
  predicate Local(w: World) {
    var op := w.op;
    !op.pc.Finished? ==>
      && op.version < |w.servers| && w.servers[op.version] == Some(op.server)
      && (op.pc == AtFinalizer ==> !op.server.deleting)
      && (Reconciling(op.pc) ==> op.server.Guarded() && !op.server.deleting)
      && (op.pc == AtClaimDelete || op.pc == AtUnguard ==> op.server.Guarded() && op.server.deleting)
      && (op.pc == AtClaimDelete ==> !Retains(op.server.spec))
  }

  predicate ClaimReleased(w: World) {
    w.kids.claim.None? || w.kids.claim.value.terminating
  }

  /** A reconcile about to drop the finalizer has released the claim, unless its read missed it. */
  predicate Unguarding(w: World) {
    && (w.op.pc == AtClaimDelete ==> !w.op.missedClaim)
    && (w.op.pc == AtUnguard && !Retains(w.op.server.spec) ==> (ClaimReleased(w) <==> !w.op.missedClaim))
  }

  /** After the gate: deferral is what the gate decided, and exactly the others reach the StatefulSet. */
  predicate Gated(w: World) {
    var op := w.op;
    && (!op.pc.Finished? && op.pc != AtService && op.pc != AtSchedule && op.pc != AtStatus ==> !op.applied)
    && (op.pc == AtStatefulSet || op.pc == AtSnapshot || op.pc == AtPoll || op.pc == AtRollout ==>
          !Holds(op.server, op.gateWindow) && !op.deferred)
    && (op.pc == AtService || op.pc == AtSchedule || op.pc == AtStatus ==>
          op.deferred == Holds(op.server, op.gateWindow) && op.applied == !op.deferred)
  }

  predicate Proven(s: Option<Snapshot>) {
    s.Some? && s.value.ready && s.value.error == ""
  }

  /** Before the rollout write: in strict mode a changed image comes with a proven snapshot. */
  predicate Evidence(w: World) {
    var op := w.op;
    && (op.pc == AtSnapshot || op.pc == AtPoll || op.pc == AtRollout ==>
          op.base < |w.sets| && w.sets[op.base].Some? && GameLeads(w.sets[op.base].value))
    && (op.pc == AtRollout && Strict(w) && GameImage(w.sets[op.base].value) != ImageOf(op.server.spec) ==>
          Proven(op.evidence))
  }

  /** Each of the two status writers finds its own last word in the stored status. */
  predicate Writers(w: World) {
    && (Latest(w.servers).Some? ==>
          var s := Latest(w.servers).value;
          && s.uid < w.uids
          && VerdictOf(s.status) == w.history.verdict
          && (!w.history.crossed ==> ReportOf(s.status) == w.history.report))
    && (w.sidecar.Holding? ==>
          && w.sidecar.uid < w.uids && w.sidecar.base != w.sidecar.report
          && (Latest(w.servers).Some? && Latest(w.servers).value.uid == w.sidecar.uid ==>
                ReportOf(Latest(w.servers).value.status) == w.sidecar.base))
  }

  ghost predicate Inv(w: World) {
    Logs(w) && Local(w) && Unguarding(w) && Gated(w) && Evidence(w) && Writers(w)
  }

  // ------------------------------------------------------------ it holds in every run

  lemma InitialInv(w: World)
    requires Initial(w)
    ensures Inv(w)
  {
  }

  lemma BuiltIsLed(name: string, s: Spec, hash: Option<Digest>)
    ensures GameLeads(BuildStatefulSet(name, s, hash))
    ensures GameImage(BuildStatefulSet(name, s, hash)) == ImageOf(s)
  {
  }

  lemma FailInv(w: World)
    requires Inv(w)
    ensures Inv(Fail(w))
  {
  }

  lemma ReadInv(w: World, at: nat)
    requires Inv(w) && Callable(w, Read(at))
    ensures Inv(DoRead(w, at))
  {
  }

  lemma AddFinalizerInv(w: World)
    requires Inv(w) && w.op.pc == AtFinalizer
    ensures Inv(DoAddFinalizer(w))
  {
  }

  lemma CredentialsInv(w: World, found: bool, shown: Secrets)
    requires Inv(w) && w.op.pc == AtCredentials
    ensures Inv(DoCredentials(w, found, shown))
  {
  }

  lemma PhaseErrorInv(w: World, lands: bool)
    requires Inv(w) && w.op.pc == AtPhaseError
    ensures Inv(DoPhaseError(w, lands))
  {
  }

  lemma EnsureClaimInv(w: World, found: bool)
    requires Inv(w) && w.op.pc == AtClaim
    ensures Inv(DoEnsureClaim(w, found))
  {
  }

  lemma EnsureAccessInv(w: World, made: nat)
    requires Inv(w) && w.op.pc == AtAccess
    ensures Inv(DoEnsureAccess(w, made))
  {
  }

  lemma EnsureBudgetInv(w: World, saw: Option<nat>, now: Instant)
    requires Inv(w) && w.op.pc == AtBudget
    ensures Inv(DoEnsureBudget(w, saw, now))
  {
  }

  lemma EnsureVpaInv(w: World, installed: bool)
    requires Inv(w) && w.op.pc == AtVpa
    ensures Inv(DoEnsureVpa(w, installed))
  {
  }

  lemma PlanIsLed(sts: Option<StatefulSet>, advice: seq<Recommendation>, playing: bool)
    requires sts.Some? ==> GameLeads(sts.value)
    ensures Plan(sts, advice, playing).Some? ==> sts.Some? && GameLeads(Plan(sts, advice, playing).value)
  {
    if sts.Some? {
      ScaledKeeps(sts.value, advice, playing);
    }
  }

  lemma AdviceKeepsLed(sets: seq<Option<StatefulSet>>, at: nat, advice: seq<Recommendation>, playing: bool)
    requires at < |sets| && AllLed(sets)
    ensures AllLed(SetsAfterAdvice(sets, at, advice, playing)) && sets <= SetsAfterAdvice(sets, at, advice, playing)
  {
    PlanIsLed(sets[at], advice, playing);
  }

  lemma ApplyRecommendationInv(w: World, at: nat)
    requires Inv(w) && w.op.pc == AtScaling && at < |w.sets|
    ensures Inv(DoApplyRecommendation(w, at))
  {
    AdviceKeepsLed(w.sets, at, Advice(w.op.server.spec.scaling, w.kids.vpa), w.op.server.status.activePlayers > 0);
  }

  lemma EnsurePolicyInv(w: World)
    requires Inv(w) && w.op.pc == AtPolicy
    ensures Inv(DoEnsurePolicy(w))
  {
  }

  lemma GateInv(w: World, now: Instant)
    requires Inv(w) && w.op.pc == AtGate
    ensures Inv(DoGate(w, now))
  {
  }

  lemma ReadStatefulSetInv(w: World, at: nat)
    requires Inv(w) && w.op.pc == AtStatefulSet && at < |w.sets|
    ensures Inv(DoReadStatefulSet(w, at))
  {
    BuiltIsLed(w.name, w.op.server.spec, w.op.hash);
  }

  lemma CreateSnapshotInv(w: World, snapshot: Snapshot)
    requires Inv(w) && w.op.pc == AtSnapshot
    ensures Inv(DoCreateSnapshot(w, snapshot))
  {
  }

  lemma PollSnapshotInv(w: World)
    requires Inv(w) && w.op.pc == AtPoll
    ensures Inv(DoPollSnapshot(w))
  {
  }

  lemma SnapshotTroubleInv(w: World)
    requires Inv(w) && (w.op.pc == AtSnapshot || w.op.pc == AtPoll)
    ensures Inv(DoSnapshotTrouble(w))
  {
  }

  lemma UpdateStatefulSetInv(w: World)
    requires Inv(w) && w.op.pc == AtRollout
    ensures Inv(DoUpdateStatefulSet(w))
  {
    BuiltIsLed(w.name, w.op.server.spec, w.op.hash);
  }

  lemma EnsureServiceInv(w: World)
    requires Inv(w) && w.op.pc == AtService
    ensures Inv(DoEnsureService(w))
  {
  }

  lemma TakeSnapshotInv(w: World, now: Instant, left: Store, deleted: bool)
    requires Inv(w) && w.op.pc == AtSchedule
    ensures Inv(DoTakeSnapshot(w, now, left, deleted))
  {
  }

  lemma CommitStatusInv(w: World, at: nat, now: Instant, acknowledged: bool)
    requires Inv(w) && w.op.pc == AtStatus && at < |w.sets|
    ensures Inv(DoCommitStatus(w, at, now, acknowledged))
  {
    StatusAfterCoherent(w.op.server.status, RolloutOf(w.sets[at]), w.op.deferred, w.op.server.generation);
  }

  lemma DeleteClaimInv(w: World, found: bool)
    requires Inv(w) && w.op.pc == AtClaimDelete
    ensures Inv(DoDeleteClaim(w, found))
  {
  }

  lemma AppendedCoherent(log: seq<Option<Server>>, s: Option<Server>)
    requires AllCoherent(log) && (s.Some? ==> Coherent(s.value.status))
    ensures AllCoherent(log + [s])
  {
  }

  /** Of an operator at rest the invariant says nothing. */
  lemma AtRestInv(w: World, pc: Pc)
    requires Logs(w) && Writers(w) && pc.Finished?
    ensures Inv(w.(op := w.op.(pc := pc)))
  {
  }

  lemma StoredInv(w: World, s: Option<Server>)
    requires Logs(w) && Writers(w) && Latest(w.servers).Some?
    requires s.Some? ==> s.value == Latest(w.servers).value.(finalizers := s.value.finalizers)
    ensures Logs(w.(servers := w.servers + [s])) && Writers(w.(servers := w.servers + [s]))
  {
    AppendedCoherent(w.servers, s);
  }

  lemma RemoveFinalizerInv(w: World, acknowledged: bool)
    requires Inv(w) && w.op.pc == AtUnguard
    ensures Inv(DoRemoveFinalizer(w, acknowledged))
  {
    var v := DoRemoveFinalizer(w, acknowledged);
    if IsLatest(w.servers, w.op.version) {
      var rest := w.op.server.finalizers - {FINALIZER};
      var next := if rest == {} then None else Some(w.op.server.(finalizers := rest));
      StoredInv(w, next);
      AtRestInv(w.(servers := w.servers + [next]), v.op.pc);
    } else {
      AtRestInv(w, v.op.pc);
    }
  }

  lemma SidecarGetInv(w: World, report: Report)
    requires Inv(w) && w.sidecar.Resting? && Latest(w.servers).Some?
    ensures Inv(DoSidecarGet(w, report))
  {
  }

  lemma SidecarPatchInv(w: World, lands: bool)
    requires Inv(w) && w.sidecar.Holding?
    ensures Inv(DoSidecarPatch(w, lands))
  {
  }

  lemma UserCreateInv(w: World, spec: Spec, finalizers: set<string>)
    requires Inv(w) && Latest(w.servers).None?
    ensures Inv(DoUserCreate(w, spec, finalizers))
  {
  }

  lemma UserEditInv(w: World, spec: Spec, finalizers: set<string>)
    requires Inv(w) && Latest(w.servers).Some?
    ensures Inv(DoUserEdit(w, spec, finalizers))
  {
  }

  lemma UserDeleteInv(w: World)
    requires Inv(w) && Latest(w.servers).Some?
    ensures Inv(DoUserDelete(w))
  {
  }

  lemma SetRolloutInv(w: World, rollout: Rollout)
    requires Inv(w) && Latest(w.sets).Some?
    ensures Inv(DoSetRollout(w, rollout))
  {
  }

  lemma EarlyCallInv(w: World, c: Call)
    requires Inv(w) && Callable(w, c)
    requires c.Read? || c.AddFinalizer? || c.Credentials? || c.PhaseError? || c.EnsureClaim? || c.EnsureAccess?
             || c.EnsureBudget? || c.EnsureVpa? || c.DeleteClaim? || c.RemoveFinalizer?
    ensures Inv(Operated(w, c))
  {
    match c
    case Read(at) => ReadInv(w, at); return;
    case AddFinalizer => AddFinalizerInv(w); return;
    case Credentials(found, shown) => CredentialsInv(w, found, shown); return;
    case PhaseError(lands) => PhaseErrorInv(w, lands); return;
    case EnsureClaim(found) => EnsureClaimInv(w, found); return;
    case EnsureAccess(made) => EnsureAccessInv(w, made); return;
    case EnsureBudget(saw, now) => EnsureBudgetInv(w, saw, now); return;
    case EnsureVpa(installed) => EnsureVpaInv(w, installed); return;
    case DeleteClaim(found) => DeleteClaimInv(w, found); return;
    case RemoveFinalizer(acknowledged) => RemoveFinalizerInv(w, acknowledged); return;
  }

  lemma CallInv(w: World, c: Call)
    requires Inv(w) && Callable(w, c)
    ensures Inv(Operated(w, c))
  {
    match c
    case ApplyRecommendation(at) => ApplyRecommendationInv(w, at); return;
    case EnsurePolicy => EnsurePolicyInv(w); return;
    case Gate(now) => GateInv(w, now); return;
    case ReadStatefulSet(at) => ReadStatefulSetInv(w, at); return;
    case CreateSnapshot(snapshot) => CreateSnapshotInv(w, snapshot); return;
    case PollSnapshot => PollSnapshotInv(w); return;
    case SnapshotTrouble => SnapshotTroubleInv(w); return;
    case UpdateStatefulSet => UpdateStatefulSetInv(w); return;
    case EnsureService => EnsureServiceInv(w); return;
    case TakeSnapshot(_, now, left, deleted) => TakeSnapshotInv(w, now, left, deleted); return;
    case CommitStatus(at, now, acknowledged) => CommitStatusInv(w, at, now, acknowledged); return;
    case GiveUp => FailInv(w); return;
    case _ => EarlyCallInv(w, c); return;
  }

  lemma LoseStatefulSetInv(w: World)
    requires Inv(w)
    ensures Inv(w.(sets := w.sets + [None]))
  {
  }

  /** Other children do not matter to the invariant, and a claim may only finish terminating. */
  lemma KidsInv(w: World, kids: Children)
    requires Inv(w)
    requires kids.claim == w.kids.claim || (ClaimReleased(w) && kids.claim.None?)
    ensures Inv(w.(kids := kids))
  {
  }

  lemma StoresInv(w: World, secrets: Secrets, snapshots: Store)
    requires Inv(w)
    ensures Inv(w.(secrets := secrets)) && Inv(w.(snapshots := snapshots))
  {
  }

  lemma UserChangeInv(w: World, c: Change)
    requires Inv(w) && (c.UserCreate? || c.UserEdit? || c.UserDelete? || c.SetRollout?)
    ensures Inv(Disturbed(w, c))
  {
    match c
    case UserCreate(spec, finalizers) => if Latest(w.servers).None? { UserCreateInv(w, spec, finalizers); } return;
    case UserEdit(spec, finalizers) => if Latest(w.servers).Some? { UserEditInv(w, spec, finalizers); } return;
    case UserDelete => if Latest(w.servers).Some? { UserDeleteInv(w); } return;
    case SetRollout(rollout) => if Latest(w.sets).Some? { SetRolloutInv(w, rollout); } return;
  }

  lemma ChangeInv(w: World, c: Change)
    requires Inv(w)
    ensures Inv(Disturbed(w, c))
  {
    match c
    case LoseStatefulSet => LoseStatefulSetInv(w); return;
    case ClaimGone => KidsInv(w, Disturbed(w, c).kids); return;
    case SetSecret(_, _) => StoresInv(w, Disturbed(w, c).secrets, w.snapshots); return;
    case SetRecommendations(_) => KidsInv(w, Disturbed(w, c).kids); return;
    case SetSnapshot(_, _) => StoresInv(w, w.secrets, Disturbed(w, c).snapshots); return;
    case LoseChild(child) => KidsInv(w, Protocol.Without(w.kids, child)); return;
    case _ => UserChangeInv(w, c); return;
  }

  lemma StepInv(w: World, a: Action)
    requires Inv(w)
    ensures Inv(Step(w, a))
  {
    match a
    case Operate(call) => if Callable(w, call) { CallInv(w, call); } return;
    case SidecarGet(report) => if w.sidecar.Resting? && Latest(w.servers).Some? { SidecarGetInv(w, report); } return;
    case SidecarPatch(lands) => if w.sidecar.Holding? { SidecarPatchInv(w, lands); } return;
    case Disturb(change) => ChangeInv(w, change); return;
  }

  /** The invariant holds in every world of every run. */
  lemma {:induction false} RunInv(w: World, actions: seq<Action>)
    requires Inv(w)
    ensures Inv(Run(w, actions))
  {
    if actions != [] {
      RunInv(w, actions[..|actions| - 1]);
      StepInv(Run(w, actions[..|actions| - 1]), actions[|actions| - 1]);
    }
  }
}
