/** Convergence: what a successful reconcile leaves behind, and that the gate, the budget and
    the status tell the same story. */
module Convergence {
  import opened Api
  import opened Config
  import opened Cron
  import opened Objects
  import opened Snapshots
  import opened StatusRules
  import opened Protocol
  import opened Invariants

  // ------------------------------------------------------------ how far a reconcile is

  /** The place of a call in the order of an ordinary reconcile; a committed one is past all. */
  function Place(op: Operator): nat {
    match op.pc
    case AtClaim => 1
    case AtAccess => 2
    case AtBudget => 3
    case AtVpa => 4
    case AtScaling => 5
    case AtPolicy => 6
    case AtGate => 7
    case AtStatefulSet => 8
    case AtSnapshot => 8
    case AtPoll => 8
    case AtRollout => 8
    case AtService => 9
    case AtSchedule => 10
    case AtStatus => 11
    case Finished(_) => if op.committed then 12 else 0
    case _ => 0
  }

  function SecretIn(secrets: Secrets, name: string): Option<Data> {
    if name in secrets then Some(secrets[name]) else None
  }

  /** The config Secret as generated from the given Secrets, none without user groups. */
  function WantedConfig(spec: Spec, secrets: Secrets): Option<Data> {
    if spec.groups != [] && ConfigOf(spec, secrets).Some? then Some(Rendered(ConfigOf(spec, secrets).value)) else None
  }

  function StoredConfig(w: World): Option<Data> { SecretIn(w.secrets, ConfigSecretName(w.name)) }

  /** The config Secret is the one generated from the Secrets that were read; without user
      groups it is absent unless the read missed it.  The annotation is its hash. */
  predicate ConfigDone(w: World) {
    var spec := w.op.server.spec;
    && (spec.groups != [] ==> !w.op.missedConfig)
    && (StoredConfig(w) == WantedConfig(spec, w.op.observed) <==> !w.op.missedConfig)
    && CredentialsOf(spec, w.op.observed) == Annotated(w.op.hash)
  }

  /** An enabled sidecar has what it needs; nothing is taken away from a disabled one. */
  predicate AccessDone(w: World) {
    w.op.server.spec.sidecar.enabled ==> {Account, Role, Binding} <= w.kids.access
  }

  predicate BudgetDone(w: World) {
    w.kids.budget == Some(BudgetFor(w.op.server, w.op.budgetWindow)) <==> !w.op.missedBudget
  }

  predicate PolicyDone(w: World) {
    w.kids.policy == Some(BuildNetworkPolicy(w.name, w.op.server.spec))
  }

  predicate RolloutDone(w: World) {
    && w.op.deferred == Holds(w.op.server, w.op.gateWindow) && w.op.applied == !w.op.deferred
    && (!w.op.deferred ==>
          && Latest(w.sets).Some?
          && Latest(w.sets).value.template == Desired(w).template && Latest(w.sets).value.replicas == 1)
  }

  predicate ServiceDone(w: World) {
    w.kids.service == Some(BuildService(w.name, w.op.server.spec))
  }

  predicate CommitDone(w: World) {
    && w.op.pc == Finished(if w.op.deferred then Requeue else Succeeded)
    && w.op.version + 1 < |w.servers| && w.servers[w.op.version + 1].Some?
    && var s := w.servers[w.op.version + 1].value;
       && s == w.op.server.(status := s.status)
       && s.status.updateDeferred == w.op.deferred
  }

  /** Whatever a reconcile has got past is as it should be. */
  predicate Progress(w: World) {
    var k := Place(w.op);
    && (!w.op.pc.Finished? ==> !w.op.committed && (k <= 8 ==> !w.op.applied))
    && (k == 8 ==> !w.op.deferred && !Holds(w.op.server, w.op.gateWindow))
    && (k > 0 ==> ConfigDone(w))
    && (k > 2 ==> AccessDone(w))
    && (k > 3 ==> BudgetDone(w))
    && (k > 6 ==> PolicyDone(w))
    && (k > 8 ==> RolloutDone(w))
    && (k > 9 ==> ServiceDone(w))
    && (k > 11 ==> CommitDone(w))
  }

  /** Nobody but the operator deletes its children or touches the config Secret; users may do
      anything to the resource, and other Secrets, recommendations, snapshots and the
      rollout may change at any time. */
  predicate Benign(name: string, a: Action) {
    a.Disturb? ==>
      && !a.change.LoseChild? && !a.change.LoseStatefulSet?
      && (a.change.SetSecret? ==> a.change.secret != ConfigSecretName(name))
  }

  // ------------------------------------------------------------ every step keeps it

  /** A read begins anew, whatever the cluster looks like. */
  lemma ReadProgress(w: World, at: nat)
    requires Callable(w, Read(at))
    ensures Progress(DoRead(w, at))
  {
  }

  /** Calls before or beside the ordinary sequence. */
  lemma WritingProgress(w: World, c: Call)
    requires Progress(w) && Callable(w, c) && (c.AddFinalizer? || c.PhaseError? || c.RemoveFinalizer?)
    ensures Progress(Operated(w, c))
  {
    match c
    case AddFinalizer => return;
    case PhaseError(_) => return;
    case RemoveFinalizer(_) => return;
  }

  lemma AsideProgress(w: World, c: Call)
    requires Progress(w) && Callable(w, c) && (c.DeleteClaim? || c.GiveUp?)
    ensures Progress(Operated(w, c))
  {
    match c
    case DeleteClaim(_) => return;
    case GiveUp => return;
  }

  lemma CredentialsProgress(w: World, found: bool, shown: Secrets)
    requires Progress(w) && w.op.pc == AtCredentials
    ensures Progress(DoCredentials(w, found, shown))
  {
  }

  lemma EnsureClaimProgress(w: World, found: bool)
    requires Progress(w) && w.op.pc == AtClaim
    ensures Progress(DoEnsureClaim(w, found))
  {
  }

  lemma EnsureAccessProgress(w: World, made: nat)
    requires Progress(w) && w.op.pc == AtAccess
    ensures Progress(DoEnsureAccess(w, made))
  {
  }

  /** The exact outcome of an accepted `reconcilePDB`: the budget is the wanted one if and only
      if the read was up to date or nothing was wrong in the first place. */
  lemma BudgetAfterIff(stored: Option<nat>, saw: Option<nat>, want: nat)
    requires BudgetAfter(stored, saw, want).Some?
    ensures BudgetAfter(stored, saw, want).value == Some(want) <==> saw == stored || stored == Some(want)
  {
  }

  /** It is refused exactly if the budget shown is not the wanted one and not the stored one either. */
  lemma BudgetRefusedIff(stored: Option<nat>, saw: Option<nat>, want: nat)
    ensures BudgetAfter(stored, saw, want).None? <==> saw.Some? && saw.value != want && saw != stored
  {
  }

  lemma EnsureBudgetProgress(w: World, saw: Option<nat>, now: Instant)
    requires Progress(w) && w.op.pc == AtBudget
    ensures Progress(DoEnsureBudget(w, saw, now))
  {
    var want := BudgetFor(w.op.server, InAnyWindow(w.op.server.spec.policy.windows, now));
    if BudgetAfter(w.kids.budget, saw, want).None? { return; }
    BudgetAfterIff(w.kids.budget, saw, want);
  }

  lemma EnsureVpaProgress(w: World, installed: bool)
    requires Progress(w) && w.op.pc == AtVpa
    ensures Progress(DoEnsureVpa(w, installed))
  {
  }

  lemma ApplyRecommendationProgress(w: World, at: nat)
    requires Progress(w) && w.op.pc == AtScaling && at < |w.sets|
    ensures Progress(DoApplyRecommendation(w, at))
  {
  }

  lemma EnsurePolicyProgress(w: World)
    requires Progress(w) && w.op.pc == AtPolicy
    ensures Progress(DoEnsurePolicy(w))
  {
  }

  lemma GateProgress(w: World, now: Instant)
    requires Progress(w) && w.op.pc == AtGate
    ensures Progress(DoGate(w, now))
  {
  }

  lemma ReadStatefulSetProgress(w: World, at: nat)
    requires Progress(w) && w.op.pc == AtStatefulSet && at < |w.sets|
    ensures Progress(DoReadStatefulSet(w, at))
  {
    if w.sets[at].Some? {
      FoundStatefulSetProgress(w, at);
      return;
    }
    MissingStatefulSetProgress(w, at);
  }

  lemma MissingStatefulSetProgress(w: World, at: nat)
    requires Progress(w) && w.op.pc == AtStatefulSet && at < |w.sets| && w.sets[at].None?
    ensures Progress(DoReadStatefulSet(w, at))
  {
    if Latest(w.sets).None? {
      CreatedStatefulSetProgress(w, at);
      return;
    }
    assert Place(DoReadStatefulSet(w, at).op) == 0;
  }

  lemma CreatedStatefulSetProgress(w: World, at: nat)
    requires Progress(w) && w.op.pc == AtStatefulSet && at < |w.sets| && w.sets[at].None? && Latest(w.sets).None?
    ensures Progress(DoReadStatefulSet(w, at))
  {
    var v := DoReadStatefulSet(w, at);
    assert Latest(v.sets) == Some(Desired(w));
    RolledOut(w, v);
  }

  /** The StatefulSet is as desired, and nothing else has changed. */
  lemma RolledOut(w: World, v: World)
    requires Progress(w) && Place(w.op) == 8 && v.kids == w.kids && v.name == w.name && v.secrets == w.secrets
    requires v.op == w.op.(base := v.op.base, evidence := v.op.evidence, applied := true, pc := AtService)
    requires Latest(v.sets).Some? && Latest(v.sets).value.replicas == 1
    requires Latest(v.sets).value.template == Desired(w).template
    ensures Progress(v)
  {
  }

  lemma FoundStatefulSetProgress(w: World, at: nat)
    requires Progress(w) && w.op.pc == AtStatefulSet && at < |w.sets| && w.sets[at].Some?
    ensures Progress(DoReadStatefulSet(w, at))
  {
    var v := DoReadStatefulSet(w, at);
    assert Place(v.op) == 8;
  }

  lemma SnapshotProgress(w: World, c: Call)
    requires Progress(w) && Callable(w, c) && (c.CreateSnapshot? || c.PollSnapshot? || c.SnapshotTrouble?)
    ensures Progress(Operated(w, c))
  {
    match c
    case CreateSnapshot(_) => return;
    case PollSnapshot => return;
    case SnapshotTrouble => return;
  }

  lemma UpdateStatefulSetProgress(w: World)
    requires Progress(w) && w.op.pc == AtRollout
    ensures Progress(DoUpdateStatefulSet(w))
  {
    if !(IsLatest(w.sets, w.op.base) && Latest(w.sets).Some?) { return; }
    RolledOut(w, DoUpdateStatefulSet(w));
  }

  lemma EnsureServiceProgress(w: World)
    requires Progress(w) && w.op.pc == AtService
    ensures Progress(DoEnsureService(w))
  {
  }

  lemma TakeSnapshotProgress(w: World, now: Instant, left: Store, deleted: bool)
    requires Progress(w) && w.op.pc == AtSchedule
    ensures Progress(DoTakeSnapshot(w, now, left, deleted))
  {
  }

  lemma CommitStatusProgress(w: World, at: nat, now: Instant, acknowledged: bool)
    requires Progress(w) && w.op.pc == AtStatus && at < |w.sets|
    ensures Progress(DoCommitStatus(w, at, now, acknowledged))
  {
  }

  lemma FirstCallProgress(w: World, c: Call)
    requires Progress(w) && Callable(w, c) && (c.Read? || c.Credentials? || c.EnsureClaim? || c.EnsureAccess?)
    ensures Progress(Operated(w, c))
  {
    match c
    case Read(at) => ReadProgress(w, at); return;
    case Credentials(found, shown) => CredentialsProgress(w, found, shown); return;
    case EnsureClaim(found) => EnsureClaimProgress(w, found); return;
    case EnsureAccess(made) => EnsureAccessProgress(w, made); return;
  }

  lemma EarlyCallProgress(w: World, c: Call)
    requires Progress(w) && Callable(w, c)
    requires c.EnsureBudget? || c.EnsureVpa? || c.ApplyRecommendation? || c.EnsurePolicy?
    ensures Progress(Operated(w, c))
  {
    match c
    case EnsureBudget(saw, now) => EnsureBudgetProgress(w, saw, now); return;
    case EnsureVpa(installed) => EnsureVpaProgress(w, installed); return;
    case ApplyRecommendation(at) => ApplyRecommendationProgress(w, at); return;
    case EnsurePolicy => EnsurePolicyProgress(w); return;
  }

  lemma CallProgress(w: World, c: Call)
    requires Progress(w) && Callable(w, c)
    ensures Progress(Operated(w, c))
  {
    match c
    case Gate(now) => GateProgress(w, now); return;
    case ReadStatefulSet(at) => ReadStatefulSetProgress(w, at); return;
    case CreateSnapshot(_) => SnapshotProgress(w, c); return;
    case PollSnapshot => SnapshotProgress(w, c); return;
    case SnapshotTrouble => SnapshotProgress(w, c); return;
    case UpdateStatefulSet => UpdateStatefulSetProgress(w); return;
    case EnsureService => EnsureServiceProgress(w); return;
    case TakeSnapshot(_, now, left, deleted) => TakeSnapshotProgress(w, now, left, deleted); return;
    case CommitStatus(at, now, acknowledged) => CommitStatusProgress(w, at, now, acknowledged); return;
    case AddFinalizer => WritingProgress(w, c); return;
    case PhaseError(_) => WritingProgress(w, c); return;
    case DeleteClaim(_) => AsideProgress(w, c); return;
    case RemoveFinalizer(_) => WritingProgress(w, c); return;
    case GiveUp => AsideProgress(w, c); return;
    case EnsureBudget(_, _) => EarlyCallProgress(w, c); return;
    case EnsureVpa(_) => EarlyCallProgress(w, c); return;
    case ApplyRecommendation(_) => EarlyCallProgress(w, c); return;
    case EnsurePolicy => EarlyCallProgress(w, c); return;
    case _ => FirstCallProgress(w, c); return;
  }

  /** What the others may do to the world between two calls of the operator. */
  predicate Undisturbed(w: World, v: World) {
    && v.name == w.name && v.op == w.op && w.servers <= v.servers && StoredConfig(v) == StoredConfig(w)
    && v.kids == w.kids.(claim := v.kids.claim, vpa := v.kids.vpa)
    && (Latest(w.sets).Some? ==>
          && Latest(v.sets).Some?
          && Latest(v.sets).value == Latest(w.sets).value.(rollout := Latest(v.sets).value.rollout))
  }

  lemma OthersLeaveUndisturbed(w: World, a: Action)
    requires Benign(w.name, a) && !a.Operate?
    ensures Undisturbed(w, Step(w, a))
  {
    match a
    case SidecarGet(_) => return;
    case SidecarPatch(_) => return;
    case Disturb(change) => ChangeLeavesUndisturbed(w, change); return;
  }

  lemma ChangeLeavesUndisturbed(w: World, c: Change)
    requires Benign(w.name, Disturb(c))
    ensures Undisturbed(w, Disturbed(w, c))
  {
  }

  lemma UndisturbedProgress(w: World, v: World)
    requires Progress(w) && Undisturbed(w, v)
    ensures Progress(v)
  {
    if Place(w.op) <= 8 { return; }
    assert RolloutDone(v);
  }

  lemma StepProgress(w: World, a: Action)
    requires Progress(w) && Benign(w.name, a)
    ensures Progress(Step(w, a))
  {
    match a
    case Operate(call) => if Callable(w, call) { CallProgress(w, call); } return;
    case _ => OthersLeaveUndisturbed(w, a); UndisturbedProgress(w, Step(w, a)); return;
  }

  lemma CallKeepsName(w: World, c: Call)
    requires Callable(w, c)
    ensures Operated(w, c).name == w.name
  {
  }

  lemma {:induction false} RunKeepsName(w: World, actions: seq<Action>)
    ensures Run(w, actions).name == w.name
  {
    if actions != [] {
      var u, a := Run(w, actions[..|actions| - 1]), actions[|actions| - 1];
      RunKeepsName(w, actions[..|actions| - 1]);
      if a.Operate? && Callable(u, a.call) {
        CallKeepsName(u, a.call);
      }
    }
  }

  predicate AllBenign(name: string, actions: seq<Action>) {
    forall a :: a in actions ==> Benign(name, a)
  }

  lemma {:induction false} RunProgress(w: World, actions: seq<Action>)
    requires Progress(w) && AllBenign(w.name, actions)
    ensures Progress(Run(w, actions))
  {
    if actions != [] {
      var before := actions[..|actions| - 1];
      RunProgress(w, before);
      RunKeepsName(w, before);
      StepProgress(Run(w, before), actions[|actions| - 1]);
    }
  }

  // ------------------------------------------------------------ what a success leaves behind

  /** The part of the cluster a reconcile drives to the wanted state. */
  datatype Managed = Managed(
    config: Option<Data>, budget: Option<nat>, policy: Option<NetworkPolicy>, service: Option<Service>,
    template: Option<Template>, replicas: Option<nat>)

  function ManagedBy(w: World): Managed {
    var sts := Latest(w.sets);
    Managed(StoredConfig(w), w.kids.budget, w.kids.policy, w.kids.service,
            if sts.Some? then Some(sts.value.template) else None,
            if sts.Some? then Some(sts.value.replicas) else None)
  }

  /** The wanted state, from nothing but the spec, the Secrets and whether updates are held back. */
  function Wanted(name: string, spec: Spec, secrets: Secrets, hold: bool): Managed {
    Managed(
      WantedConfig(spec, secrets),
      Some(if hold then 0 else 1),
      Some(BuildNetworkPolicy(name, spec)),
      Some(BuildService(name, spec)),
      Some(BuildTemplate(name, spec, HashIn(CredentialsOf(spec, secrets)))),
      Some(1))
  }

  /** The wanted state hangs together: the config Secret exists exactly with user groups, and the
      pod is annotated with the hash of its content, or else of the password. */
  lemma WantedHash(name: string, spec: Spec, secrets: Secrets, hold: bool)
    requires CredentialsOf(spec, secrets).Annotated?
    ensures var m := Wanted(name, spec, secrets, hold);
      && (m.config.Some? <==> spec.groups != [])
      && (m.config.Some? ==>
            && ConfigOf(spec, secrets).Some? && m.config.value == Rendered(ConfigOf(spec, secrets).value)
            && m.template.value.annotations == map[HASH_ANNOTATION := ConfigDigest(ConfigOf(spec, secrets).value)])
      && (m.config.None? && spec.password.Some? ==>
            && spec.password.value.name in secrets && spec.password.value.key in secrets[spec.password.value.name]
            && m.template.value.annotations ==
                 map[HASH_ANNOTATION := PasswordDigest(secrets[spec.password.value.name][spec.password.value.key])])
      && (m.config.None? && spec.password.None? ==> m.template.value.annotations == map[])
  {
  }

  /** A Secret change that alters the wanted state alters the annotation, so it restarts the pod. */
  lemma SecretChangeRestarts(name: string, spec: Spec, a: Secrets, b: Secrets, hold: bool)
    requires CredentialsOf(spec, a).Annotated? && CredentialsOf(spec, b).Annotated?
    ensures Wanted(name, spec, a, hold) == Wanted(name, spec, b, hold) <==>
      Wanted(name, spec, a, hold).template.value.annotations == Wanted(name, spec, b, hold).template.value.annotations
  {
    var x, y := HashIn(CredentialsOf(spec, a)), HashIn(CredentialsOf(spec, b));
    SameAnnotationSameHash(name, spec, x, y);
    if x == y && spec.groups != [] {
      assert ConfigDigest(ConfigOf(spec, a).value) == ConfigDigest(ConfigOf(spec, b).value);
    }
  }

  lemma SameAnnotationSameHash(name: string, spec: Spec, x: Option<Digest>, y: Option<Digest>)
    ensures BuildTemplate(name, spec, x).annotations == BuildTemplate(name, spec, y).annotations <==> x == y
  {
    var p, q := BuildTemplate(name, spec, x).annotations, BuildTemplate(name, spec, y).annotations;
    assert HASH_ANNOTATION in p <==> x.Some?;
    assert HASH_ANNOTATION in q <==> y.Some?;
    if p == q && x.Some? {
      assert p[HASH_ANNOTATION] == x.value && q[HASH_ANNOTATION] == y.value;
    }
  }

  /** From any state of the cluster whatsoever, with everybody moving in between: once a
      reconcile, or a later one, has succeeded without deferring, everything it manages is the
      wanted one if and only if its reads of the budget and of an obsolete config Secret were not
      stale.  Only from its first read on must nobody take its children away. */
  lemma Converged(w: World, at: nat, actions: seq<Action>)
    requires Callable(w, Read(at)) && AllBenign(w.name, actions)
    ensures var v := Run(DoRead(w, at), actions);
      v.op.pc == Finished(Succeeded) && v.op.committed ==>
        && !v.op.deferred && !Holds(v.op.server, v.op.gateWindow)
        && CredentialsOf(v.op.server.spec, v.op.observed).Annotated? && AccessDone(v)
        && (ManagedBy(v) == Wanted(v.name, v.op.server.spec, v.op.observed, Holds(v.op.server, v.op.budgetWindow))
            <==> !v.op.missedBudget && !v.op.missedConfig)
  {
    ReadProgress(w, at);
    RunProgress(DoRead(w, at), actions);
    var v := Run(DoRead(w, at), actions);
    if v.op.pc == Finished(Succeeded) && v.op.committed {
      ProgressConverges(v);
    }
  }

  lemma ProgressConverges(w: World)
    requires Progress(w) && w.op.pc == Finished(Succeeded) && w.op.committed
    ensures !w.op.deferred && !Holds(w.op.server, w.op.gateWindow)
    ensures CredentialsOf(w.op.server.spec, w.op.observed).Annotated? && AccessDone(w)
    ensures
      ManagedBy(w) == Wanted(w.name, w.op.server.spec, w.op.observed, Holds(w.op.server, w.op.budgetWindow))
      <==> !w.op.missedBudget && !w.op.missedConfig
  {
  }

  predicate Succeeds(w: World) {
    w.op.pc == Finished(Succeeded) && w.op.committed && !w.op.missedBudget && !w.op.missedConfig
  }

  lemma SameInputsSameWanted(name: string, spec: Spec, a: Secrets, b: Secrets, hold: bool)
    requires forall n :: n in SecretNames(spec) ==> SameSecret(a, b, n)
    ensures Wanted(name, spec, a, hold) == Wanted(name, spec, b, hold)
  {
    OnlyIndexedSecretsMatter(spec, a, b);
  }

  /** Two successful reconciles of a server on the same inputs end in the same state, whatever
      the two clusters looked like before: other reconciles, failures, edits, children deleted
      or changed by others.  Only the Secrets in the index count as inputs. */
  lemma Idempotent(w: World, at: nat, first: seq<Action>, x: World, again: nat, second: seq<Action>)
    requires w.name == x.name
    requires Callable(w, Read(at)) && AllBenign(w.name, first) && Succeeds(Run(DoRead(w, at), first))
    requires Callable(x, Read(again)) && AllBenign(x.name, second) && Succeeds(Run(DoRead(x, again), second))
    requires SameInputs(Run(DoRead(w, at), first), Run(DoRead(x, again), second))
    ensures ManagedBy(Run(DoRead(w, at), first)) == ManagedBy(Run(DoRead(x, again), second))
  {
    var u, v := Run(DoRead(w, at), first), Run(DoRead(x, again), second);
    RunKeepsName(DoRead(w, at), first);
    RunKeepsName(DoRead(x, again), second);
    SucceedsAsWanted(w, at, first);
    SucceedsAsWanted(x, again, second);
    SameInputsSameWanted(u.name, u.op.server.spec, u.op.observed, v.op.observed,
                         Holds(u.op.server, u.op.budgetWindow));
  }

  /** The reconciles work on the same spec, indexed Secrets and budget decision. */
  predicate SameInputs(u: World, v: World) {
    && u.op.server.spec == v.op.server.spec
    && Holds(u.op.server, u.op.budgetWindow) == Holds(v.op.server, v.op.budgetWindow)
    && forall n :: n in SecretNames(u.op.server.spec) ==> SameSecret(u.op.observed, v.op.observed, n)
  }

  lemma SucceedsAsWanted(w: World, at: nat, actions: seq<Action>)
    requires Callable(w, Read(at)) && AllBenign(w.name, actions) && Succeeds(Run(DoRead(w, at), actions))
    ensures var v := Run(DoRead(w, at), actions);
      ManagedBy(v) == Wanted(v.name, v.op.server.spec, v.op.observed, Holds(v.op.server, v.op.budgetWindow))
  {
    Converged(w, at, actions);
  }

  // ------------------------------------------------------------ one story

  /** Updates are held back for this server whenever no window is open. */
  predicate Playing(s: Server) {
    s.spec.policy.deferWhilePlaying && s.status.activePlayers > 0
  }

  /** The status a committed reconcile has stored. */
  function Committed(w: World): Status
    requires Progress(w) && w.op.pc.Finished? && w.op.committed
  {
    w.servers[w.op.version + 1].value.status
  }

  /** Flag, condition, requeue and skipped rollout of a committed reconcile always agree; the
      budget agrees with them exactly when nobody plays or its window was evaluated alike. */
  lemma ProgressCoheres(w: World)
    requires Progress(w) && w.op.pc.Finished? && w.op.committed && Coherent(Committed(w))
    ensures w.op.deferred <==> Committed(w).updateDeferred
    ensures w.op.deferred <==> Lookup(Committed(w).conditions, UPDATE_DEFERRED).Some?
    ensures w.op.deferred <==> w.op.pc == Finished(Requeue)
    ensures w.op.deferred <==> !w.op.applied
    ensures w.op.deferred ==> !w.op.gateWindow
    ensures !w.op.missedBudget ==>
      ((w.kids.budget == Some(0) <==> w.op.deferred)
       <==> !Playing(w.op.server) || w.op.budgetWindow == w.op.gateWindow)
  {
  }

  /** In every run: when the three evaluations of the windows agree, a closed budget, the
      deferral flag, its condition, the requeue and the skipped rollout are all the same
      thing, and each of them means that no maintenance window is reported as active. */
  lemma GateCoherence(w: World, at: nat, actions: seq<Action>)
    requires Inv(w) && Callable(w, Read(at)) && AllBenign(w.name, actions)
    ensures var v := Run(DoRead(w, at), actions);
      v.op.pc.Finished? && v.op.committed ==>
        && Progress(v)
        && (v.op.deferred <==> Committed(v).updateDeferred)
        && (v.op.deferred <==> Lookup(Committed(v).conditions, UPDATE_DEFERRED).Some?)
        && (v.op.deferred <==> v.op.pc == Finished(Requeue))
        && (v.op.deferred <==> !v.op.applied)
        && (!v.op.missedBudget && v.op.budgetWindow == v.op.gateWindow ==> (v.op.deferred <==> v.kids.budget == Some(0)))
        && (v.op.gateWindow == v.op.statusWindow ==> (v.op.deferred ==> !v.op.statusWindow))
  {
    ReadProgress(w, at);
    ReadInv(w, at);
    RunProgress(DoRead(w, at), actions);
    RunInv(DoRead(w, at), actions);
    var v := Run(DoRead(w, at), actions);
    if v.op.pc.Finished? && v.op.committed {
      assert AllCoherent(v.servers);
      ProgressCoheres(v);
    }
  }
}
