/** What the protocol guarantees about the status, the save data and the StatefulSet,
    in every run. */
module Guarantees {
  import opened Api
  import opened Config
  import opened Cron
  import opened Objects
  import opened StatusRules
  import opened Vertical
  import opened Protocol
  import opened Invariants

  // ------------------------------------------------------------ two writers, one status

  /** In every interleaving: the stored verdict is the operator's last one, the stored report
      is the sidecar's last one as long as that was not computed from another incarnation
      of the resource, and every status ever stored is coherent. */
  lemma TwoWriters(w: World, actions: seq<Action>)
    requires Initial(w)
    ensures var v := Run(w, actions);
      && (Latest(v.servers).Some? ==>
            && VerdictOf(Latest(v.servers).value.status) == v.history.verdict
            && (!v.history.crossed ==> ReportOf(Latest(v.servers).value.status) == v.history.report))
      && (forall k :: 0 <= k < |v.servers| && v.servers[k].Some? ==> Coherent(v.servers[k].value.status))
  {
    InitialInv(w);
    RunInv(w, actions);
  }

  /** A patch that lands stores the report exactly when every field it leaves out is already
      stored with the reported value; on the incarnation that was read it always does. */
  lemma PatchStoresReportIff(w: World)
    requires Inv(w) && w.sidecar.Holding? && Latest(w.servers).Some?
    ensures var s := Latest(DoSidecarPatch(w, true).servers);
      var was, base, report := ReportOf(Latest(w.servers).value.status), w.sidecar.base, w.sidecar.report;
      && s.Some?
      && (Latest(w.servers).value.uid == w.sidecar.uid ==> ReportOf(s.value.status) == report)
      && (ReportOf(s.value.status) == report <==>
            && (report.players == base.players ==> was.players == report.players)
            && (report.version == base.version ==> was.version == report.version))
  {
  }

  /** A server is created and the sidecar reports three players. */
  function Reporting(spec: Spec): seq<Action> {
    [Disturb(UserCreate(spec, {})), SidecarGet(Report(3, "1.0")), SidecarPatch(true)]
  }

  /** The resource is deleted and created again between the sidecar's read and its patch. */
  function Crossing(spec: Spec): seq<Action> {
    [Disturb(UserDelete), Disturb(UserCreate(spec, {})), SidecarPatch(true)]
  }

  lemma ReportingStores(w: World, spec: Spec)
    requires Initial(w)
    ensures var v := Run(w, Reporting(spec));
      && Latest(v.servers).Some? && Latest(v.servers).value.finalizers == {} && v.sidecar.Resting?
      && Latest(v.servers).value.uid < v.uids && ReportOf(Latest(v.servers).value.status) == Report(3, "1.0")
  {
    RunThree(w, Reporting(spec)[0], Reporting(spec)[1], Reporting(spec)[2]);
    var created := DoUserCreate(w, spec, {});
    assert Step(w, Reporting(spec)[0]) == created;
    var held := DoSidecarGet(created, Report(3, "1.0"));
    assert Step(created, Reporting(spec)[1]) == held;
    assert Step(held, Reporting(spec)[2]) == DoSidecarPatch(held, true);
  }

  lemma CrossingMixes(w: World, spec: Spec)
    requires Latest(w.servers).Some? && Latest(w.servers).value.finalizers == {}
    requires w.sidecar.Holding? && w.sidecar.uid < w.uids
    requires w.sidecar.base.version == w.sidecar.report.version && w.sidecar.base != w.sidecar.report
    ensures var v := Run(w, Crossing(spec));
      && Latest(v.servers).Some? && v.history.crossed && v.history.report == w.sidecar.report
      && ReportOf(Latest(v.servers).value.status) == Report(w.sidecar.report.players, "")
  {
    RunThree(w, Crossing(spec)[0], Crossing(spec)[1], Crossing(spec)[2]);
    var gone := DoUserDelete(w);
    assert Step(w, Crossing(spec)[0]) == gone;
    var again := DoUserCreate(gone, spec, {});
    assert Step(gone, Crossing(spec)[1]) == again;
    assert Step(again, Crossing(spec)[2]) == DoSidecarPatch(again, true);
  }

  /** Then the stored report need not be the sidecar's: the version it left out is lost. */
  lemma CrossedPatchMixes(w: World, spec: Spec)
    requires Initial(w)
    ensures var v := Run(w, Reporting(spec) + [SidecarGet(Report(4, "1.0"))] + Crossing(spec));
      && Latest(v.servers).Some? && v.history.crossed
      && v.history.report == Report(4, "1.0") && ReportOf(Latest(v.servers).value.status) == Report(4, "")
  {
    var reported := Run(w, Reporting(spec));
    ReportingStores(w, spec);
    RunPush(w, Reporting(spec), SidecarGet(Report(4, "1.0")));
    RunAppend(w, Reporting(spec) + [SidecarGet(Report(4, "1.0"))], Crossing(spec));
    CrossingMixes(DoSidecarGet(reported, Report(4, "1.0")), spec);
  }

  /** Whenever a run commits a deferral, the status it is committed to counts players. */
  lemma DeferralSeesPlayers(w: World, actions: seq<Action>, k: nat)
    requires Initial(w) && k < |actions| && actions[k].Operate? && actions[k].call.CommitStatus?
    ensures var before, after := At(w, actions, k), At(w, actions, k + 1);
      |after.servers| > |before.servers| ==>
        && Latest(after.servers).Some?
        && (Latest(after.servers).value.status.updateDeferred ==> Latest(after.servers).value.status.activePlayers > 0)
  {
    InitialInv(w);
    RunInv(w, actions[..k]);
    RunStep(w, actions, k);
    CommitSeesPlayers(At(w, actions, k), actions[k].call);
  }

  lemma CommitSeesPlayers(w: World, c: Call)
    requires Inv(w) && c.CommitStatus?
    ensures var s := Latest(Step(w, Operate(c)).servers);
      |Step(w, Operate(c)).servers| > |w.servers| ==>
        s.Some? && (s.value.status.updateDeferred ==> s.value.status.activePlayers > 0)
  {
    if !Callable(w, c) { return; }
    if !IsLatest(w.servers, w.op.version) { return; }
  }

  // ------------------------------------------------------------ who writes the StatefulSet

  predicate WritesStatefulSet(a: Action) {
    || (a.Operate? && (a.call.ApplyRecommendation? || a.call.ReadStatefulSet? || a.call.UpdateStatefulSet?))
    || (a.Disturb? && (a.change.SetRollout? || a.change.LoseStatefulSet?))
  }

  lemma CallKeepsSets(w: World, c: Call)
    requires Callable(w, c) && !WritesStatefulSet(Operate(c))
    ensures Operated(w, c).sets == w.sets
  {
  }

  lemma ChangeKeepsSets(w: World, c: Change)
    requires !WritesStatefulSet(Disturb(c))
    ensures Disturbed(w, c).sets == w.sets && Disturbed(w, c).op == w.op
  {
  }

  lemma OthersKeepSets(w: World, a: Action)
    requires !WritesStatefulSet(a)
    ensures Step(w, a).sets == w.sets
  {
    match a
    case Operate(call) => if Callable(w, call) { CallKeepsSets(w, call); } return;
    case SidecarGet(_) => return;
    case SidecarPatch(_) => return;
    case Disturb(change) => ChangeKeepsSets(w, change); return;
  }

  // ------------------------------------------------------------ who writes Secrets

  lemma FirstKeepsSecrets(w: World, c: Call)
    requires Callable(w, c)
    requires c.Read? || c.AddFinalizer? || c.PhaseError? || c.EnsureClaim? || c.EnsureAccess?
    ensures Operated(w, c).secrets == w.secrets
  {
    match c
    case Read(_) => return;
    case AddFinalizer => return;
    case PhaseError(_) => return;
    case EnsureClaim(_) => return;
    case EnsureAccess(_) => return;
  }

  lemma EarlyKeepsSecrets(w: World, c: Call)
    requires Callable(w, c)
    requires c.EnsureBudget? || c.EnsureVpa? || c.ApplyRecommendation? || c.EnsurePolicy? || c.Gate?
    ensures Operated(w, c).secrets == w.secrets
  {
    match c
    case EnsureBudget(_, _) => return;
    case EnsureVpa(_) => return;
    case ApplyRecommendation(_) => return;
    case EnsurePolicy => return;
    case Gate(_) => return;
  }

  lemma RolloutKeepsSecrets(w: World, c: Call)
    requires Callable(w, c)
    requires c.ReadStatefulSet? || c.CreateSnapshot? || c.PollSnapshot? || c.SnapshotTrouble? || c.UpdateStatefulSet?
    ensures Operated(w, c).secrets == w.secrets
  {
    match c
    case ReadStatefulSet(_) => return;
    case CreateSnapshot(_) => return;
    case PollSnapshot => return;
    case SnapshotTrouble => return;
    case UpdateStatefulSet => return;
  }

  lemma LateKeepsSecrets(w: World, c: Call)
    requires Callable(w, c)
    requires c.EnsureService? || c.TakeSnapshot? || c.CommitStatus? || c.DeleteClaim? || c.RemoveFinalizer? || c.GiveUp?
    ensures Operated(w, c).secrets == w.secrets
  {
    match c
    case EnsureService => return;
    case TakeSnapshot(_, _, _, _) => return;
    case CommitStatus(_, _, _) => return;
    case DeleteClaim(_) => return;
    case RemoveFinalizer(_) => return;
    case GiveUp => return;
  }

  lemma OthersKeepSecrets(w: World, c: Call)
    requires Callable(w, c) && !c.Credentials?
    ensures Operated(w, c).secrets == w.secrets
  {
    if c.ReadStatefulSet? || c.CreateSnapshot? || c.PollSnapshot? || c.SnapshotTrouble? || c.UpdateStatefulSet? {
      RolloutKeepsSecrets(w, c);
    } else if c.EnsureService? || c.TakeSnapshot? || c.CommitStatus? || c.DeleteClaim? || c.RemoveFinalizer? || c.GiveUp? {
      LateKeepsSecrets(w, c);
    } else if c.EnsureBudget? || c.EnsureVpa? || c.ApplyRecommendation? || c.EnsurePolicy? || c.Gate? {
      EarlyKeepsSecrets(w, c);
    } else {
      FirstKeepsSecrets(w, c);
    }
  }

  /** No call writes any Secret but the one of the config Secret's name. */
  lemma CallLeavesSecrets(w: World, c: Call, n: string)
    requires Callable(w, c) && n != ConfigSecretName(w.name)
    ensures SameSecret(w.secrets, Operated(w, c).secrets, n)
  {
    if !c.Credentials? {
      OthersKeepSecrets(w, c);
    }
  }

  // ------------------------------------------------------------ deferred reconciles

  /** The part of a reconcile only an undeferred one reaches. */
  predicate RollingOut(pc: Pc) {
    pc == AtStatefulSet || pc == AtSnapshot || pc == AtPoll || pc == AtRollout
  }

  /** The step is one of a deferred reconcile, or not one of the operator at all: scaling
      advice is applied on behalf of a copy with players, and the gate holds. */
  predicate Deferring(w: World, a: Action) {
    && (w.op.pc == AtScaling ==> w.op.server.status.activePlayers > 0)
    && (w.op.pc == AtGate && a.Operate? && a.call.Gate? ==>
          Holds(w.op.server, InAnyWindow(w.op.server.spec.policy.windows, a.call.now)))
  }

  /** Not created; frozen except for the game's cpu and memory requests; memory not lowered or
      dropped.  It may be gone. */
  predicate OnlyGrew(a: Option<StatefulSet>, b: Option<StatefulSet>) {
    b.Some? ==> a.Some? && FrozenButRequests(a.value, b.value) && MemoryKept(a.value, b.value)
  }

  lemma OnlyGrewTrans(a: Option<StatefulSet>, b: Option<StatefulSet>, c: Option<StatefulSet>)
    requires OnlyGrew(a, b) && OnlyGrew(b, c)
    ensures OnlyGrew(a, c)
  {
    if c.Some? {
      FrozenTrans(a.value, b.value, c.value);
    }
  }

  lemma OnlyGrewSame(a: Option<StatefulSet>)
    requires a.Some? ==> GameLeads(a.value)
    ensures OnlyGrew(a, a)
  {
    if a.Some? {
      var c := a.value.template.containers[0];
      assert c.resources == c.resources.(requests := c.resources.requests);
      assert a.value.template.containers == a.value.template.containers[0 := c];
    }
  }

  lemma PlanOnlyGrows(sts: StatefulSet, advice: seq<Recommendation>)
    requires GameLeads(sts)
    ensures var plan := Plan(Some(sts), advice, true);
      plan.Some? ==> OnlyGrew(Some(sts), plan)
  {
    ScaledKeeps(sts, advice, true);
  }

  lemma AdviceOnlyGrows(sets: seq<Option<StatefulSet>>, at: nat, advice: seq<Recommendation>)
    requires at < |sets| && AllLed(sets)
    ensures OnlyGrew(Latest(sets), Latest(SetsAfterAdvice(sets, at, advice, true)))
    ensures Latest(sets).Some? ==> Latest(SetsAfterAdvice(sets, at, advice, true)).Some?
  {
    OnlyGrewSame(Latest(sets));
    if sets[at].Some? {
      PlanOnlyGrows(sets[at].value, advice);
    }
  }

  lemma ChangeOnlyGrows(w: World, c: Change)
    requires Inv(w)
    ensures OnlyGrew(Latest(w.sets), Latest(Disturbed(w, c).sets)) && Disturbed(w, c).op == w.op
    ensures !c.LoseStatefulSet? && Latest(w.sets).Some? ==> Latest(Disturbed(w, c).sets).Some?
  {
    OnlyGrewSame(Latest(w.sets));
    if !c.SetRollout? && !c.LoseStatefulSet? {
      ChangeKeepsSets(w, c);
    }
  }

  /** Only an open gate lets a reconcile into the rollout. */
  lemma EarlyCallStaysOut(w: World, c: Call)
    requires Callable(w, c) && !RollingOut(w.op.pc)
    requires c.Credentials? || c.EnsureClaim? || c.EnsureAccess? || c.EnsureBudget? || c.EnsureVpa?
    ensures !RollingOut(Operated(w, c).op.pc)
  {
    match c
    case Credentials(_, _) => return;
    case EnsureClaim(_) => return;
    case EnsureAccess(_) => return;
    case EnsureBudget(_, _) => return;
    case EnsureVpa(_) => return;
  }

  lemma AsideCallStaysOut(w: World, c: Call)
    requires Callable(w, c) && !RollingOut(w.op.pc)
    requires c.Read? || c.AddFinalizer? || c.PhaseError? || c.DeleteClaim? || c.RemoveFinalizer?
    ensures !RollingOut(Operated(w, c).op.pc)
  {
    match c
    case Read(_) => return;
    case AddFinalizer => return;
    case PhaseError(_) => return;
    case DeleteClaim(_) => return;
    case RemoveFinalizer(_) => return;
  }

  lemma LateCallStaysOut(w: World, c: Call)
    requires Callable(w, c) && !RollingOut(w.op.pc)
    requires c.EnsureService? || c.TakeSnapshot? || c.CommitStatus? || c.GiveUp?
    ensures !RollingOut(Operated(w, c).op.pc)
  {
    match c
    case EnsureService => return;
    case TakeSnapshot(_, _, _, _) => return;
    case CommitStatus(_, _, _) => return;
    case GiveUp => return;
  }

  lemma CallStaysOut(w: World, c: Call)
    requires Callable(w, c) && !RollingOut(w.op.pc) && Deferring(w, Operate(c))
    ensures !RollingOut(Operated(w, c).op.pc)
  {
    match c
    case ApplyRecommendation(_) => return;
    case EnsurePolicy => return;
    case Gate(_) => return;
    case EnsureService => LateCallStaysOut(w, c); return;
    case TakeSnapshot(_, _, _, _) => LateCallStaysOut(w, c); return;
    case CommitStatus(_, _, _) => LateCallStaysOut(w, c); return;
    case GiveUp => LateCallStaysOut(w, c); return;
    case Credentials(_, _) => EarlyCallStaysOut(w, c); return;
    case EnsureClaim(_) => EarlyCallStaysOut(w, c); return;
    case EnsureAccess(_) => EarlyCallStaysOut(w, c); return;
    case EnsureBudget(_, _) => EarlyCallStaysOut(w, c); return;
    case EnsureVpa(_) => EarlyCallStaysOut(w, c); return;
    case _ => AsideCallStaysOut(w, c); return;
  }

  lemma DeferringStep(w: World, a: Action)
    requires Inv(w) && !RollingOut(w.op.pc) && Deferring(w, a)
    ensures !RollingOut(Step(w, a).op.pc)
    ensures OnlyGrew(Latest(w.sets), Latest(Step(w, a).sets))
    ensures a != Disturb(LoseStatefulSet) && Latest(w.sets).Some? ==> Latest(Step(w, a).sets).Some?
  {
    OnlyGrewSame(Latest(w.sets));
    match a
    case Operate(call) =>
      if !Callable(w, call) { return; }
      CallStaysOut(w, call);
      if call.ApplyRecommendation? {
        AdviceOnlyGrows(w.sets, call.at, Advice(w.op.server.spec.scaling, w.kids.vpa));
      } else {
        CallKeepsSets(w, call);
      }
      return;
    case SidecarGet(_) => OthersKeepSets(w, a); return;
    case SidecarPatch(_) => OthersKeepSets(w, a); return;
    case Disturb(change) => ChangeOnlyGrows(w, change); return;
  }

  predicate DeferringRun(w: World, actions: seq<Action>) {
    actions == [] ||
    (DeferringRun(w, actions[..|actions| - 1])
     && Deferring(Run(w, actions[..|actions| - 1]), actions[|actions| - 1]))
  }

  /** Over any run of deferred reconciles, with everybody else moving in between, the
      StatefulSet is neither created nor created again after somebody deleted it, nothing in
      it changes but the game container's cpu and memory requests, and its memory request
      is never lowered or dropped. */
  lemma {:induction false} FrozenWhileDeferred(w: World, actions: seq<Action>)
    requires Inv(w) && w.op.pc.Finished? && DeferringRun(w, actions)
    ensures !RollingOut(Run(w, actions).op.pc)
    ensures OnlyGrew(Latest(w.sets), Latest(Run(w, actions).sets))
    ensures Disturb(LoseStatefulSet) !in actions && Latest(w.sets).Some? ==> Latest(Run(w, actions).sets).Some?
  {
    if actions == [] {
      OnlyGrewSame(Latest(w.sets));
    } else {
      var before := actions[..|actions| - 1];
      FrozenWhileDeferred(w, before);
      RunInv(w, before);
      DeferringStep(Run(w, before), actions[|actions| - 1]);
      OnlyGrewTrans(Latest(w.sets), Latest(Run(w, before).sets), Latest(Run(w, actions).sets));
    }
  }
}
