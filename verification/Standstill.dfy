/** A standstill: advice without a StatefulSet keeps the operator from creating one. */
module Standstill {
  import opened Api
  import opened Vertical
  import opened Protocol

  /** The operator applies recommendations itself. */
  predicate Applies(s: VerticalScaling) { s.enabled && s.mode == WhenIdle }

  predicate StillApplies(s: Option<Server>) { s.Some? ==> Applies(s.value.spec.scaling) }

  /** In every version the operator may still read. */
  ghost predicate AllApply(w: World) {
    forall k :: w.seen <= k < |w.servers| ==> StillApplies(w.servers[k])
  }

  predicate BeforeScaling(pc: Pc) {
    || pc.Finished? || pc == AtFinalizer || pc == AtCredentials || pc == AtPhaseError || pc == AtClaim || pc == AtAccess
    || pc == AtBudget || pc == AtVpa || pc == AtScaling || pc == AtClaimDelete || pc == AtUnguard
  }

  predicate Advised(w: World) {
    w.kids.vpa.Some? && Asks(w.kids.vpa.value.recommendations)
  }

  /** There is advice but no StatefulSet, and the reconcile under way, if any, has yet to find out. */
  ghost predicate Stuck(w: World) {
    && |w.servers| > 0 && w.seen < |w.servers| && AllApply(w)
    && Latest(w.sets).None? && Advised(w) && BeforeScaling(w.op.pc)
    && (!w.op.pc.Finished? ==> Applies(w.op.server.spec.scaling))
  }

  /** Nobody takes the advice back or stops asking for it (it may change), and no read shows a StatefulSet of the past. */
  predicate Unrelieved(w: World, a: Action) {
    match a
    case Operate(ApplyRecommendation(at)) => at < |w.sets| ==> w.sets[at].None?
    case Disturb(UserCreate(spec, _)) => Applies(spec.scaling)
    case Disturb(UserEdit(spec, _)) => Applies(spec.scaling)
    case Disturb(SetRecommendations(recommendations)) => Asks(recommendations)
    case Disturb(LoseChild(child)) => child != VpaChild
    case _ => true
  }

  lemma StoredStuck(w: World, v: World)
    requires Stuck(w)
    requires v.sets == w.sets && v.kids.vpa == w.kids.vpa && v.seen == w.seen && BeforeScaling(v.op.pc)
    requires v.servers == w.servers || (exists s :: v.servers == w.servers + [s] && StillApplies(s))
    requires v.op.server.spec == w.op.server.spec && (w.op.pc.Finished? ==> v.op.pc.Finished?)
    ensures Stuck(v)
  {
  }

  lemma RemoveFinalizerStuck(w: World, acknowledged: bool)
    requires Stuck(w) && w.op.pc == AtUnguard
    ensures Stuck(DoRemoveFinalizer(w, acknowledged))
  {
    StoredStuck(w, DoRemoveFinalizer(w, acknowledged));
  }

  lemma WritingCallStuck(w: World, c: Call)
    requires Stuck(w) && Callable(w, c) && (c.AddFinalizer? || c.PhaseError?)
    ensures Stuck(Operated(w, c))
  {
    match c
    case AddFinalizer => StoredStuck(w, DoAddFinalizer(w)); return;
    case PhaseError(lands) => StoredStuck(w, DoPhaseError(w, lands)); return;
  }

  lemma OtherCallStuck(w: World, c: Call)
    requires Stuck(w) && Callable(w, c)
    requires c.Credentials? || c.EnsureClaim? || c.EnsureAccess? || c.EnsureBudget? || c.DeleteClaim? || c.GiveUp?
    ensures Stuck(Operated(w, c))
  {
    match c
    case Credentials(found, shown) => StoredStuck(w, DoCredentials(w, found, shown)); return;
    case EnsureClaim(found) => StoredStuck(w, DoEnsureClaim(w, found)); return;
    case EnsureAccess(made) => StoredStuck(w, DoEnsureAccess(w, made)); return;
    case EnsureBudget(saw, now) => StoredStuck(w, DoEnsureBudget(w, saw, now)); return;
    case DeleteClaim(found) => StoredStuck(w, DoDeleteClaim(w, found)); return;
    case GiveUp => StoredStuck(w, Fail(w)); return;
  }

  lemma ReadStuck(w: World, at: nat)
    requires Stuck(w) && Callable(w, Read(at))
    ensures Stuck(DoRead(w, at))
  {
    assert StillApplies(w.servers[at]);
  }

  lemma EnsureVpaStuck(w: World, installed: bool)
    requires Stuck(w) && w.op.pc == AtVpa
    ensures Stuck(DoEnsureVpa(w, installed))
  {
  }

  lemma ApplyRecommendationStuck(w: World, at: nat)
    requires Stuck(w) && w.op.pc == AtScaling && at < |w.sets| && w.sets[at].None?
    ensures Stuck(DoApplyRecommendation(w, at))
  {
    StoredStuck(w, DoApplyRecommendation(w, at));
  }

  lemma CallStuck(w: World, c: Call)
    requires Stuck(w) && Callable(w, c) && Unrelieved(w, Operate(c))
    ensures Stuck(Operated(w, c))
  {
    match c
    case Read(at) => ReadStuck(w, at); return;
    case EnsureVpa(installed) => EnsureVpaStuck(w, installed); return;
    case ApplyRecommendation(at) => ApplyRecommendationStuck(w, at); return;
    case AddFinalizer => WritingCallStuck(w, c); return;
    case PhaseError(_) => WritingCallStuck(w, c); return;
    case RemoveFinalizer(acknowledged) => RemoveFinalizerStuck(w, acknowledged); return;
    case EnsurePolicy => return;
    case Gate(_) => return;
    case ReadStatefulSet(_) => return;
    case CreateSnapshot(_) => return;
    case PollSnapshot => return;
    case SnapshotTrouble => return;
    case UpdateStatefulSet => return;
    case EnsureService => return;
    case TakeSnapshot(_, _, _, _) => return;
    case CommitStatus(_, _, _) => return;
    case _ => OtherCallStuck(w, c); return;
  }

  lemma ChangeStuck(w: World, c: Change)
    requires Stuck(w) && Unrelieved(w, Disturb(c))
    ensures Stuck(Disturbed(w, c))
  {
    assert StillApplies(Latest(w.servers));
    match c
    case UserCreate(spec, finalizers) =>
      if Latest(w.servers).None? { StoredStuck(w, DoUserCreate(w, spec, finalizers)); } return;
    case UserEdit(spec, finalizers) =>
      if Latest(w.servers).Some? { StoredStuck(w, DoUserEdit(w, spec, finalizers)); } return;
    case UserDelete => if Latest(w.servers).Some? { StoredStuck(w, DoUserDelete(w)); } return;
    case LoseStatefulSet => return;
    case _ => return;
  }

  lemma SidecarStuck(w: World, a: Action)
    requires Stuck(w) && (a.SidecarGet? || a.SidecarPatch?)
    ensures Stuck(Step(w, a))
  {
    assert StillApplies(Latest(w.servers));
    StoredStuck(w, Step(w, a));
  }

  lemma StepStuck(w: World, a: Action)
    requires Stuck(w) && Unrelieved(w, a)
    ensures Stuck(Step(w, a))
  {
    match a
    case Operate(call) => if Callable(w, call) { CallStuck(w, call); } return;
    case Disturb(change) => ChangeStuck(w, change); return;
    case _ => SidecarStuck(w, a); return;
  }

  ghost predicate UnrelievedRun(w: World, actions: seq<Action>) {
    actions == [] ||
    (UnrelievedRun(w, actions[..|actions| - 1])
     && Unrelieved(Run(w, actions[..|actions| - 1]), actions[|actions| - 1]))
  }

  /** However many reconciles run: as long as the advice stands, the missing StatefulSet is not
      created, no status is committed, and every reconcile that gets there fails. */
  lemma {:induction false} AdviceBlocksCreation(w: World, actions: seq<Action>)
    requires Stuck(w) && UnrelievedRun(w, actions)
    ensures var v := Run(w, actions); Stuck(v) && Latest(v.sets).None? && v.op.pc != AtStatefulSet && v.op.pc != AtStatus
  {
    if actions != [] {
      AdviceBlocksCreation(w, actions[..|actions| - 1]);
      StepStuck(Run(w, actions[..|actions| - 1]), actions[|actions| - 1]);
    }
  }
}
