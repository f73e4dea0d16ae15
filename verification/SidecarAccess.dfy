/** The sidecar's service account, role and binding: granted, and never taken back. */
module SidecarAccess {
  import opened Api
  import opened Protocol
  import opened Convergence

  lemma CallKeepsAccess(w: World, c: Call)
    requires Callable(w, c) && !c.EnsureAccess?
    ensures Operated(w, c).kids.access == w.kids.access
  {
  }

  /** No call of the operator removes any of them. */
  lemma CallTakesNothing(w: World, c: Call)
    requires Callable(w, c)
    ensures w.kids.access <= Operated(w, c).kids.access
  {
    if !c.EnsureAccess? {
      CallKeepsAccess(w, c);
    }
  }

  lemma ChangeKeepsAccess(w: World, c: Change)
    requires c != LoseChild(AccessChild)
    ensures Disturbed(w, c).kids.access == w.kids.access
  {
  }

  /** In every run: unless somebody else deletes them, what there is of them stays. */
  lemma {:induction false} RunTakesNothing(w: World, actions: seq<Action>)
    requires Disturb(LoseChild(AccessChild)) !in actions
    ensures w.kids.access <= Run(w, actions).kids.access
  {
    if actions != [] {
      var before, a := actions[..|actions| - 1], actions[|actions| - 1];
      var u := Run(w, before);
      RunTakesNothing(w, before);
      StepTakesNothing(u, a);
    }
  }

  lemma StepTakesNothing(w: World, a: Action)
    requires a != Disturb(LoseChild(AccessChild))
    ensures w.kids.access <= Step(w, a).kids.access
  {
    match a
    case Operate(call) => if Callable(w, call) { CallTakesNothing(w, call); } return;
    case SidecarGet(_) => return;
    case SidecarPatch(_) => return;
    case Disturb(change) => ChangeKeepsAccess(w, change); return;
  }

  // ------------------------------------------------------------ exactly what a success leaves

  function Grants(spec: Spec): set<Access> {
    if spec.sidecar.enabled then {Account, Role, Binding} else {}
  }

  /** What a reconcile that found `before` has made of it. */
  predicate Accounted(w: World, before: set<Access>) {
    if w.op.pc.Finished? && !w.op.committed then true
    else w.kids.access == before + if Place(w.op) > 2 then Grants(w.op.server.spec) else {}
  }

  lemma EnsureAccessAccounts(w: World, made: nat, before: set<Access>)
    requires w.op.pc == AtAccess && !w.op.committed && Accounted(w, before)
    ensures Accounted(DoEnsureAccess(w, made), before)
  {
    if made >= 3 {
      assert Granted(made) == {Account, Role, Binding};
    }
  }

  /** Other calls stay on their side of the access objects, or fail. */
  predicate SameSide(w: World, v: World) {
    || (v.op.pc.Finished? && !v.op.committed)
    || ((Place(v.op) > 2 <==> Place(w.op) > 2) && v.op.server.spec == w.op.server.spec)
  }

  lemma FirstCallsSameSide(w: World, c: Call)
    requires Callable(w, c) && !w.op.committed
    requires c.AddFinalizer? || c.Credentials? || c.PhaseError? || c.EnsureClaim? || c.DeleteClaim? || c.RemoveFinalizer?
    ensures SameSide(w, Operated(w, c))
  {
    match c
    case AddFinalizer => return;
    case Credentials(_, _) => return;
    case PhaseError(_) => return;
    case EnsureClaim(_) => return;
    case DeleteClaim(_) => return;
    case RemoveFinalizer(_) => return;
  }

  lemma MiddleCallsSameSide(w: World, c: Call)
    requires Callable(w, c) && !w.op.committed
    requires c.EnsureBudget? || c.EnsureVpa? || c.ApplyRecommendation? || c.EnsurePolicy? || c.Gate?
    ensures SameSide(w, Operated(w, c))
  {
    match c
    case EnsureBudget(_, _) => return;
    case EnsureVpa(_) => return;
    case ApplyRecommendation(_) => return;
    case EnsurePolicy => return;
    case Gate(_) => return;
  }

  lemma RolloutCallsSameSide(w: World, c: Call)
    requires Callable(w, c) && !w.op.committed && (c.ReadStatefulSet? || c.UpdateStatefulSet?)
    ensures SameSide(w, Operated(w, c))
  {
    match c
    case ReadStatefulSet(_) => return;
    case UpdateStatefulSet => return;
  }

  lemma SnapshotCallsSameSide(w: World, c: Call)
    requires Callable(w, c) && !w.op.committed && (c.CreateSnapshot? || c.PollSnapshot? || c.SnapshotTrouble?)
    ensures SameSide(w, Operated(w, c))
  {
    match c
    case CreateSnapshot(_) => return;
    case PollSnapshot => return;
    case SnapshotTrouble => return;
  }

  lemma LateCallsSameSide(w: World, c: Call)
    requires Callable(w, c) && !w.op.committed
    requires c.EnsureService? || c.TakeSnapshot? || c.CommitStatus? || c.GiveUp?
    ensures SameSide(w, Operated(w, c))
  {
    match c
    case EnsureService => return;
    case TakeSnapshot(_, _, _, _) => return;
    case CommitStatus(_, _, _) => return;
    case GiveUp => return;
  }

  lemma CallSameSide(w: World, c: Call)
    requires Callable(w, c) && !w.op.committed && !c.Read? && !c.EnsureAccess?
    ensures SameSide(w, Operated(w, c))
  {
    if c.AddFinalizer? || c.Credentials? || c.PhaseError? || c.EnsureClaim? || c.DeleteClaim? || c.RemoveFinalizer? {
      FirstCallsSameSide(w, c);
    } else if c.EnsureBudget? || c.EnsureVpa? || c.ApplyRecommendation? || c.EnsurePolicy? || c.Gate? {
      MiddleCallsSameSide(w, c);
    } else if c.EnsureService? || c.TakeSnapshot? || c.CommitStatus? || c.GiveUp? {
      LateCallsSameSide(w, c);
    } else if c.ReadStatefulSet? || c.UpdateStatefulSet? {
      RolloutCallsSameSide(w, c);
    } else {
      SnapshotCallsSameSide(w, c);
    }
  }

  lemma CallAccounts(w: World, c: Call, before: set<Access>)
    requires Callable(w, c) && !c.Read? && !w.op.committed && Accounted(w, before)
    ensures Accounted(Operated(w, c), before)
  {
    if c.EnsureAccess? {
      EnsureAccessAccounts(w, c.made, before);
    } else {
      CallSameSide(w, c);
      CallKeepsAccess(w, c);
    }
  }

  lemma OthersAccount(w: World, a: Action, before: set<Access>)
    requires !a.Operate? && Benign(w.name, a) && Accounted(w, before)
    ensures Accounted(Step(w, a), before)
  {
    OthersLeaveUndisturbed(w, a);
  }

  /** One reconcile: nothing but its first action reads the resource. */
  predicate OneReconcile(actions: seq<Action>) {
    forall a :: a in actions ==> !(a.Operate? && a.call.Read?)
  }

  lemma StepAccounts(w: World, a: Action, before: set<Access>)
    requires Progress(w) && Accounted(w, before) && Benign(w.name, a) && !(a.Operate? && a.call.Read?)
    ensures Accounted(Step(w, a), before)
  {
    if !a.Operate? {
      OthersAccount(w, a, before);
    } else if Callable(w, a.call) {
      CallAccounts(w, a.call, before);
    }
  }

  lemma {:induction false} RunAccounts(w: World, actions: seq<Action>, before: set<Access>)
    requires Progress(w) && Accounted(w, before) && AllBenign(w.name, actions) && OneReconcile(actions)
    ensures Accounted(Run(w, actions), before)
  {
    if actions != [] {
      var init, a := actions[..|actions| - 1], actions[|actions| - 1];
      RunAccounts(w, init, before);
      RunProgress(w, init);
      RunKeepsName(w, init);
      StepAccounts(Run(w, init), a, before);
    }
  }

  /** From any state of the cluster: a committed reconcile leaves exactly what it found, and all
      three objects besides if the sidecar is enabled.  So a disabled sidecar still has an
      object after a success if and only if it had it before. */
  lemma AccessAfterSuccess(w: World, at: nat, actions: seq<Action>)
    requires Callable(w, Read(at)) && AllBenign(w.name, actions) && OneReconcile(actions)
    ensures var v := Run(DoRead(w, at), actions);
      v.op.committed && v.op.pc.Finished? ==> v.kids.access == w.kids.access + Grants(v.op.server.spec)
  {
    ReadProgress(w, at);
    assert Accounted(DoRead(w, at), w.kids.access);
    RunAccounts(DoRead(w, at), actions, w.kids.access);
  }
}
