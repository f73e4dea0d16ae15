/** Save data: when the claim is created, kept and released, and on whose behalf the
    operator writes child objects at all. */
module SaveData {
  import opened Api
  import opened Objects
  import opened Snapshots
  import opened Protocol
  import opened Invariants

  // ------------------------------------------------------------ on whose behalf

  /** The children the operator maintains: everything but the resource itself. */
  predicate SameChildren(a: World, b: World) {
    a.kids == b.kids && a.sets == b.sets && a.snapshots == b.snapshots && a.secrets == b.secrets
  }

  /** The reconcile works on a stored version that carries the finalizer. */
  predicate OnBehalfOfGuarded(w: World) {
    w.op.version < |w.servers| && w.servers[w.op.version] == Some(w.op.server) && w.op.server.Guarded()
  }

  /** Nothing is written to any child before the finalizer is stored; on behalf of a version
      being deleted nothing is written except the release of the claim. */
  lemma WritesAreGuarded(w: World, c: Call)
    requires Inv(w) && Callable(w, c) && !SameChildren(w, Operated(w, c))
    ensures OnBehalfOfGuarded(w)
    ensures w.op.server.deleting ==>
      c.DeleteClaim? && !Retains(w.op.server.spec) && Operated(w, c).kids == w.kids.(claim := Operated(w, c).kids.claim)
  {
    if c.Read? || c.AddFinalizer? || c.RemoveFinalizer? || c.GiveUp? {
      AsideKeepsChildren(w, c);
    } else if !c.DeleteClaim? {
      OrdinaryCall(w, c);
    }
  }

  lemma AsideKeepsChildren(w: World, c: Call)
    requires Callable(w, c) && (c.Read? || c.AddFinalizer? || c.RemoveFinalizer? || c.GiveUp?)
    ensures SameChildren(w, Operated(w, c))
  {
  }

  /** The operator never touches a snapshot of another server. */
  lemma OthersSnapshotsKept(w: World, c: Call, name: string)
    requires Callable(w, c) && name in w.snapshots && w.snapshots[name].server != w.name
    ensures name in Operated(w, c).snapshots && Operated(w, c).snapshots[name] == w.snapshots[name]
  {
    if c.TakeSnapshot? && Due(w.op.server.spec, c.now) {
      var items := WithSnapshot(w.snapshots, w.name, c.snapshot);
      assert name in items && items[name] == w.snapshots[name] && name !in NamesOf(items, w.name);
      assert name !in items.Keys - c.left.Keys;
    }
  }

  lemma OrdinaryCall(w: World, c: Call)
    requires Inv(w) && Callable(w, c)
    requires !c.Read? && !c.AddFinalizer? && !c.RemoveFinalizer? && !c.DeleteClaim? && !c.GiveUp?
    ensures OnBehalfOfGuarded(w) && !w.op.server.deleting
  {
    assert Reconciling(w.op.pc);
  }

  /** In every run: whatever the operator writes to a child, some version stored before that
      carries the finalizer, and it is the version the reconcile works on. */
  lemma NoChildBeforeFinalizer(w: World, actions: seq<Action>, k: nat)
    requires Initial(w) && k < |actions| && actions[k].Operate?
    requires !SameChildren(At(w, actions, k), At(w, actions, k + 1))
    ensures OnBehalfOfGuarded(At(w, actions, k))
    ensures At(w, actions, k).op.server.deleting ==>
      actions[k].call.DeleteClaim? && !Retains(At(w, actions, k).op.server.spec)
  {
    InitialInv(w);
    RunInv(w, actions[..k]);
    RunStep(w, actions, k);
    if Callable(At(w, actions, k), actions[k].call) {
      WritesAreGuarded(At(w, actions, k), actions[k].call);
    }
  }

  // ------------------------------------------------------------ the claim

  lemma CallKeepsClaim(w: World, c: Call)
    requires Callable(w, c) && !c.EnsureClaim? && !c.DeleteClaim?
    ensures Operated(w, c).kids.claim == w.kids.claim
  {
  }

  lemma ChangeKeepsClaim(w: World, c: Change)
    requires !c.ClaimGone?
    ensures Disturbed(w, c).kids.claim == w.kids.claim
  {
  }

  /** The claim appears as built from a stored, guarded version that is not being deleted. */
  predicate Creates(w: World, a: Action, claim: Option<Claim>) {
    && w.kids.claim.None? && a == Operate(EnsureClaim(false))
    && claim == Some(BuildClaim(w.name, w.op.server.spec))
    && OnBehalfOfGuarded(w) && !w.op.server.deleting
  }

  /** The claim is deleted, otherwise unchanged, on behalf of a stored version that is being
      deleted and does not retain it. */
  predicate Releases(w: World, a: Action, claim: Option<Claim>) {
    && w.kids.claim.Some? && !w.kids.claim.value.terminating && a == Operate(DeleteClaim(true))
    && claim == Some(w.kids.claim.value.(terminating := true))
    && OnBehalfOfGuarded(w) && w.op.server.deleting && !Retains(w.op.server.spec)
  }

  /** The cluster completes a deletion. */
  predicate Vanishes(w: World, a: Action, claim: Option<Claim>) {
    w.kids.claim.Some? && w.kids.claim.value.terminating && a == Disturb(ClaimGone) && claim.None?
  }

  lemma CallChangesClaim(w: World, c: Call)
    requires Inv(w) && Callable(w, c) && Operated(w, c).kids.claim != w.kids.claim
    ensures var claim := Operated(w, c).kids.claim; Creates(w, Operate(c), claim) || Releases(w, Operate(c), claim)
  {
    match c
    case EnsureClaim(_) => return;
    case DeleteClaim(_) => return;
    case _ => CallKeepsClaim(w, c); return;
  }

  /** Nothing else ever happens to the claim: it is never rewritten after its creation. */
  lemma ClaimChanges(w: World, a: Action)
    requires Inv(w)
    ensures var claim := Step(w, a).kids.claim;
      claim == w.kids.claim || Creates(w, a, claim) || Releases(w, a, claim) || Vanishes(w, a, claim)
  {
    match a
    case Operate(call) =>
      if Callable(w, call) && Operated(w, call).kids.claim != w.kids.claim { CallChangesClaim(w, call); }
      return;
    case SidecarGet(_) => return;
    case SidecarPatch(_) => return;
    case Disturb(change) => if !change.ClaimGone? { ChangeKeepsClaim(w, change); } return;
  }

  /** Adding the finalizer keeps those of others, and everything else. */
  lemma OthersFinalizersKept(w: World)
    requires w.op.pc == AtFinalizer && IsLatest(w.servers, w.op.version)
    ensures var s := Latest(DoAddFinalizer(w).servers);
      && s.Some? && s.value == w.op.server.(finalizers := s.value.finalizers)
      && forall f :: f in s.value.finalizers <==> f in w.op.server.finalizers || f == FINALIZER
  {
  }

  /** Dropping the finalizer leaves those of others, and the resource goes exactly if there are none. */
  lemma OthersFinalizersStay(w: World, acknowledged: bool)
    requires w.op.pc == AtUnguard && IsLatest(w.servers, w.op.version)
    ensures var s := Latest(DoRemoveFinalizer(w, acknowledged).servers);
      && (s.None? <==> forall f :: f in w.op.server.finalizers ==> f == FINALIZER)
      && (s.Some? ==>
            && s.value == w.op.server.(finalizers := s.value.finalizers) && !s.value.Guarded()
            && forall f :: f != FINALIZER ==> (f in s.value.finalizers <==> f in w.op.server.finalizers))
  {
    var rest := w.op.server.finalizers - {FINALIZER};
    if f :| f in w.op.server.finalizers && f != FINALIZER {
      assert f in rest;
    }
  }

  /** A claim the read shows is left alone; one it does not show is created, which fails if there is one. */
  lemma ClaimCallTells(w: World, found: bool)
    requires w.op.pc == AtClaim
    ensures var v := Step(w, Operate(EnsureClaim(found)));
      && (v.op.pc == Finished(Failed) <==> !found && w.kids.claim.Some?)
      && (v.op.pc == AtAccess <==> found || w.kids.claim.None?)
      && (v.kids.claim != w.kids.claim <==> !found && w.kids.claim.None?)
  {
  }

  // ------------------------------------------------------------ versions are never forgotten

  lemma CallLogs(w: World, c: Call)
    requires Callable(w, c)
    ensures w.servers <= Operated(w, c).servers
  {
  }

  lemma ChangeLogs(w: World, c: Change)
    ensures w.servers <= Disturbed(w, c).servers
  {
  }

  lemma StepLogs(w: World, a: Action)
    ensures w.servers <= Step(w, a).servers
  {
    match a
    case Operate(call) => if Callable(w, call) { CallLogs(w, call); } return;
    case SidecarGet(_) => return;
    case SidecarPatch(_) => return;
    case Disturb(change) => ChangeLogs(w, change); return;
  }

  /** No version stored so far asks for the save data to be deleted. */
  predicate NeverDoomed(servers: seq<Option<Server>>) {
    forall k :: 0 <= k < |servers| && servers[k].Some? ==> !servers[k].value.deleting || Retains(servers[k].value.spec)
  }

  lemma NoReleaseUnlessDoomed(w: World, a: Action, claim: Option<Claim>)
    requires NeverDoomed(w.servers)
    ensures !Releases(w, a, claim)
  {
  }

  /** In every run: unless some stored version is being deleted without retaining its save
      data, a claim that is there stays there, unchanged. */
  lemma {:induction false} SaveDataKept(w: World, actions: seq<Action>)
    requires Inv(w) && w.kids.claim.Some? && !w.kids.claim.value.terminating
    requires NeverDoomed(Run(w, actions).servers)
    ensures Run(w, actions).kids.claim == w.kids.claim
  {
    if actions != [] {
      var before, a := actions[..|actions| - 1], actions[|actions| - 1];
      var u := Run(w, before);
      StepLogs(u, a);
      assert NeverDoomed(u.servers) by {
        assert forall k :: 0 <= k < |u.servers| ==> u.servers[k] == Step(u, a).servers[k];
      }
      SaveDataKept(w, before);
      RunInv(w, before);
      ClaimChanges(u, a);
      NoReleaseUnlessDoomed(u, a, Step(u, a).kids.claim);
    }
  }

  // ------------------------------------------------------------ release before the resource goes

  /** The step drops the finalizer from the stored resource. */
  predicate Unguards(w: World, a: Action) {
    a.Operate? && a.call.RemoveFinalizer? && Callable(w, a.call) && IsLatest(w.servers, w.op.version)
  }

  /** In every run: when the finalizer is dropped from a version that does not retain its save
      data, the claim is gone or being deleted exactly if the read of the claim did not miss it. */
  lemma ReleasedBeforeUnguarded(w: World, actions: seq<Action>, k: nat)
    requires Initial(w) && k < |actions| && Unguards(At(w, actions, k), actions[k])
    ensures var u, v := At(w, actions, k), At(w, actions, k + 1);
      && |v.servers| == |u.servers| + 1
      && OnBehalfOfGuarded(u) && u.op.server.deleting
      && (!Retains(u.op.server.spec) ==> (ClaimReleased(v) <==> !u.op.missedClaim))
  {
    InitialInv(w);
    RunInv(w, actions[..k]);
    RunStep(w, actions, k);
  }

  // ------------------------------------------------------------ on the field itself

  /** In every run: as long as every stored version that is being deleted leaves `retainOnDelete`
      unset or sets it, a claim that is there stays there, unchanged. */
  lemma RetainedDataKept(w: World, actions: seq<Action>)
    requires Inv(w) && w.kids.claim.Some? && !w.kids.claim.value.terminating
    requires var servers := Run(w, actions).servers;
      forall k :: 0 <= k < |servers| && servers[k].Some? && servers[k].value.deleting ==>
        servers[k].value.spec.storage.retainOnDelete == None || servers[k].value.spec.storage.retainOnDelete == Some(true)
    ensures Run(w, actions).kids.claim == w.kids.claim
  {
    SaveDataKept(w, actions);
  }

  predicate Disposable(s: Server) { s.spec.storage.retainOnDelete == Some(false) }

  /** A reconcile gets to the finalizer of a server whose data is not to be retained only by
      way of the claim. */
  lemma UnguardingCall(w: World, c: Call)
    requires Inv(w) && Callable(w, c) && Operated(w, c).op.pc == AtUnguard && Disposable(Operated(w, c).op.server)
    ensures w.op.pc == AtClaimDelete && c.DeleteClaim? && Operated(w, c) == DoDeleteClaim(w, c.found)
  {
    match c
    case Read(_) => return;
    case DeleteClaim(_) => return;
    case _ => NoUnguardingCall(w, c); return;
  }

  lemma NoUnguardingCall(w: World, c: Call)
    requires Callable(w, c) && !c.Read? && !c.DeleteClaim?
    ensures Operated(w, c).op.pc != AtUnguard
  {
    if c.ReadStatefulSet? || c.ApplyRecommendation? || c.UpdateStatefulSet? || c.PollSnapshot? { return; }
    if c.SnapshotTrouble? || c.CreateSnapshot? || c.TakeSnapshot? || c.CommitStatus? { return; }
  }

  lemma UnguardingStep(w: World, a: Action)
    requires Inv(w) && Step(w, a).op.pc == AtUnguard && Disposable(Step(w, a).op.server)
    ensures Step(w, a).op == w.op
            || (w.op.pc == AtClaimDelete && a.Operate? && a.call.DeleteClaim? && Step(w, a) == DoDeleteClaim(w, a.call.found))
  {
    match a
    case Operate(call) => if Callable(w, call) { UnguardingCall(w, call); } return;
    case SidecarGet(_) => return;
    case SidecarPatch(_) => return;
    case Disturb(change) => return;
  }

  /** Step `i` of the run handles the claim, and the reconcile goes on from there to step `k`. */
  predicate Handles(w: World, actions: seq<Action>, i: nat, k: nat)
    requires i < k <= |actions|
  {
    && At(w, actions, i).op.pc == AtClaimDelete && actions[i].Operate? && actions[i].call.DeleteClaim?
    && At(w, actions, k).op == DoDeleteClaim(At(w, actions, i), actions[i].call.found).op
  }

  lemma {:induction false} UnguardingHandled(w: World, actions: seq<Action>, k: nat) returns (i: nat)
    requires Initial(w) && k <= |actions| && At(w, actions, k).op.pc == AtUnguard && Disposable(At(w, actions, k).op.server)
    ensures i < k && Handles(w, actions, i, k)
  {
    assert actions[..0] == [];
    if k == 0 {
      assert false;
    }
    InitialInv(w);
    RunInv(w, actions[..k - 1]);
    RunStep(w, actions, k - 1);
    UnguardingStep(At(w, actions, k - 1), actions[k - 1]);
    if At(w, actions, k - 1).op == At(w, actions, k).op {
      i := UnguardingHandled(w, actions, k - 1);
    } else {
      i := k - 1;
    }
  }

  /** In every run: before the finalizer is dropped from a version whose data is not to be
      retained, the same reconcile has looked for its claim; and if that read was current, the
      claim is gone or being deleted when the finalizer goes. */
  lemma DisposableDataReleased(w: World, actions: seq<Action>, k: nat) returns (i: nat)
    requires Initial(w) && k < |actions| && Unguards(At(w, actions, k), actions[k])
    requires At(w, actions, k).op.server.spec.storage.retainOnDelete == Some(false)
    ensures i < k && Handles(w, actions, i, k)
    ensures var seen, claim := At(w, actions, i).kids.claim, At(w, actions, k + 1).kids.claim;
      actions[i].call.found == seen.Some? ==> claim.None? || claim.value.terminating
  {
    i := UnguardingHandled(w, actions, k);
    ReleasedBeforeUnguarded(w, actions, k);
  }

  // ------------------------------------------------------------ a leak

  /** A server is created and its first reconcile stores the finalizer, ... */
  function Guarding(spec: Spec): seq<Action> {
    [Disturb(UserCreate(spec, {})), Operate(Read(1)), Operate(AddFinalizer)]
  }

  /** ... creates the claim and stops there. */
  function Claiming(): seq<Action> {
    [Operate(Credentials(false, map[])), Operate(EnsureClaim(false))]
  }

  /** The user deletes the server; a cache that has not seen the claim yet shows none, ... */
  function Missing(): seq<Action> {
    [Disturb(UserDelete), Operate(Read(3)), Operate(DeleteClaim(false))]
  }

  predicate PlainAndDoomed(spec: Spec) {
    spec.groups == [] && spec.password.None? && !Retains(spec)
  }

  lemma GuardingStores(w: World, spec: Spec)
    requires Initial(w)
    ensures var v := Run(w, Guarding(spec));
      && v.op.pc == AtCredentials && v.op.server.spec == spec && v.op.version == 2 && v.seen == 1
      && v.op.server.finalizers == {FINALIZER} && |v.servers| == 3 && v.servers[2] == Some(v.op.server)
      && v.kids == w.kids && v.name == w.name
  {
    RunThree(w, Guarding(spec)[0], Guarding(spec)[1], Guarding(spec)[2]);
    var created := DoUserCreate(w, spec, {});
    assert Step(w, Guarding(spec)[0]) == created;
    var started := DoRead(created, 1);
    assert Step(created, Guarding(spec)[1]) == started;
    assert Step(started, Guarding(spec)[2]) == DoAddFinalizer(started);
  }

  lemma ClaimingSteps(w: World)
    requires w.op.pc == AtCredentials && PlainAndDoomed(w.op.server.spec)
    ensures Run(w, Claiming()) == DoEnsureClaim(DoCredentials(w, false, map[]), false)
  {
    var annotated := DoCredentials(w, false, map[]);
    assert Claiming() == [] + [Claiming()[0]] + [Claiming()[1]];
    RunPush(w, [], Claiming()[0]);
    RunPush(w, [] + [Claiming()[0]], Claiming()[1]);
    assert Step(w, Claiming()[0]) == annotated && annotated.op.pc == AtClaim;
  }

  lemma ClaimingFacts(w: World)
    requires w.op.pc == AtCredentials && PlainAndDoomed(w.op.server.spec) && w.kids.claim.None?
    ensures var v := DoEnsureClaim(DoCredentials(w, false, map[]), false);
      && v.kids.claim == Some(BuildClaim(w.name, w.op.server.spec)) && v.servers == w.servers && v.seen == w.seen
      && v.op.pc == AtAccess
  {
  }

  lemma ClaimingCreates(w: World)
    requires w.op.pc == AtCredentials && PlainAndDoomed(w.op.server.spec) && w.kids.claim.None?
    ensures var v := Run(w, Claiming() + [Operate(GiveUp)]);
      && v.kids.claim == Some(BuildClaim(w.name, w.op.server.spec)) && v.servers == w.servers
      && v.op.pc == Finished(Failed) && v.seen == w.seen
  {
    ClaimingSteps(w);
    ClaimingFacts(w);
    GivesUp(w, Claiming());
  }

  lemma GivesUp(w: World, actions: seq<Action>)
    requires !Run(w, actions).op.pc.Finished?
    ensures Run(w, actions + [Operate(GiveUp)]) == Fail(Run(w, actions))
  {
    RunPush(w, actions, Operate(GiveUp));
  }

  lemma MissingForgets(w: World)
    requires |w.servers| == 3 && w.servers[2].Some? && w.seen <= 3 && w.op.pc.Finished?
    requires var s := w.servers[2].value; s.finalizers == {FINALIZER} && !Retains(s.spec)
    ensures var v := Run(w, Missing());
      && v.op.pc == AtUnguard && v.op.version == 3 && |v.servers| == 4 && v.op.server.finalizers == {FINALIZER}
      && v.kids == w.kids
  {
    RunThree(w, Missing()[0], Missing()[1], Missing()[2]);
    var doomed := DoUserDelete(w);
    assert Step(w, Missing()[0]) == doomed;
    var started := DoRead(doomed, 3);
    assert Step(doomed, Missing()[1]) == started;
    assert Step(started, Missing()[2]) == DoDeleteClaim(started, false);
  }

  lemma UnguardingForgets(w: World)
    requires w.op.pc == AtUnguard && IsLatest(w.servers, w.op.version) && w.op.server.finalizers == {FINALIZER}
    ensures var v := Step(w, Operate(RemoveFinalizer(true)));
      Latest(v.servers).None? && v.op.pc == Finished(Succeeded) && v.kids == w.kids
  {
  }

  /** And a read can miss it: ... the resource goes, and its claim stays for good. */
  lemma StaleReadLeaksClaim(w: World, spec: Spec)
    requires Initial(w) && w.kids.claim.None? && PlainAndDoomed(spec)
    ensures var v := Step(Run(Run(Run(w, Guarding(spec)), Claiming() + [Operate(GiveUp)]), Missing()), Operate(RemoveFinalizer(true)));
      Latest(v.servers).None? && v.op.pc == Finished(Succeeded) && v.kids.claim == Some(BuildClaim(w.name, spec))
  {
    GuardingStores(w, spec);
    ClaimingCreates(Run(w, Guarding(spec)));
    MissingForgets(Run(Run(w, Guarding(spec)), Claiming() + [Operate(GiveUp)]));
    UnguardingForgets(Run(Run(Run(w, Guarding(spec)), Claiming() + [Operate(GiveUp)]), Missing()));
  }
}
