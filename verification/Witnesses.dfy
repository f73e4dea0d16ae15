/** Runs from the empty cluster that break what one might expect. */
module Witnesses {
  import opened Api
  import opened Config
  import opened Cron
  import opened CronSyntax
  import opened Objects
  import opened StatusRules
  import opened Vertical
  import opened Gauges
  import opened Protocol
  import opened Publications
  import opened Convergence
  import opened Liveness
  import opened Standstill
  import opened SidecarAccess
  import opened Stretches

  const ANY := Key("", "")

  // ------------------------------------------------------------ how the runs begin

  function Created(spec: Spec): seq<Action> {
    [Disturb(UserCreate(spec, {FINALIZER})), SidecarGet(Report(3, "1.0")), SidecarPatch(true)]
  }

  /** A server has been created, three people play, and nothing else has happened. */
  predicate Fresh(w: World, v: World, spec: Spec) {
    && Startable(v) && Latest(v.servers).value.Guarded() && Latest(v.servers).value.spec == spec
    && Latest(v.servers).value.status.activePlayers == 3
    && v.sets == w.sets && v.kids == w.kids && v.secrets == w.secrets && v.name == w.name
  }

  lemma CreatedPlays(w: World, spec: Spec, k: Key)
    requires Initial(w)
    ensures Fresh(w, Run(w, Created(spec)), spec) && Leg(w, k, Created(spec), Run(w, Created(spec)), [])
  {
    RunThree(w, Created(spec)[0], Created(spec)[1], Created(spec)[2]);
    var created := DoUserCreate(w, spec, {FINALIZER});
    assert Step(w, Created(spec)[0]) == created;
    var held := DoSidecarGet(created, Report(3, "1.0"));
    assert Step(created, Created(spec)[1]) == held;
    assert Step(held, Created(spec)[2]) == DoSidecarPatch(held, true);
    SilentRun(w, k, Created(spec));
  }

  /** The user writes another spec. */
  function Edit(spec: Spec): seq<Action> { [Disturb(UserEdit(spec, {FINALIZER}))] }

  lemma EditStep(v: World, spec: Spec)
    requires Latest(v.servers).Some? && !Latest(v.servers).value.deleting
    ensures var e := Step(v, Edit(spec)[0]);
      && e == DoUserEdit(v, spec, {FINALIZER}) && e.servers[..|v.servers|] == v.servers && |e.servers| == |v.servers| + 1
      && Latest(e.servers).Some? && !Latest(e.servers).value.deleting && Latest(e.servers).value.Guarded()
      && Latest(e.servers).value.spec == spec && Latest(e.servers).value.status == Latest(v.servers).value.status
  {
  }

  lemma EditStarts(v: World, now: Instant, aim: Aim, spec: Spec, k: Key)
    requires Done(v, now, aim)
    ensures var e := Run(v, Edit(spec));
      && Startable(e) && Latest(e.servers).value.Guarded() && Latest(e.servers).value.spec == spec
      && e.kids == v.kids && e.secrets == v.secrets && e.name == v.name && Leg(v, k, Edit(spec), e, [])
  {
    DoneFacts(v, now, aim);
    RunOne(v, Edit(spec)[0]);
    EditStep(v, spec);
    SilentRun(v, k, Edit(spec));
  }

  // ------------------------------------------------------------ budget and gate disagree

  /** A server with user groups that holds updates back while people play. */
  predicate Scene(spec: Spec, secrets: Secrets) {
    && !spec.scaling.enabled && spec.policy.strategy == NoSnapshot && spec.groups != []
    && spec.policy.deferWhilePlaying && CredentialsOf(spec, secrets).Annotated?
  }

  /** The window opens between the two evaluations: the budget is closed at `t`, and the gate
      lets the rollout through afterwards. */
  lemma OpensInBetween(w: World, spec: Spec, t: Instant, c: Conditions) returns (run: seq<Action>, v: World, aim: Aim)
    requires Initial(w) && Scene(spec, w.secrets) && c.preUpdate.None?
    requires !Open(spec, t) && Open(spec, c.now)
    ensures v == Run(w, run) && Done(v, c.now, aim) && aim == Aim(w.name, spec, w.secrets, 3, false, false, false)
  {
    CreatedPlays(w, spec, ANY);
    var u := Run(w, Created(spec));
    var rest, begun, call;
    rest, begun, v, call := ReconcileEnds(u, spec, false, None, t, c, ANY);
    run := Created(spec) + rest;
    RunAppend(w, Created(spec), rest);
    aim := Begins(begun);
  }

  /** In a run from the empty cluster a reconcile succeeds while people play, and it has closed
      the budget and rolled the StatefulSet out. */
  lemma BudgetAndGateDisagree(w: World, spec: Spec, t: Instant, c: Conditions) returns (run: seq<Action>)
    requires Initial(w) && Scene(spec, w.secrets) && c.preUpdate.None?
    requires !Open(spec, t) && Open(spec, c.now)
    ensures var v := Run(w, run);
      && v.op.pc == Finished(Succeeded) && v.op.committed && Playing(v.op.server)
      && v.kids.budget == Some(0) && !v.op.missedBudget && !v.op.deferred && v.op.applied
      && Latest(v.servers).Some? && !Latest(v.servers).value.status.updateDeferred
  {
    var v, aim;
    run, v, aim := OpensInBetween(w, spec, t, c);
    DoneFacts(v, c.now, aim);
  }

  /** Daily, in the hour from `h` on. */
  function Daily(h: nat): Window {
    Window("", false, "", "0", " ", List([Single(h)]), " ", "*", " ", "*", " ", Star, "")
  }

  /** Such an opening does occur: every daily window is closed one hour earlier. */
  lemma WindowOpens(h: nat, weekday: int)
    requires 0 < h < 24
    ensures Daily(h).WellFormed()
    ensures InAnyWindow([Daily(h).Text()], Instant(LocalTime(h, weekday), map[]))
    ensures !InAnyWindow([Daily(h).Text()], Instant(LocalTime(h - 1, weekday), map[]))
  {
    var before, after := Instant(LocalTime(h - 1, weekday), map[]), Instant(LocalTime(h, weekday), map[]);
    assert Daily(h).hour.items[0].Denotes(h);
    WindowMeaning(Daily(h), before);
    WindowMeaning(Daily(h), after);
    assert WindowMatches(after, [Daily(h).Text()][0]);
  }

  // ------------------------------------------------------------ stale reads are accepted

  /** The user clears the groups and no longer holds updates back. */
  function Cleared(spec: Spec): Spec {
    spec.(groups := [], password := None, policy := spec.policy.(deferWhilePlaying := false))
  }

  /** In a run from the empty cluster a reconcile succeeds, undeferred, although the config Secret
      it should have removed is still there and the budget it should have opened is not open:
      the cache showed neither of them. */
  lemma StaleReadsKeepOldChildren(w: World, spec: Spec, t: Instant, c: Conditions) returns (run: seq<Action>)
    requires Initial(w) && Scene(spec, w.secrets) && c.preUpdate.None?
    requires !Open(spec, t) && Open(spec, c.now)
    ensures var v := Run(w, run);
      && v.op.pc == Finished(Succeeded) && v.op.committed && v.op.server.spec == Cleared(spec)
      && StoredConfig(v).Some? && v.kids.budget != Some(1)
      && ManagedBy(v) != Wanted(v.name, v.op.server.spec, v.op.observed, Holds(v.op.server, v.op.budgetWindow))
  {
    var first, v, aim := OpensInBetween(w, spec, t, c);
    DoneFacts(v, c.now, aim);
    EditStarts(v, c.now, aim, Cleared(spec), ANY);
    var e := Run(v, Edit(Cleared(spec)));
    var again, u, end, call := ReconcileEnds(e, Cleared(spec), false, None, c.now, c, ANY);
    RunAppend(w, first, Edit(Cleared(spec)));
    RunAppend(w, first + Edit(Cleared(spec)), again);
    run := first + Edit(Cleared(spec)) + again;
    DoneFacts(end, c.now, Begins(u));
    ProgressConverges(end);
  }

  // ------------------------------------------------------------ a standstill

  /** A server whose recommendations the operator applies. */
  predicate Scaling(spec: Spec, secrets: Secrets) {
    && Applies(spec.scaling) && spec.policy.strategy == NoSnapshot && !spec.policy.deferWhilePlaying
    && CredentialsOf(spec, secrets).Annotated?
  }

  lemma StillAllApply(w: World, u: World, v: World, now: Instant, t: Instant)
    requires Opened(w, u, u.op.server.spec, false, None, t) && Kept(u, v) && Done(v, now, Begins(u))
    requires Applies(u.op.server.spec.scaling)
    ensures AllApply(v) && v.kids.vpa == VpaFor(u.op.server.spec.scaling, w.kids.vpa)
  {
    var at := v.op.version;
    assert v.seen == at && |v.servers| == at + 2 && |u.servers| == at + 1;
    assert v.servers[at] == u.servers[at] == Some(u.op.server);
    assert v.servers[at + 1].Some? && v.servers[at + 1].value.spec == v.op.server.spec;
  }

  function WithAdvice(v: World, recs: seq<Recommendation>): World
    requires v.kids.vpa.Some?
  {
    v.(kids := v.kids.(vpa := Some(v.kids.vpa.value.(recommendations := recs))))
  }

  lemma LossSteps(v: World, recs: seq<Recommendation>)
    requires v.kids.vpa.Some?
    ensures Step(v, Disturb(SetRecommendations(recs))) == WithAdvice(v, recs)
    ensures Step(WithAdvice(v, recs), Disturb(LoseStatefulSet)) == WithAdvice(v, recs).(sets := v.sets + [None])
  {
  }

  lemma LossRuns(v: World, recs: seq<Recommendation>)
    requires v.kids.vpa.Some?
    ensures Run(v, [Disturb(SetRecommendations(recs)), Disturb(LoseStatefulSet)]) ==
      WithAdvice(v, recs).(sets := v.sets + [None])
  {
    RunTwo(v, Disturb(SetRecommendations(recs)), Disturb(LoseStatefulSet));
    LossSteps(v, recs);
  }

  lemma LossSticks(v: World, recs: seq<Recommendation>)
    requires AllApply(v) && v.seen < |v.servers| && v.kids.vpa.Some? && v.op.pc.Finished? && Asks(recs)
    ensures Stuck(WithAdvice(v, recs).(sets := v.sets + [None]))
  {
    assert AllApply(WithAdvice(v, recs).(sets := v.sets + [None]));
  }

  lemma ScalingUp(w: World, spec: Spec, c: Conditions) returns (run: seq<Action>, v: World)
    requires Initial(w) && Scaling(spec, w.secrets) && c.preUpdate.None?
    ensures v == Run(w, run) && v.op.pc == Finished(Succeeded) && v.op.committed && Latest(v.sets).Some?
    ensures AllApply(v) && v.seen < |v.servers| && v.kids.vpa.Some?
  {
    CreatedPlays(w, spec, ANY);
    var created := Run(w, Created(spec));
    var rest, u, call;
    rest, u, v, call := ReconcileEnds(created, spec, false, None, c.now, c, ANY);
    run := Created(spec) + rest;
    RunAppend(w, Created(spec), rest);
    DoneConverges(v, c.now, Begins(u));
    StillAllApply(created, u, v, c.now, c.now);
  }

  /** A run from the empty cluster in which the server is up, advice arrives, and somebody deletes
      the StatefulSet: from there on it is not created again. */
  lemma StandstillReached(w: World, spec: Spec, recs: seq<Recommendation>, c: Conditions) returns (run: seq<Action>, k: nat)
    requires Initial(w) && Scaling(spec, w.secrets) && Asks(recs) && c.preUpdate.None?
    ensures Stuck(Run(w, run)) && k <= |run|
    ensures var v := At(w, run, k); v.op.pc == Finished(Succeeded) && v.op.committed && Latest(v.sets).Some?
    ensures run[k..] == [Disturb(SetRecommendations(recs)), Disturb(LoseStatefulSet)]
  {
    var up, v := ScalingUp(w, spec, c);
    LossRuns(v, recs);
    LossSticks(v, recs);
    var loss := [Disturb(SetRecommendations(recs)), Disturb(LoseStatefulSet)];
    k := |up|;
    run := up + loss;
    RunAppend(w, up, loss);
    assert run[..k] == up;
  }

  // ------------------------------------------------------------ access outlives the sidecar

  /** A server with a sidecar and nothing else of note. */
  predicate Plain(spec: Spec) {
    && spec.groups == [] && spec.password.None? && !spec.scaling.enabled
    && spec.policy.strategy == NoSnapshot && !spec.policy.deferWhilePlaying
  }

  function SwitchedOff(spec: Spec): Spec { spec.(sidecar := spec.sidecar.(enabled := false)) }

  lemma SidecarUp(w: World, spec: Spec, c: Conditions) returns (run: seq<Action>, v: World, aim: Aim)
    requires Initial(w) && Plain(spec) && spec.sidecar.enabled && c.preUpdate.None?
    ensures v == Run(w, run) && Done(v, c.now, aim) && {Account, Role, Binding} <= v.kids.access
    ensures v.kids.vpa.None? && aim.spec == spec
  {
    CreatedPlays(w, spec, ANY);
    var created := Run(w, Created(spec));
    var rest, u, call;
    rest, u, v, call := ReconcileEnds(created, spec, false, None, c.now, c, ANY);
    DoneConverges(v, c.now, Begins(u));
    RunAppend(w, Created(spec), rest);
    run, aim := Created(spec) + rest, Begins(u);
  }

  lemma NothingTaken(w: World, run: seq<Action>)
    requires OperatorOnly(run)
    ensures w.kids.access <= Run(w, run).kids.access
  {
    assert !Alike(Disturb(LoseChild(AccessChild)));
    RunTakesNothing(w, run);
  }

  /** In a run from the empty cluster the sidecar is switched off, a reconcile succeeds, and the
      sidecar's service account, role and binding are all still there. */
  lemma AccessOutlivesSidecar(w: World, spec: Spec, c: Conditions) returns (run: seq<Action>)
    requires Initial(w) && Plain(spec) && spec.sidecar.enabled && c.preUpdate.None?
    ensures var v := Run(w, run);
      && v.op.pc == Finished(Succeeded) && v.op.committed && !v.op.server.spec.sidecar.enabled
      && {Account, Role, Binding} <= v.kids.access
  {
    var lead, v, aim := SidecarUp(w, spec, c);
    var off := Edit(SwitchedOff(spec));
    EditStarts(v, c.now, aim, SwitchedOff(spec), ANY);
    var e := Run(v, off);
    var second, x, end, call := ReconcileEnds(e, SwitchedOff(spec), false, e.kids.budget, c.now, c, ANY);
    NothingTaken(e, second);
    RunAppend(w, lead, off);
    RunAppend(w, lead + off, second);
    run := lead + off + second;
  }

  // ------------------------------------------------------------ a user's Secret of the config Secret's name

  /** The password of the server is kept in a Secret of that name. */
  predicate PasswordThere(name: string, spec: Spec, secrets: Secrets) {
    && spec.groups == [] && spec.password.Some? && spec.password.value.name == ConfigSecretName(name)
    && CredentialsOf(spec, secrets).Annotated?
  }

  /** The calls of the reconcile, with current reads. */
  function Clearing(v: World): seq<Action> {
    [Operate(Read(Newest(v.servers))), Operate(Credentials(true, v.secrets - {ConfigSecretName(v.name)})),
     Operate(PhaseError(true))]
  }

  lemma MissingStep(w: World, shown: Secrets)
    requires w.op.pc == AtCredentials && CredentialsOf(w.op.server.spec, shown).PasswordMissing?
    ensures var v := Step(w, Operate(Credentials(true, shown)));
      v == DoCredentials(w, true, shown) && v.op.pc == AtPhaseError && v.servers == w.servers
      && v.op.version == w.op.version && v.op.server == w.op.server
  {
  }

  lemma ErrorStep(w: World)
    requires w.op.pc == AtPhaseError && IsLatest(w.servers, w.op.version)
    ensures var v := Step(w, Operate(PhaseError(true)));
      && v.op.pc == Finished(Failed) && v.secrets == w.secrets
      && Latest(v.servers) == Some(w.op.server.(status := w.op.server.status.(phase := Error)))
  {
    assert Callable(w, PhaseError(true));
  }

  lemma ClearingDeletes(v: World, spec: Spec)
    requires Startable(v) && Latest(v.servers).value.Guarded() && Latest(v.servers).value.spec == spec
    requires PasswordThere(v.name, spec, v.secrets)
    ensures var x := Run(v, Clearing(v));
      && x.op.pc == Finished(Failed) && x.secrets == v.secrets - {ConfigSecretName(v.name)}
      && Latest(x.servers).Some? && Latest(x.servers).value.status.phase == Error
  {
    var run := Clearing(v);
    RunThree(v, run[0], run[1], run[2]);
    ReadStep(v);
    MissingStep(Step(v, run[0]), v.secrets - {ConfigSecretName(v.name)});
    ErrorStep(Step(Step(v, run[0]), run[1]));
  }

  /** In a run from the empty cluster, with current reads and no failing call, the operator
      deletes the Secret the user keeps the password in, and then misses it. */
  lemma CleanupDeletesPassword(w: World, spec: Spec) returns (run: seq<Action>)
    requires Initial(w) && PasswordThere(w.name, spec, w.secrets)
    ensures ConfigSecretName(w.name) in w.secrets
    ensures var v := Run(w, run);
      && ConfigSecretName(w.name) !in v.secrets && v.op.pc == Finished(Failed)
      && Latest(v.servers).Some? && Latest(v.servers).value.status.phase == Error
  {
    CreatedPlays(w, spec, ANY);
    var v := Run(w, Created(spec));
    ClearingDeletes(v, spec);
    run := Created(spec) + Clearing(v);
    RunAppend(w, Created(spec), Clearing(v));
  }

  /** The first group keeps a password in a Secret of that name. */
  predicate GroupThere(name: string, spec: Spec, secrets: Secrets) {
    && spec.groups != [] && spec.groups[0].password.Some? && spec.groups[0].password.value.name == ConfigSecretName(name)
    && spec.groups[0].password.value.key != CONFIG_KEY && GroupPassword(spec.groups[0], secrets) != Some(Text(""))
    && !spec.scaling.enabled && spec.policy.strategy == NoSnapshot && !spec.policy.deferWhilePlaying
    && CredentialsOf(spec, secrets).Annotated?
  }

  lemma FirstPassword(spec: Spec, secrets: Secrets)
    requires spec.groups != [] && ConfigOf(spec, secrets).Some?
    ensures |ConfigOf(spec, secrets).value.groups| > 0
    ensures Some(ConfigOf(spec, secrets).value.groups[0].password) == GroupPassword(spec.groups[0], secrets)
  {
  }

  lemma OverwrittenIsEmpty(name: string, spec: Spec, secrets: Secrets)
    requires GroupThere(name, spec, secrets)
    ensures var after := SecretsAfter(name, spec, secrets, secrets, false);
      && CredentialsOf(spec, after).Annotated? && GroupPassword(spec.groups[0], after) == Some(Text(""))
      && WantedConfig(spec, after) != WantedConfig(spec, secrets)
  {
    var after := SecretsAfter(name, spec, secrets, secrets, false);
    assert Resolvable(spec.groups, after) by {
      forall k | 0 <= k < |spec.groups| ensures GroupPassword(spec.groups[k], after).Some? {
        assert GroupPassword(spec.groups[k], secrets).Some?;
      }
    }
    FirstPassword(spec, secrets);
    FirstPassword(spec, after);
    assert Rendered(ConfigOf(spec, secrets).value)[CONFIG_KEY] == Json(ConfigOf(spec, secrets).value);
    assert Rendered(ConfigOf(spec, after).value)[CONFIG_KEY] == Json(ConfigOf(spec, after).value);
  }

  /** In a run from the empty cluster, with current reads, no failing call and nobody else moving,
      two successful reconciles in a row leave different configurations and restart the pod:
      the first one has overwritten the Secret with the user's password, which the second
      one reads as empty. */
  lemma GenerationLosesPassword(w: World, spec: Spec, c: Conditions) returns (run: seq<Action>, more: seq<Action>)
    requires Initial(w) && GroupThere(w.name, spec, w.secrets) && c.preUpdate.None?
    ensures OperatorOnly(more)
    ensures var u, v := Run(w, run), Run(w, run + more);
      && u.op.pc == Finished(Succeeded) && u.op.committed && v.op.pc == Finished(Succeeded) && v.op.committed
      && u.op.server.spec == v.op.server.spec == spec
      && StoredConfig(u) == WantedConfig(spec, w.secrets) && StoredConfig(v) != StoredConfig(u)
      && ManagedBy(u).template.Some? && ManagedBy(v).template.Some?
      && ManagedBy(u).template.value.annotations != ManagedBy(v).template.value.annotations
      && GroupPassword(spec.groups[0], v.op.observed) == Some(Text(""))
  {
    CreatedPlays(w, spec, ANY);
    OverwrittenIsEmpty(w.name, spec, w.secrets);
    var created := Run(w, Created(spec));
    var first, b, u, call := ReconcileEnds(created, spec, false, None, c.now, c, ANY);
    DoneFacts(u, c.now, Begins(b));
    RunAppend(w, Created(spec), first);
    run := Created(spec) + first;
    DoneRests(u, c.now, Begins(b));
    var x, v, again;
    more, x, v, again := ReconcileEnds(u, spec, false, u.kids.budget, c.now, c, ANY);
    DoneFacts(v, c.now, Begins(x));
    RunAppend(w, run, more);
    DoneAnnotates(u, c.now, Begins(b));
    DoneAnnotates(v, c.now, Begins(x));
    SecretChangeRestarts(w.name, spec, Begins(b).secrets, Begins(x).secrets, false);
  }

  lemma DoneAnnotates(v: World, now: Instant, aim: Aim)
    requires Done(v, now, aim) && !Held(aim, now)
    ensures ManagedBy(v).template == Wanted(aim.name, aim.spec, aim.secrets, false).template
    ensures CredentialsOf(aim.spec, aim.secrets).Annotated?
  {
  }

  lemma DoneRests(v: World, now: Instant, aim: Aim)
    requires Done(v, now, aim)
    ensures Startable(v) && Latest(v.servers).value.finalizers == v.op.server.finalizers
    ensures Latest(v.servers).value.spec == aim.spec
  {
    DoneFacts(v, now, aim);
  }

  // ------------------------------------------------------------ two phases on the gauge

  /** A server is up, and its phase is published. */
  lemma FirstPublication(w: World, spec: Spec, c: Conditions, k: Key)
    returns (run: seq<Action>, v: World, aim: Aim, call: GaugeCall)
    requires Initial(w) && Plain(spec) && c.preUpdate.None?
    ensures Leg(w, k, run, v, [call]) && Done(v, c.now, aim) && aim.spec == spec && v.secrets == w.secrets - {ConfigSecretName(w.name)}
    ensures call.Publish? && call.key == k && call.phase != Error && call.phase != NoPhase
    ensures Latest(v.sets).Some? && v.kids.vpa.None?
  {
    CreatedPlays(w, spec, k);
    var created := Run(w, Created(spec));
    var rest, u;
    rest, u, v, call := ReconcileEnds(created, spec, true, None, c.now, c, k);
    DoneConverges(v, c.now, Begins(u));
    Legs(w, k, Created(spec), created, [], rest, v, [call]);
    assert [] + [call] == [call];
    run, aim := Created(spec) + rest, Begins(u);
  }

  function Locked(spec: Spec, secret: string): Spec {
    spec.(password := Some(SecretRef(secret, "password")))
  }

  /** The user asks for a password from a Secret that is not there, and the phase becomes Error; ... */
  function Locking(v: World): seq<Action> {
    [Operate(Read(Newest(v.servers))), Operate(Credentials(true, v.secrets)), Operate(PhaseError(true))]
  }

  /** ... the user takes it back, and the StatefulSet reports anew. */
  function Unlocking(spec: Spec, r: Rollout): seq<Action> {
    [Edit(spec)[0], Disturb(SetRollout(r))]
  }

  lemma LockingErrs(e: World, spec: Spec, secret: string)
    requires Startable(e) && Latest(e.servers).value.Guarded() && Latest(e.servers).value.spec == Locked(spec, secret)
    requires secret !in e.secrets && spec.groups == []
    ensures var x := Run(e, Locking(e));
      && x.op.pc == Finished(Failed) && x.seen < |x.servers| && Latest(x.servers).Some?
      && !Latest(x.servers).value.deleting && Latest(x.servers).value.status.phase == Error
      && x.sets == e.sets && x.kids == e.kids && x.name == e.name
  {
    var run := Locking(e);
    RunThree(e, run[0], run[1], run[2]);
    ReadStep(e);
    MissingStep(Step(e, run[0]), e.secrets);
    ErrorStep(Step(Step(e, run[0]), run[1]));
    ErrorKeeps(Step(Step(e, run[0]), run[1]));
  }

  lemma ErrorKeeps(w: World)
    requires w.op.pc == AtPhaseError && IsLatest(w.servers, w.op.version)
    ensures var v := Step(w, Operate(PhaseError(true)));
      && v.sets == w.sets && v.kids == w.kids && v.name == w.name && v.seen == w.seen && |v.servers| == |w.servers| + 1
  {
    assert Callable(w, PhaseError(true));
  }

  lemma RolloutStep(w: World, r: Rollout)
    requires Latest(w.sets).Some?
    ensures Step(w, Disturb(SetRollout(r))) == DoSetRollout(w, r)
  {
  }

  lemma UnlockingRests(x: World, spec: Spec, r: Rollout)
    requires x.op.pc.Finished? && x.seen < |x.servers| && Latest(x.servers).Some? && !Latest(x.servers).value.deleting
    requires Latest(x.servers).value.status.phase == Error && Latest(x.sets).Some? && x.kids.vpa.None? && Plain(spec)
    ensures var f := Run(x, Unlocking(spec, r));
      && AtRest(f, spec, true) && Latest(f.servers).value.status.phase == Error
      && Latest(f.sets).Some? && Latest(f.sets).value.rollout == r && Simple(spec, f.kids.vpa)
  {
    var run := Unlocking(spec, r);
    RunTwo(x, run[0], run[1]);
    EditStep(x, spec);
    RolloutStep(Step(x, run[0]), r);
  }

  /** The phase becomes Error. */
  lemma Errs(v: World, now: Instant, aim: Aim, secret: string, k: Key) returns (run: seq<Action>, x: World)
    requires Done(v, now, aim) && aim.spec.groups == [] && secret !in v.secrets
    ensures Leg(v, k, run, x, []) && x.sets == v.sets && x.kids == v.kids
    ensures x.op.pc.Finished? && x.seen < |x.servers| && Latest(x.servers).Some?
    ensures !Latest(x.servers).value.deleting && Latest(x.servers).value.status.phase == Error
  {
    var lock := Edit(Locked(aim.spec, secret));
    EditStarts(v, now, aim, Locked(aim.spec, secret), k);
    EditKeepsSets(v, now, aim, Locked(aim.spec, secret));
    var e := Run(v, lock);
    LockingErrs(e, aim.spec, secret);
    RunAppend(v, lock, Locking(e));
    run := lock + Locking(e);
    x := Run(v, run);
    SilentRun(v, k, run);
  }

  /** From one published phase to a world in which another one is due over phase Error. */
  lemma ErrsInBetween(v: World, now: Instant, aim: Aim, secret: string, r: Rollout, k: Key)
    returns (run: seq<Action>, f: World)
    requires Done(v, now, aim) && Plain(aim.spec) && secret !in v.secrets && Latest(v.sets).Some? && v.kids.vpa.None?
    ensures Leg(v, k, run, f, [])
    ensures AtRest(f, aim.spec, true) && Latest(f.servers).value.status.phase == Error
    ensures Latest(f.sets).Some? && Latest(f.sets).value.rollout == r && Simple(aim.spec, f.kids.vpa)
  {
    var errs, x := Errs(v, now, aim, secret, k);
    UnlockingRests(x, aim.spec, r);
    SilentRun(x, k, Unlocking(aim.spec, r));
    f := Run(x, Unlocking(aim.spec, r));
    var none: seq<GaugeCall> := [];
    Legs(v, k, errs, x, none, Unlocking(aim.spec, r), f, none);
    assert none + none == none;
    run := errs + Unlocking(aim.spec, r);
  }

  lemma EditKeepsSets(v: World, now: Instant, aim: Aim, spec: Spec)
    requires Done(v, now, aim)
    ensures Run(v, Edit(spec)).sets == v.sets
  {
    DoneFacts(v, now, aim);
    RunOne(v, Edit(spec)[0]);
    EditStep(v, spec);
  }

  lemma SecondPublication(v: World, aim: Aim, secret: string, r: Rollout, c: Conditions, k: Key)
    returns (run: seq<Action>, end: World, call: GaugeCall)
    requires Done(v, c.now, aim) && Plain(aim.spec) && secret !in v.secrets && c.preUpdate.None?
    requires Latest(v.sets).Some? && v.kids.vpa.None?
    ensures Leg(v, k, run, end, [call]) && end.op.pc == Finished(Succeeded) && end.op.committed
    ensures call.Publish? && call.key == k && call.oldPhase == Error && call.phase == PhaseOf(Some(r))
  {
    var errs, f := ErrsInBetween(v, c.now, aim, secret, r, k);
    var rest, u;
    rest, u, end, call := ReconcileEnds(f, aim.spec, true, f.kids.budget, c.now, c, k);
    Legs(v, k, errs, f, [], rest, end, [call]);
    assert [] + [call] == [call];
    run := errs + rest;
  }

  lemma TwoPublications(w: World, spec: Spec, secret: string, c: Conditions, k: Key)
    returns (run: seq<Action>, end: World, call: GaugeCall, again: GaugeCall)
    requires Initial(w) && Plain(spec) && secret !in w.secrets && c.preUpdate.None?
    ensures Leg(w, k, run, end, [call, again]) && end.op.pc == Finished(Succeeded) && end.op.committed
    ensures call.Publish? && again.Publish? && call.key == k && again.key == k
    ensures call.phase != again.oldPhase && call.phase != again.phase
  {
    var first, v, aim, second;
    first, v, aim, call := FirstPublication(w, spec, c, k);
    var r := if call.phase == Running then Rollout(0, "", "") else Rollout(1, "", "");
    second, end, again := SecondPublication(v, aim, secret, r, c, k);
    Legs(w, k, first, v, [call], second, end, [again]);
    assert [call] + [again] == [call, again];
    run := first + second;
  }

  /** A run from the empty cluster with one landed `setPhaseError`, at the end of which the gauge
      shows two phases of the server. */
  lemma UnpublishedPhaseLingers(w: World, spec: Spec, secret: string, c: Conditions, k: Key) returns (run: seq<Action>)
    requires Initial(w) && Plain(spec) && secret !in w.secrets && c.preUpdate.None?
    ensures |PhasesOf(Boards(Calls(w, k, run)), k)| == 2
    ensures var v := Run(w, run); v.op.pc == Finished(Succeeded) && v.op.committed
  {
    var end, call, again;
    run, end, call, again := TwoPublications(w, spec, secret, c, k);
    MisnamedPhaseLingers(call, again);
  }

  // ------------------------------------------------------------ the gauge falls behind

  lemma NothingShown(k: Key)
    ensures PhasesOf(Boards([]), k) == {}
  {
  }

  lemma UnansweredStep(v: World, now: Instant, aim: Aim)
    requires Ripe(v, now, aim)
    ensures Step(v, Commit(v, now, false)) == DoCommitStatus(v, |v.sets| - 1, now, false)
  {
    assert Callable(v, CommitStatus(|v.sets| - 1, now, false));
  }

  lemma UnansweredStores(v: World, now: Instant, aim: Aim)
    requires Ripe(v, now, aim)
    ensures var x := DoCommitStatus(v, |v.sets| - 1, now, false);
      && Latest(x.servers).Some? && Latest(x.servers).value == v.op.server.(status := Latest(x.servers).value.status)
      && Latest(x.servers).value.status.phase != NoPhase
  {
  }

  lemma UnansweredCommit(v: World, now: Instant, aim: Aim, k: Key)
    requires Ripe(v, now, aim)
    ensures var x := Run(v, [Commit(v, now, false)]);
      && Leg(v, k, [Commit(v, now, false)], x, []) && Latest(x.servers).Some?
      && Latest(x.servers).value == v.op.server.(status := Latest(x.servers).value.status)
      && Latest(x.servers).value.status.phase != NoPhase
  {
    var commit := Commit(v, now, false);
    RunOne(v, commit);
    CommitEmits(v, k, |v.sets| - 1, now, false);
    CallsOne(v, k, commit);
    UnansweredStep(v, now, aim);
    UnansweredStores(v, now, aim);
  }

  lemma CallsOne(v: World, k: Key, a: Action)
    ensures Calls(v, k, [a]) == if Emitted(v, k, a).Some? then [Emitted(v, k, a).value] else []
  {
    assert [a][..0] == [];
  }

  /** A run from the empty cluster with one lost reply: the status is stored, and the gauge does
      not show its phase. */
  lemma LostReplyLeavesGaugeBehind(w: World, spec: Spec, c: Conditions, k: Key) returns (run: seq<Action>)
    requires Initial(w) && Plain(spec) && c.preUpdate.None?
    ensures !Tracks(Latest(Run(w, run).servers), PhasesOf(Boards(Calls(w, k, run)), k))
  {
    CreatedPlays(w, spec, k);
    var created := Run(w, Created(spec));
    var lead, u, v := Approaches(created, spec, true, None, c.now, c, k);
    UnansweredCommit(v, c.now, Begins(u), k);
    var none: seq<GaugeCall> := [];
    var x := Run(v, [Commit(v, c.now, false)]);
    Legs(w, k, Created(spec), created, none, lead, v, none);
    Legs(w, k, Created(spec) + lead, v, none + none, [Commit(v, c.now, false)], x, none);
    assert none + none + none == none;
    run := Created(spec) + lead + [Commit(v, c.now, false)];
    NothingShown(k);
  }

  /** The user takes all finalizers away and deletes the server. */
  function Stripping(spec: Spec): seq<Action> {
    [Disturb(UserEdit(spec, {})), Disturb(UserDelete)]
  }

  lemma StrippingRemoves(v: World, now: Instant, aim: Aim, k: Key)
    requires Done(v, now, aim)
    ensures var x := Run(v, Stripping(aim.spec)); Latest(x.servers).None? && Leg(v, k, Stripping(aim.spec), x, [])
  {
    DoneFacts(v, now, aim);
    var run := Stripping(aim.spec);
    RunTwo(v, run[0], run[1]);
    var edited := DoUserEdit(v, aim.spec, {});
    assert Step(v, run[0]) == edited && Latest(edited.servers).Some? && Latest(edited.servers).value.finalizers == {};
    assert Step(edited, run[1]) == DoUserDelete(edited);
    SilentRun(v, k, run);
  }

  /** A run from the empty cluster in which a user takes the finalizer away: the server is gone,
      and the gauge still shows its phase. */
  lemma StrippedFinalizerLeavesPhase(w: World, spec: Spec, c: Conditions, k: Key) returns (run: seq<Action>)
    requires Initial(w) && Plain(spec) && c.preUpdate.None?
    ensures Latest(Run(w, run).servers).None? && PhasesOf(Boards(Calls(w, k, run)), k) != {}
  {
    var first, v, aim, call := FirstPublication(w, spec, c, k);
    StrippingRemoves(v, c.now, aim, k);
    Legs(w, k, first, v, [call], Stripping(spec), Run(v, Stripping(spec)), []);
    assert [call] + [] == [call];
    run := first + Stripping(spec);
    BoardsPush([], call);
    assert [] + [call] == [call];
    PhasesAfter(BLANK, call);
  }
}
