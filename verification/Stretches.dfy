/** Stretches of runs, put together from the calls of one reconcile, and what they publish. */
module Stretches {
  import opened Api
  import opened Config
  import opened Cron
  import opened Snapshots
  import opened StatusRules
  import opened Vertical
  import opened Gauges
  import opened Protocol
  import opened Publications
  import opened Convergence
  import opened Liveness

  // ------------------------------------------------------------ legs

  /** The run leads there and publishes that. */
  predicate Leg(w: World, k: Key, run: seq<Action>, v: World, calls: seq<GaugeCall>) {
    Run(w, run) == v && Calls(w, k, run) == calls
  }

  lemma {:induction false} CallsAppend(w: World, k: Key, a: seq<Action>, b: seq<Action>)
    ensures Calls(w, k, a + b) == Calls(w, k, a) + Calls(Run(w, a), k, b)
  {
    if b == [] {
      assert a + b == a;
    } else {
      var n := |b| - 1;
      CallsAppend(w, k, a, b[..n]);
      RunAppend(w, a, b[..n]);
      assert (a + b)[..|a + b| - 1] == a + b[..n];
    }
  }

  lemma Legs(w: World, k: Key, a: seq<Action>, v: World, some: seq<GaugeCall>, b: seq<Action>, x: World, more: seq<GaugeCall>)
    requires Leg(w, k, a, v, some) && Leg(v, k, b, x, more)
    ensures Leg(w, k, a + b, x, some + more)
  {
    RunAppend(w, a, b);
    CallsAppend(w, k, a, b);
  }

  /** The action publishes nothing. */
  predicate Silent(a: Action) {
    !(a.Operate? && (a.call.CommitStatus? || a.call.RemoveFinalizer?))
  }

  lemma {:induction false} SilentRun(w: World, k: Key, actions: seq<Action>)
    requires forall a :: a in actions ==> Silent(a)
    ensures Leg(w, k, actions, Run(w, actions), [])
  {
    if actions != [] {
      SilentRun(w, k, actions[..|actions| - 1]);
      assert Silent(actions[|actions| - 1]);
    }
  }

  /** Nobody moves but the operator and the snapshot driver. */
  predicate Alike(a: Action) { a.Operate? || (a.Disturb? && a.change.SetSnapshot?) }

  predicate OperatorOnly(actions: seq<Action>) {
    forall a :: a in actions ==> Alike(a)
  }

  // ------------------------------------------------------------ the first calls

  /** What the cache shows of the Secrets when the credentials are read, if it is up to date but
      for the config Secret, which it shows or not. */
  function ShownIf(w: World, spec: Spec, found: bool): Secrets {
    if found then ShownFor(w.name, spec, w.secrets) else w.secrets
  }

  /** The first calls; the read of the config Secret shows one or not. */
  function Opening(w: World, spec: Spec, found: bool): seq<Action> {
    [Operate(Read(Newest(w.servers))), Operate(Credentials(found, ShownIf(w, spec, found))),
     Operate(EnsureClaim(w.kids.claim.Some?))]
  }

  /** The next three; the read of the budget shows `saw`, and the clock says `t`. */
  function Budgeting(saw: Option<nat>, t: Instant): seq<Action> {
    [Operate(EnsureAccess(3)), Operate(EnsureBudget(saw, t)), Operate(EnsureVpa(true))]
  }

  /** There is a guarded server with this spec and resolvable Secrets, and the operator is at rest. */
  predicate AtRest(w: World, spec: Spec, found: bool) {
    && Startable(w) && Latest(w.servers).value.Guarded() && Latest(w.servers).value.spec == spec
    && CredentialsOf(spec, ShownIf(w, spec, found)).Annotated?
  }

  /** The reconcile has begun and not yet touched anything but the first children. */
  predicate Begun(w: World, u: World, spec: Spec, found: bool) {
    && Latest(w.servers) == Some(u.op.server) && u.op.server.spec == spec && u.op.observed == ShownIf(w, spec, found)
    && u.servers == w.servers && IsLatest(u.servers, u.op.version) && u.seen == u.op.version
    && u.name == w.name && u.sets == w.sets && u.snapshots == w.snapshots
    && u.secrets == SecretsAfter(w.name, spec, ShownIf(w, spec, found), w.secrets, found)
    && u.op.missedConfig == (spec.groups == [] && !found && ConfigSecretName(w.name) in w.secrets)
  }

  lemma ReadStep(w: World)
    requires Startable(w) && Latest(w.servers).value.Guarded()
    ensures var v := Step(w, Operate(Read(Newest(w.servers))));
      && v == DoRead(w, |w.servers| - 1) && v.op == Start(|w.servers| - 1, Latest(w.servers).value)
      && v.op.pc == AtCredentials
  {
    assert Callable(w, Read(|w.servers| - 1));
  }

  lemma CredentialsStep(w: World, found: bool, shown: Secrets)
    requires w.op.pc == AtCredentials && CredentialsOf(w.op.server.spec, shown).Annotated?
    ensures var v := Step(w, Operate(Credentials(found, shown)));
      v == DoCredentials(w, found, shown) && v.op.pc == AtClaim && v.kids == w.kids
  {
  }

  lemma ClaimStep(w: World)
    requires w.op.pc == AtClaim
    ensures var v := Step(w, Operate(EnsureClaim(w.kids.claim.Some?)));
      v == DoEnsureClaim(w, w.kids.claim.Some?) && v.op.pc == AtAccess
  {
  }

  lemma OpeningSteps(w: World, spec: Spec, found: bool)
    requires AtRest(w, spec, found)
    ensures Run(w, Opening(w, spec, found)) ==
      DoEnsureClaim(DoCredentials(DoRead(w, |w.servers| - 1), found, ShownIf(w, spec, found)), w.kids.claim.Some?)
  {
    var run := Opening(w, spec, found);
    RunThree(w, run[0], run[1], run[2]);
    ReadStep(w);
    CredentialsStep(Step(w, run[0]), found, ShownIf(w, spec, found));
    ClaimStep(Step(Step(w, run[0]), run[1]));
  }

  lemma OpeningRuns(w: World, spec: Spec, found: bool)
    requires AtRest(w, spec, found)
    ensures var u := Run(w, Opening(w, spec, found));
      Begun(w, u, spec, found) && u.op.pc == AtAccess && u.kids.budget == w.kids.budget && u.kids.vpa == w.kids.vpa
  {
    OpeningSteps(w, spec, found);
    ReadStep(w);
  }

  lemma AccessStep(w: World)
    requires w.op.pc == AtAccess
    ensures var v := Step(w, Operate(EnsureAccess(3)));
      && v == DoEnsureAccess(w, 3) && v.op == w.op.(pc := AtBudget) && v.kids.budget == w.kids.budget
  {
  }

  lemma BudgetStep(w: World, saw: Option<nat>, t: Instant)
    requires w.op.pc == AtBudget
    requires BudgetAfter(w.kids.budget, saw, BudgetFor(w.op.server, Open(w.op.server.spec, t))).Some?
    ensures var v := Step(w, Operate(EnsureBudget(saw, t))); v == DoEnsureBudget(w, saw, t) && v.op.pc == AtVpa
  {
  }

  lemma VpaStep(w: World)
    requires w.op.pc == AtVpa
    ensures Step(w, Operate(EnsureVpa(true))) == DoEnsureVpa(w, true)
  {
  }

  lemma BudgetingSteps(w: World, saw: Option<nat>, t: Instant)
    requires w.op.pc == AtAccess
    requires BudgetAfter(w.kids.budget, saw, BudgetFor(w.op.server, Open(w.op.server.spec, t))).Some?
    ensures Run(w, Budgeting(saw, t)) == DoEnsureVpa(DoEnsureBudget(DoEnsureAccess(w, 3), saw, t), true)
  {
    var run := Budgeting(saw, t);
    RunThree(w, run[0], run[1], run[2]);
    AccessStep(w);
    BudgetStep(Step(w, run[0]), saw, t);
    VpaStep(Step(Step(w, run[0]), run[1]));
  }

  lemma BudgetingRuns(w: World, saw: Option<nat>, t: Instant)
    requires w.op.pc == AtAccess
    requires BudgetAfter(w.kids.budget, saw, BudgetFor(w.op.server, Open(w.op.server.spec, t))).Some?
    ensures var u := Run(w, Budgeting(saw, t));
      && u == w.(kids := w.kids.(access := u.kids.access, budget := u.kids.budget,
                                 vpa := VpaFor(w.op.server.spec.scaling, w.kids.vpa)),
                 op := w.op.(pc := AtScaling, budgetWindow := Open(w.op.server.spec, t),
                             missedBudget := u.op.missedBudget))
      && u.op.missedBudget == (saw != w.kids.budget
                               && w.kids.budget != Some(BudgetFor(w.op.server, Open(w.op.server.spec, t))))
  {
    BudgetingSteps(w, saw, t);
  }

  /** What the two stretches lead to. */
  predicate Opened(w: World, u: World, spec: Spec, found: bool, saw: Option<nat>, t: Instant) {
    && Begun(w, u, spec, found) && u.op.pc == AtScaling && Progress(u)
    && u.kids.vpa == VpaFor(spec.scaling, w.kids.vpa) && u.op.budgetWindow == Open(spec, t)
    && u.op.missedBudget == (saw != w.kids.budget && w.kids.budget != Some(BudgetFor(u.op.server, Open(spec, t))))
  }

  lemma ReadAndMore(w: World, rest: seq<Action>)
    requires Startable(w) && Latest(w.servers).value.Guarded() && AllBenign(w.name, rest)
    ensures Progress(Run(w, [Operate(Read(Newest(w.servers)))] + rest))
  {
    var read := Operate(Read(Newest(w.servers)));
    RunAppend(w, [read], rest);
    RunOne(w, read);
    ReadStep(w);
    ReadProgress(w, |w.servers| - 1);
    RunProgress(DoRead(w, |w.servers| - 1), rest);
  }

  lemma EarlyProgress(w: World, spec: Spec, found: bool, saw: Option<nat>, t: Instant)
    requires AtRest(w, spec, found)
    ensures Progress(Run(w, Opening(w, spec, found) + Budgeting(saw, t)))
  {
    var rest := Opening(w, spec, found)[1..] + Budgeting(saw, t);
    assert Opening(w, spec, found) + Budgeting(saw, t) == [Opening(w, spec, found)[0]] + rest;
    ReadAndMore(w, rest);
  }

  lemma EarlyRuns(w: World, spec: Spec, found: bool, saw: Option<nat>, t: Instant)
    requires AtRest(w, spec, found)
    requires BudgetAfter(w.kids.budget, saw, BudgetFor(Latest(w.servers).value, Open(spec, t))).Some?
    ensures Opened(w, Run(w, Opening(w, spec, found) + Budgeting(saw, t)), spec, found, saw, t)
  {
    OpeningRuns(w, spec, found);
    BudgetingRuns(Run(w, Opening(w, spec, found)), saw, t);
    RunAppend(w, Opening(w, spec, found), Budgeting(saw, t));
    EarlyProgress(w, spec, found, saw, t);
  }

  /** What a reconcile so begun is about. */
  function Begins(u: World): Aim {
    Aim(u.name, u.op.server.spec, u.op.observed, u.op.server.status.activePlayers,
        u.op.missedConfig, u.op.missedBudget, u.op.budgetWindow)
  }

  /** A simple server: no advice stands and no snapshot is taken. */
  predicate Simple(spec: Spec, vpa: Option<Vpa>) {
    !Asks(Advice(spec.scaling, vpa)) && spec.policy.strategy == NoSnapshot
  }

  lemma GoesOn(w: World, u: World, c: Conditions, spec: Spec, found: bool, saw: Option<nat>, t: Instant)
    requires AtRest(w, spec, found) && Opened(w, u, spec, found, saw, t) && c.preUpdate.None?
    requires Simple(spec, w.kids.vpa)
    ensures Within(u, c, Begins(u), 10 + c.patience, true)
  {
  }

  // ------------------------------------------------------------ the later calls

  /** What the later calls of a reconcile leave as it is. */
  predicate Kept(u: World, v: World) {
    && v.name == u.name && v.secrets == u.secrets && v.kids.vpa == u.kids.vpa && v.seen == u.seen
    && u.servers <= v.servers && v.op.version == u.op.version && v.op.server == u.op.server
    && (Latest(u.sets).Some? ==> Latest(v.sets).Some? && Latest(v.sets).value.rollout == Latest(u.sets).value.rollout)
  }

  lemma ScalingKeeps(w: World)
    requires |w.sets| > 0
    ensures Kept(w, DoApplyRecommendation(w, Newest(w.sets)))
  {
    AdviceKeepsFirstImage(w.sets, Advice(w.op.server.spec.scaling, w.kids.vpa), w.op.server.status.activePlayers > 0);
  }

  lemma ReadKeeps(w: World)
    requires |w.sets| > 0
    ensures Kept(w, DoReadStatefulSet(w, Newest(w.sets)))
  {
  }

  lemma RolloutKeeps(w: World)
    ensures Kept(w, DoUpdateStatefulSet(w))
  {
  }

  lemma SnapshotKeeps(w: World, s: Snapshot)
    ensures Kept(w, DoCreateSnapshot(w, s)) && Kept(w, DoSnapshotTrouble(w))
  {
  }

  lemma PollKeeps(w: World, c: Conditions)
    ensures Kept(w, DoPollSnapshot(w)) && Kept(w, DoPollSnapshot(Disturbed(w, MakeReady(w, c).change)))
    ensures Kept(w, DoSnapshotTrouble(w))
  {
  }

  lemma OthersKeep(w: World, now: Instant, left: Store)
    ensures Kept(w, DoEnsurePolicy(w)) && Kept(w, DoGate(w, now)) && Kept(w, DoEnsureService(w))
    ensures Kept(w, DoTakeSnapshot(w, now, left, true))
  {
  }

  lemma NextKeeps(w: World, c: Conditions, v: World)
    requires |w.sets| > 0 && 2 <= Left(w.op.pc) <= 10 && (w.op.pc == AtPoll ==> c.preUpdate.Some?) && v == Next(w, c)
    ensures Kept(w, v)
  {
    match w.op.pc
    case AtScaling => NextMiddle(w, c); ScalingKeeps(w); return;
    case AtPolicy => NextMiddle(w, c); OthersKeep(w, c.now, w.snapshots); return;
    case AtGate => NextMiddle(w, c); OthersKeep(w, c.now, w.snapshots); return;
    case AtStatefulSet => NextRead(w, c); ReadKeeps(w); return;
    case AtSnapshot => NextSnapshot(w, c); if c.preUpdate.Some? { SnapshotKeeps(w, c.preUpdate.value); } return;
    case AtPoll => NextPoll(w, c); PollKeeps(w, c); return;
    case AtRollout => NextRollout(w, c); RolloutKeeps(w); return;
    case AtService => NextService(w, c); OthersKeep(w, c.now, w.snapshots); return;
    case AtSchedule => NextSchedule(w, c); OthersKeep(w, c.now, Pruned(w, c)); return;
  }

  predicate KeptWithin(w: World, u: World, c: Conditions, aim: Aim, n: nat) {
    Within(u, c, aim, n, true) && Left(u.op.pc) <= 10 && Kept(w, u)
  }

  lemma KeptTurn(w: World, u: World, c: Conditions, aim: Aim, n: nat)
    requires KeptWithin(w, u, c, aim, n) && !Stops(u.op.pc)
    ensures n > 0 && KeptWithin(w, Next(u, c), Later(u, c), aim, n - 1)
  {
    OneTurn(u, c, aim, n, true);
    TurnCloser(u, c, aim, Next(u, c));
    NextKeeps(u, c, Next(u, c));
  }

  lemma KeptTurns(w: World, now: Instant, aim: Aim, P: (World, Conditions, nat) -> bool)
    requires forall u, d, k :: P(u, d, k) <==> d.now == now && KeptWithin(w, u, d, aim, k)
    ensures forall u: World, d: Conditions, k: nat ::
      P(u, d, k) && !Stops(u.op.pc) ==> k > 0 && P(Next(u, d), Later(u, d), k - 1)
  {
    forall u: World, d: Conditions, k: nat | P(u, d, k) && !Stops(u.op.pc)
      ensures k > 0 && P(Next(u, d), Later(u, d), k - 1)
    {
      KeptTurn(w, u, d, aim, k);
    }
  }

  predicate KeptRipe(w: World, u: World, now: Instant, aim: Aim) {
    Ripe(u, now, aim) && Kept(w, u)
  }

  lemma KeptStop(w: World, u: World, c: Conditions, aim: Aim, n: nat)
    requires KeptWithin(w, u, c, aim, n) && Stops(u.op.pc)
    ensures KeptRipe(w, u, c.now, aim)
  {
    Stop(u, c, aim, n, true);
  }

  lemma ArrivesKept(w: World, c: Conditions, aim: Aim, n: nat)
    requires Within(w, c, aim, n, true) && Left(w.op.pc) <= 10
    ensures KeptRipe(w, Alone(w, c, n), c.now, aim)
  {
    var P := (u: World, d: Conditions, k: nat) => d.now == c.now && KeptWithin(w, u, d, aim, k);
    var Q := (u: World) => KeptRipe(w, u, c.now, aim);
    KeptTurns(w, c.now, aim, P);
    forall u: World, d: Conditions, k: nat | P(u, d, k) && Stops(u.op.pc) ensures Q(u) {
      KeptStop(w, u, d, aim, k);
    }
    CountDown(w, c, n, P, Q);
  }

  // ------------------------------------------------------------ as actions

  /** The actions of one turn of `Alone`. */
  function Turn(w: World, c: Conditions): seq<Action> {
    if NowReady(w, c) then [MakeReady(w, c), Operate(PollSnapshot)] else [Operate(NextCall(w, c))]
  }

  function Actions(w: World, c: Conditions, n: nat): seq<Action>
    decreases n
  {
    if n == 0 || Stops(w.op.pc) then [] else Turn(w, c) + Actions(Next(w, c), Later(w, c), n - 1)
  }

  lemma TurnRuns(w: World, c: Conditions)
    ensures Run(w, Turn(w, c)) == Next(w, c)
  {
    if NowReady(w, c) {
      assert Turn(w, c) == [] + [MakeReady(w, c)] + [Operate(PollSnapshot)];
      RunPush(w, [], MakeReady(w, c));
      RunPush(w, [] + [MakeReady(w, c)], Operate(PollSnapshot));
    } else {
      assert Turn(w, c) == [] + [Operate(NextCall(w, c))];
      RunPush(w, [], Operate(NextCall(w, c)));
    }
  }

  lemma {:induction false} ActionsRun(w: World, c: Conditions, n: nat)
    ensures Run(w, Actions(w, c, n)) == Alone(w, c, n)
    decreases n
  {
    if n > 0 && !Stops(w.op.pc) {
      var v := Next(w, c);
      ActionsRun(v, Later(w, c), n - 1);
      TurnRuns(w, c);
      RunAppend(w, Turn(w, c), Actions(v, Later(w, c), n - 1));
    }
  }

  /** A reconcile that is not deleting publishes nothing before its status. */
  predicate Ordinary(a: Action) { Alike(a) && Silent(a) }

  lemma TurnOrdinary(w: World, c: Conditions)
    requires !Stops(w.op.pc) && w.op.pc != AtUnguard
    ensures forall a :: a in Turn(w, c) ==> Ordinary(a)
  {
  }

  lemma {:induction false} ActionsOrdinary(w: World, u: World, c: Conditions, aim: Aim, n: nat)
    requires KeptWithin(w, u, c, aim, n)
    ensures forall a :: a in Actions(u, c, n) ==> Ordinary(a)
    decreases n
  {
    if n > 0 && !Stops(u.op.pc) {
      TurnOrdinary(u, c);
      KeptTurn(w, u, c, aim, n);
      ActionsOrdinary(w, Next(u, c), Later(u, c), aim, n - 1);
    }
  }

  /** From the first calls to the status. */
  lemma LateLeg(u: World, c: Conditions, n: nat, k: Key) returns (rest: seq<Action>, v: World)
    requires Within(u, c, Begins(u), n, true) && Left(u.op.pc) <= 10
    ensures Leg(u, k, rest, v, []) && OperatorOnly(rest) && KeptRipe(u, v, c.now, Begins(u))
  {
    ArrivesKept(u, c, Begins(u), n);
    ActionsRun(u, c, n);
    ActionsOrdinary(u, u, c, Begins(u), n);
    rest, v := Actions(u, c, n), Alone(u, c, n);
    SilentRun(u, k, rest);
  }

  lemma EarlyLeg(w: World, spec: Spec, found: bool, saw: Option<nat>, t: Instant, k: Key)
    returns (early: seq<Action>, u: World)
    requires AtRest(w, spec, found)
    requires BudgetAfter(w.kids.budget, saw, BudgetFor(Latest(w.servers).value, Open(spec, t))).Some?
    ensures Leg(w, k, early, u, []) && OperatorOnly(early) && Opened(w, u, spec, found, saw, t)
  {
    early := Opening(w, spec, found) + Budgeting(saw, t);
    EarlyRuns(w, spec, found, saw, t);
    u := Run(w, early);
    SilentRun(w, k, early);
  }

  /** A whole reconcile of a simple server up to the status; its early reads may be stale. */
  lemma Approaches(w: World, spec: Spec, found: bool, saw: Option<nat>, t: Instant, c: Conditions, k: Key)
    returns (run: seq<Action>, u: World, v: World)
    requires AtRest(w, spec, found) && c.preUpdate.None? && Simple(spec, w.kids.vpa)
    requires BudgetAfter(w.kids.budget, saw, BudgetFor(Latest(w.servers).value, Open(spec, t))).Some?
    ensures Leg(w, k, run, v, []) && OperatorOnly(run)
    ensures Opened(w, u, spec, found, saw, t) && KeptRipe(u, v, c.now, Begins(u))
  {
    var early, rest;
    early, u := EarlyLeg(w, spec, found, saw, t, k);
    GoesOn(w, u, c, spec, found, saw, t);
    rest, v := LateLeg(u, c, 10 + c.patience, k);
    var none: seq<GaugeCall> := [];
    Legs(w, k, early, u, none, rest, v, none);
    assert none + none == none;
    run := early + rest;
  }

  // ------------------------------------------------------------ the status

  /** A publication of what the StatefulSet of `u` shows, or of what one created since shows,
      over the phase in the copy at hand. */
  predicate Publishes(u: World, k: Key, call: GaugeCall) {
    && call.Publish? && call.key == k && call.oldPhase == u.op.server.status.phase
    && (call.phase == Pending || call.phase == Running || call.phase == Updating)
    && (Latest(u.sets).Some? ==> call.phase == PhaseOf(Some(Latest(u.sets).value.rollout)))
  }

  function Commit(v: World, now: Instant, acknowledged: bool): Action {
    Operate(CommitStatus(Newest(v.sets), now, acknowledged))
  }

  lemma CommitLeg(u: World, v: World, now: Instant, aim: Aim, k: Key) returns (x: World, call: GaugeCall)
    requires KeptRipe(u, v, now, aim)
    ensures x == DoCommitStatus(v, Newest(v.sets), now, true)
    ensures Leg(v, k, [Commit(v, now, true)], x, [call]) && Publishes(u, k, call)
  {
    var commit := Commit(v, now, true);
    x := DoCommitStatus(v, |v.sets| - 1, now, true);
    assert [commit] == [] + [commit];
    RunPush(v, [], commit);
    assert [commit][..0] == [];
    CommitEmits(v, k, |v.sets| - 1, now, true);
    call := Emitted(v, k, commit).value;
  }

  lemma CommitKeeps(u: World, v: World, now: Instant, aim: Aim)
    requires KeptRipe(u, v, now, aim)
    ensures var x := DoCommitStatus(v, Newest(v.sets), now, true); Done(x, now, aim) && Kept(u, x)
  {
    CommitStatusProgress(v, |v.sets| - 1, now, true);
  }

  /** A whole reconcile of a simple server whose early reads may be stale, and its one publication. */
  lemma ReconcileEnds(w: World, spec: Spec, found: bool, saw: Option<nat>, t: Instant, c: Conditions, k: Key)
    returns (run: seq<Action>, u: World, v: World, call: GaugeCall)
    requires AtRest(w, spec, found) && c.preUpdate.None? && Simple(spec, w.kids.vpa)
    requires BudgetAfter(w.kids.budget, saw, BudgetFor(Latest(w.servers).value, Open(spec, t))).Some?
    ensures Leg(w, k, run, v, [call]) && OperatorOnly(run) && Publishes(u, k, call)
    ensures Opened(w, u, spec, found, saw, t) && Done(v, c.now, Begins(u)) && Kept(u, v)
  {
    var lead, ripe;
    lead, u, ripe := Approaches(w, spec, found, saw, t, c, k);
    v, call := CommitLeg(u, ripe, c.now, Begins(u), k);
    CommitKeeps(u, ripe, c.now, Begins(u));
    Legs(w, k, lead, ripe, [], [Commit(ripe, c.now, true)], v, [call]);
    assert [] + [call] == [call];
    run := lead + [Commit(ripe, c.now, true)];
  }

  /** What is known of a world in which a reconcile has committed. */
  lemma DoneFacts(v: World, now: Instant, aim: Aim)
    requires Done(v, now, aim)
    ensures !v.op.missedBudget ==> v.kids.budget == Some(BudgetFor(v.op.server, aim.budgetOpen))
    ensures v.op.missedBudget ==> v.kids.budget != Some(BudgetFor(v.op.server, aim.budgetOpen))
    ensures StoredConfig(v) == WantedConfig(aim.spec, aim.secrets) <==> !aim.missedConfig
    ensures v.op.deferred == Held(aim, now) && v.op.applied == !v.op.deferred
    ensures Latest(v.servers).Some? && Latest(v.servers).value.spec == aim.spec
    ensures !Latest(v.servers).value.deleting && Latest(v.servers).value.status.updateDeferred == v.op.deferred
  {
  }
}
