/** Progress: when a reconcile that nobody disturbs succeeds, from any state of the cluster. */
module Liveness {
  import opened Api
  import opened Config
  import opened Cron
  import opened Objects
  import opened Snapshots
  import opened Vertical
  import opened Protocol
  import opened Convergence

  // ------------------------------------------------------------ an undisturbed reconcile

  /** The polls of a pre-update snapshot that fit into the time there is for it. */
  const MAX_POLLS: nat := 18

  lemma MaxPollsIsTimeout()
    ensures MAX_POLLS == TIMEOUT_SECONDS / POLL_SECONDS
  {
  }

  /** What a reconcile meets with: the time, whether the autoscaler is installed, the snapshot it
      would take on schedule and what pruning leaves of a store, and the pre-update snapshot.
      That one is ready after some undecided polls, or, without one, it cannot be created;
      `patience` is how many polls are left. */
  datatype Conditions = Conditions(
    now: Instant, installed: bool, scheduled: Snapshot, prune: Store -> Store,
    preUpdate: Option<Snapshot>, polls: nat, patience: nat)

  function Newest<T>(log: seq<T>): nat { if log == [] then 0 else |log| - 1 }

  /** The snapshots after the scheduled one. */
  function Pruned(w: World, c: Conditions): Store {
    var items := WithSnapshot(w.snapshots, w.name, c.scheduled);
    if OnlyOwnGone(items, c.prune(items), w.name) then c.prune(items) else items
  }

  /** The Secrets as they are when the credentials are read: without user groups, whatever had
      the config Secret's name has just been removed. */
  function ShownFor(name: string, spec: Spec, secrets: Secrets): Secrets {
    if spec.groups == [] then secrets - {ConfigSecretName(name)} else secrets
  }

  function ShownTo(w: World): Secrets { ShownFor(w.name, w.op.server.spec, w.secrets) }

  /** The next call of the operator when every read is current and nothing fails but, in the end,
      the pre-update snapshot. */
  function NextCall(w: World, c: Conditions): Call {
    match w.op.pc
    case Finished(_) => Read(Newest(w.servers))
    case AtFinalizer => AddFinalizer
    case AtCredentials => Credentials(ConfigSecretName(w.name) in w.secrets, ShownTo(w))
    case AtPhaseError => PhaseError(true)
    case AtClaim => EnsureClaim(w.kids.claim.Some?)
    case AtAccess => EnsureAccess(3)
    case AtBudget => EnsureBudget(w.kids.budget, c.now)
    case AtVpa => EnsureVpa(c.installed)
    case AtScaling => ApplyRecommendation(Newest(w.sets))
    case AtPolicy => EnsurePolicy
    case AtGate => Gate(c.now)
    case AtStatefulSet => ReadStatefulSet(Newest(w.sets))
    case AtSnapshot => if c.preUpdate.Some? then CreateSnapshot(c.preUpdate.value) else SnapshotTrouble
    case AtPoll => if c.preUpdate.Some? && c.patience > 0 then PollSnapshot else SnapshotTrouble
    case AtRollout => UpdateStatefulSet
    case AtService => EnsureService
    case AtSchedule => TakeSnapshot(c.scheduled, c.now, Pruned(w, c), true)
    case AtStatus => CommitStatus(Newest(w.sets), c.now, true)
    case AtClaimDelete => DeleteClaim(w.kids.claim.Some?)
    case AtUnguard => RemoveFinalizer(true)
  }

  /** The driver reports the pre-update snapshot as ready. */
  function MakeReady(w: World, c: Conditions): Action {
    Disturb(SetSnapshot(w.op.snapshot,
      if c.preUpdate.Some? then Some(c.preUpdate.value.(ready := true, error := "")) else None))
  }

  predicate NowReady(w: World, c: Conditions) {
    w.op.pc == AtPoll && c.preUpdate.Some? && c.patience > 0 && c.polls == 0
  }

  function Next(w: World, c: Conditions): World {
    if NowReady(w, c) then Step(Step(w, MakeReady(w, c)), Operate(PollSnapshot))
    else Step(w, Operate(NextCall(w, c)))
  }

  function Later(w: World, c: Conditions): Conditions {
    if w.op.pc == AtPoll && c.polls > 0 && c.patience > 0 then c.(polls := c.polls - 1, patience := c.patience - 1)
    else c
  }

  /** The reconcile is over, or all but its last call is done. */
  predicate Stops(pc: Pc) { pc.Finished? || pc == AtStatus }

  /** At most `n` turns of a reconcile under way, up to the commit of the status. */
  function Alone(w: World, c: Conditions, n: nat): World
    decreases n
  {
    if n == 0 || Stops(w.op.pc) then w else Alone(Next(w, c), Later(w, c), n - 1)
  }

  /** The whole of it. */
  function Settled(w: World, c: Conditions, n: nat): World {
    var u := Alone(w, c, n);
    if u.op.pc == AtStatus then Next(u, c) else u
  }

  /** Calls left until the end of an ordinary reconcile, at most, besides undecided polls. */
  function Left(pc: Pc): nat {
    match pc
    case AtFinalizer => 16
    case AtCredentials => 15
    case AtClaim => 14
    case AtAccess => 13
    case AtBudget => 12
    case AtVpa => 11
    case AtScaling => 10
    case AtPolicy => 9
    case AtGate => 8
    case AtStatefulSet => 7
    case AtSnapshot => 6
    case AtPoll => 5
    case AtRollout => 4
    case AtService => 3
    case AtSchedule => 2
    case AtStatus => 1
    case _ => 0
  }

  function Togo(pc: Pc, c: Conditions): nat {
    Left(pc) + if Left(pc) >= 5 then c.patience else 0
  }

  // ------------------------------------------------------------ under way

  /** What a reconcile is about, fixed from its first read on, and what it has recorded of its
      early reads: whether they missed the config Secret or the budget, and whether a
      window was open when the budget was written. */
  datatype Aim = Aim(
    name: string, spec: Spec, secrets: Secrets, players: nat,
    missedConfig: bool, missedBudget: bool, budgetOpen: bool)

  predicate Open(spec: Spec, now: Instant) { InAnyWindow(spec.policy.windows, now) }

  /** The reconcile is to be deferred. */
  predicate Held(aim: Aim, now: Instant) {
    aim.spec.policy.deferWhilePlaying && aim.players > 0 && !Open(aim.spec, now)
  }

  /** An update would change the image of the game. */
  predicate NewImage(sts: Option<StatefulSet>, spec: Spec) {
    sts.Some? && FirstImage(sts.value).Some? && FirstImage(sts.value) != Some(ImageOf(spec))
  }

  /** The pre-update snapshot is ready before the last poll. */
  predicate InTime(c: Conditions) { c.preUpdate.Some? && c.polls < c.patience }

  predicate Insists(spec: Spec) { spec.policy.strategy == StrictSnapshotBeforeUpdate }

  predicate Pursues(w: World, aim: Aim) {
    && w.name == aim.name && (Left(w.op.pc) >= 15 ==> ShownTo(w) == aim.secrets)
    && w.op.server.spec == aim.spec && w.op.server.status.activePlayers == aim.players
    && IsLatest(w.servers, w.op.version) && w.seen < |w.servers| && |w.sets| > 0
    && !w.op.server.deleting && !w.op.committed
  }

  /** The record agrees with the aim; what is still to be read will be up to date. */
  predicate Current(op: Operator, now: Instant, aim: Aim, left: nat) {
    && (if left < 15 then op.observed == aim.secrets && op.missedConfig == aim.missedConfig else !aim.missedConfig)
    && (if left < 12 then op.budgetWindow == aim.budgetOpen && op.missedBudget == aim.missedBudget
        else aim.budgetOpen == Open(aim.spec, now) && !aim.missedBudget)
    && (left < 8 ==> op.deferred == Held(aim, now))
  }

  /** The pre-update snapshot is new, or waited for and not yet decided. */
  predicate Waiting(w: World, c: Conditions) {
    && (c.preUpdate.Some? && Left(w.op.pc) >= 6 ==> c.preUpdate.value.name !in w.snapshots)
    && (w.op.pc == AtPoll ==>
          && c.preUpdate.Some? && w.op.snapshot in w.snapshots
          && w.snapshots[w.op.snapshot].error == "" && !w.snapshots[w.op.snapshot].ready)
    && (w.op.pc == AtStatefulSet || w.op.pc == AtSnapshot || w.op.pc == AtPoll ==> !w.op.deferred)
    && (w.op.pc == AtSnapshot || w.op.pc == AtPoll ==> NewImage(Latest(w.sets), w.op.server.spec))
    && (w.op.pc == AtSnapshot || w.op.pc == AtPoll || w.op.pc == AtRollout ==>
          IsLatest(w.sets, w.op.base) && Latest(w.sets).Some?)
  }

  /** The reconcile is under way. */
  predicate UnderWay(w: World, c: Conditions, aim: Aim) {
    Left(w.op.pc) > 0 && Pursues(w, aim) && Waiting(w, c) && Current(w.op, c.now, aim, Left(w.op.pc))
  }

  /** Nothing that is still to come will stop it: the Secrets resolve, there is a StatefulSet to
      apply advice to, and a snapshot that is insisted on for a new image is ready in time. */
  predicate Clear(w: World, c: Conditions, aim: Aim) {
    var left := Left(w.op.pc);
    && (left >= 15 ==> CredentialsOf(aim.spec, aim.secrets).Annotated?)
    && (left >= 10 ==> Asks(Advice(aim.spec.scaling, w.kids.vpa)) ==> Latest(w.sets).Some?)
    && (left >= 5 && Insists(aim.spec) && !Held(aim, c.now) && NewImage(Latest(w.sets), aim.spec) ==> InTime(c))
  }

  /** It has failed, or is about to report that. */
  predicate Failing(w: World) {
    (w.op.pc == Finished(Failed) || w.op.pc == AtPhaseError) && !w.op.committed
  }

  /** The call brings the reconcile closer to its end; it fails exactly if it was not clear. */
  predicate Closer(w: World, v: World, c: Conditions, aim: Aim) {
    if Failing(v) then !Clear(w, c, aim)
    else UnderWay(v, c, aim) && Left(v.op.pc) < Left(w.op.pc) && (Clear(v, c, aim) <==> Clear(w, c, aim))
  }

  // ------------------------------------------------------------ every call brings it closer

  lemma AdviceKeepsFirstImage(sets: seq<Option<StatefulSet>>, advice: seq<Recommendation>, playing: bool)
    requires |sets| > 0
    ensures var after := SetsAfterAdvice(sets, |sets| - 1, advice, playing);
      && |after| > 0 && (Latest(after).Some? <==> Latest(sets).Some?)
      && (Latest(sets).Some? ==>
            && FirstImage(Latest(after).value) == FirstImage(Latest(sets).value)
            && Latest(after).value.rollout == Latest(sets).value.rollout)
    ensures CanApply(sets, |sets| - 1, advice, playing) <==> (Asks(advice) ==> Latest(sets).Some?)
  {
  }

  lemma FinalizerCloser(w: World, c: Conditions, aim: Aim)
    requires UnderWay(w, c, aim) && w.op.pc == AtFinalizer
    ensures Closer(w, DoAddFinalizer(w), c, aim)
  {
  }

  lemma CredentialsCloser(w: World, c: Conditions, aim: Aim)
    requires UnderWay(w, c, aim) && w.op.pc == AtCredentials
    ensures Closer(w, DoCredentials(w, ConfigSecretName(w.name) in w.secrets, ShownTo(w)), c, aim)
  {
  }

  lemma ClaimCloser(w: World, c: Conditions, aim: Aim)
    requires UnderWay(w, c, aim) && w.op.pc == AtClaim
    ensures Closer(w, DoEnsureClaim(w, w.kids.claim.Some?), c, aim)
  {
  }

  lemma AccessCloser(w: World, c: Conditions, aim: Aim)
    requires UnderWay(w, c, aim) && w.op.pc == AtAccess
    ensures Closer(w, DoEnsureAccess(w, 3), c, aim)
  {
  }

  lemma BudgetCloser(w: World, c: Conditions, aim: Aim)
    requires UnderWay(w, c, aim) && w.op.pc == AtBudget
    ensures Closer(w, DoEnsureBudget(w, w.kids.budget, c.now), c, aim)
  {
  }

  lemma VpaCloser(w: World, c: Conditions, aim: Aim)
    requires UnderWay(w, c, aim) && w.op.pc == AtVpa
    ensures Closer(w, DoEnsureVpa(w, c.installed), c, aim)
  {
  }

  lemma ScalingCloser(w: World, c: Conditions, aim: Aim)
    requires UnderWay(w, c, aim) && w.op.pc == AtScaling
    ensures Closer(w, DoApplyRecommendation(w, Newest(w.sets)), c, aim)
  {
    AdviceKeepsFirstImage(w.sets, Advice(aim.spec.scaling, w.kids.vpa), aim.players > 0);
  }

  lemma PolicyCloser(w: World, c: Conditions, aim: Aim)
    requires UnderWay(w, c, aim) && w.op.pc == AtPolicy
    ensures Closer(w, DoEnsurePolicy(w), c, aim)
  {
  }

  lemma GateCloser(w: World, c: Conditions, aim: Aim)
    requires UnderWay(w, c, aim) && w.op.pc == AtGate
    ensures Closer(w, DoGate(w, c.now), c, aim)
  {
  }

  lemma StatefulSetCloser(w: World, c: Conditions, aim: Aim)
    requires UnderWay(w, c, aim) && w.op.pc == AtStatefulSet
    ensures Closer(w, DoReadStatefulSet(w, Newest(w.sets)), c, aim)
  {
    if Latest(w.sets).None? {
      CreationCloser(w, c, aim);
    } else {
      FoundCloser(w, c, aim);
    }
  }

  lemma CreationCloser(w: World, c: Conditions, aim: Aim)
    requires UnderWay(w, c, aim) && w.op.pc == AtStatefulSet && Latest(w.sets).None?
    ensures Closer(w, DoReadStatefulSet(w, Newest(w.sets)), c, aim)
  {
    assert DoReadStatefulSet(w, Newest(w.sets)).op.pc == AtService;
  }

  lemma FoundCloser(w: World, c: Conditions, aim: Aim)
    requires UnderWay(w, c, aim) && w.op.pc == AtStatefulSet && Latest(w.sets).Some?
    ensures Closer(w, DoReadStatefulSet(w, Newest(w.sets)), c, aim)
  {
    FoundFacts(w);
    var guarded := TakesSnapshot(w.op.server.spec.policy.strategy) && NewImage(Latest(w.sets), w.op.server.spec);
    RereadCloser(w, c, aim, if guarded then AtSnapshot else AtRollout);
  }

  lemma RereadCloser(w: World, c: Conditions, aim: Aim, pc: Pc)
    requires UnderWay(w, c, aim) && w.op.pc == AtStatefulSet && Latest(w.sets).Some?
    requires pc == AtSnapshot ==> NewImage(Latest(w.sets), aim.spec)
    requires pc == AtRollout ==> !(Insists(aim.spec) && NewImage(Latest(w.sets), aim.spec))
    requires pc == AtSnapshot || pc == AtRollout
    ensures Closer(w, w.(op := w.op.(base := |w.sets| - 1, evidence := None, applied := false, pc := pc)), c, aim)
  {
    if pc == AtSnapshot { return; }
  }

  lemma FoundFacts(w: World)
    requires |w.sets| > 0 && Latest(w.sets).Some?
    ensures DoReadStatefulSet(w, Newest(w.sets)) ==
      var guarded := TakesSnapshot(w.op.server.spec.policy.strategy) && NewImage(Latest(w.sets), w.op.server.spec);
      w.(op := w.op.(base := |w.sets| - 1, evidence := None, applied := false,
                     pc := if guarded then AtSnapshot else AtRollout))
  {
    assert FirstImage(Desired(w)) == Some(ImageOf(w.op.server.spec));
  }

  lemma SnapshotCloser(w: World, c: Conditions, aim: Aim)
    requires UnderWay(w, c, aim) && w.op.pc == AtSnapshot
    ensures c.preUpdate.Some? ==> Closer(w, DoCreateSnapshot(w, c.preUpdate.value), c, aim)
    ensures c.preUpdate.None? ==> Closer(w, DoSnapshotTrouble(w), c, aim)
  {
  }

  /** An undecided poll changes nothing but that one poll less is left. */
  lemma PollStays(w: World, c: Conditions, aim: Aim)
    requires UnderWay(w, c, aim) && w.op.pc == AtPoll && c.polls > 0 && c.patience > 0
    ensures var v, d := DoPollSnapshot(w), c.(polls := c.polls - 1, patience := c.patience - 1);
      UnderWay(v, d, aim) && v.op.pc == AtPoll && (Clear(v, d, aim) <==> Clear(w, c, aim))
  {
  }

  lemma ReadyCloser(w: World, c: Conditions, aim: Aim)
    requires UnderWay(w, c, aim) && NowReady(w, c)
    ensures Closer(w, DoPollSnapshot(Disturbed(w, MakeReady(w, c).change)), c, aim)
  {
  }

  /** After the last poll time is up. */
  lemma TimeoutCloser(w: World, c: Conditions, aim: Aim)
    requires UnderWay(w, c, aim) && w.op.pc == AtPoll && c.patience == 0
    ensures Closer(w, DoSnapshotTrouble(w), c, aim)
  {
  }

  lemma RolloutCloser(w: World, c: Conditions, aim: Aim)
    requires UnderWay(w, c, aim) && w.op.pc == AtRollout
    ensures Closer(w, DoUpdateStatefulSet(w), c, aim)
  {
  }

  lemma ServiceCloser(w: World, c: Conditions, aim: Aim)
    requires UnderWay(w, c, aim) && w.op.pc == AtService
    ensures Closer(w, DoEnsureService(w), c, aim)
  {
  }

  lemma ScheduleCloser(w: World, c: Conditions, aim: Aim)
    requires UnderWay(w, c, aim) && w.op.pc == AtSchedule
    ensures Closer(w, DoTakeSnapshot(w, c.now, Pruned(w, c), true), c, aim)
  {
  }

  lemma NextFirst(w: World, c: Conditions)
    requires |w.sets| > 0
    ensures match w.op.pc
      case AtFinalizer => Next(w, c) == DoAddFinalizer(w)
      case AtCredentials => Next(w, c) == DoCredentials(w, ConfigSecretName(w.name) in w.secrets, ShownTo(w))
      case AtClaim => Next(w, c) == DoEnsureClaim(w, w.kids.claim.Some?)
      case _ => true
  {
    match w.op.pc
    case AtFinalizer => return;
    case AtCredentials => return;
    case AtClaim => return;
    case _ => return;
  }

  lemma NextEarly(w: World, c: Conditions)
    requires |w.sets| > 0
    ensures match w.op.pc
      case AtAccess => Next(w, c) == DoEnsureAccess(w, 3)
      case AtBudget => Next(w, c) == DoEnsureBudget(w, w.kids.budget, c.now)
      case AtVpa => Next(w, c) == DoEnsureVpa(w, c.installed)
      case _ => true
  {
    match w.op.pc
    case AtAccess => return;
    case AtBudget => return;
    case AtVpa => return;
    case _ => return;
  }

  lemma NextMiddle(w: World, c: Conditions)
    requires |w.sets| > 0
    ensures match w.op.pc
      case AtScaling => Next(w, c) == DoApplyRecommendation(w, Newest(w.sets))
      case AtPolicy => Next(w, c) == DoEnsurePolicy(w)
      case AtGate => Next(w, c) == DoGate(w, c.now)
      case _ => true
  {
    match w.op.pc
    case AtScaling => return;
    case AtPolicy => return;
    case AtGate => return;
    case _ => return;
  }

  lemma NextRead(w: World, c: Conditions)
    requires |w.sets| > 0 && w.op.pc == AtStatefulSet
    ensures Next(w, c) == DoReadStatefulSet(w, Newest(w.sets))
  {
    var call := ReadStatefulSet(|w.sets| - 1);
    assert NextCall(w, c) == call && Callable(w, call);
  }

  lemma NextRollout(w: World, c: Conditions)
    requires |w.sets| > 0 && w.op.pc == AtRollout
    ensures Next(w, c) == DoUpdateStatefulSet(w)
  {
  }

  lemma NextService(w: World, c: Conditions)
    requires |w.sets| > 0 && w.op.pc == AtService
    ensures Next(w, c) == DoEnsureService(w)
  {
  }

  lemma NextSchedule(w: World, c: Conditions)
    requires |w.sets| > 0 && w.op.pc == AtSchedule
    ensures Next(w, c) == DoTakeSnapshot(w, c.now, Pruned(w, c), true)
  {
  }

  lemma NextStatus(w: World, c: Conditions)
    requires |w.sets| > 0 && w.op.pc == AtStatus
    ensures Next(w, c) == DoCommitStatus(w, Newest(w.sets), c.now, true)
  {
  }

  lemma NextSnapshot(w: World, c: Conditions)
    requires w.op.pc == AtSnapshot
    ensures Next(w, c) == if c.preUpdate.Some? then DoCreateSnapshot(w, c.preUpdate.value) else DoSnapshotTrouble(w)
  {
  }

  lemma NextPoll(w: World, c: Conditions)
    requires w.op.pc == AtPoll && c.preUpdate.Some?
    ensures Next(w, c) ==
      if c.patience == 0 then DoSnapshotTrouble(w)
      else if c.polls == 0 then DoPollSnapshot(Disturbed(w, MakeReady(w, c).change))
      else DoPollSnapshot(w)
  {
    if NowReady(w, c) { return; }
  }

  lemma PollCloser(w: World, c: Conditions, aim: Aim, v: World)
    requires UnderWay(w, c, aim) && w.op.pc == AtPoll && v == Next(w, c)
    ensures c.polls == 0 || c.patience == 0 ==> Closer(w, v, c, aim)
    ensures c.polls > 0 && c.patience > 0 ==>
      UnderWay(v, Later(w, c), aim) && v.op.pc == AtPoll && (Clear(v, Later(w, c), aim) <==> Clear(w, c, aim))
  {
    NextPoll(w, c);
    if c.patience == 0 {
      TimeoutCloser(w, c, aim);
    } else if c.polls == 0 {
      ReadyCloser(w, c, aim);
    } else {
      PollStays(w, c, aim);
    }
  }

  lemma CallCloser(w: World, c: Conditions, aim: Aim, v: World)
    requires UnderWay(w, c, aim) && w.op.pc != AtPoll && w.op.pc != AtStatus && v == Next(w, c)
    ensures Closer(w, v, c, aim)
  {
    match w.op.pc
    case AtFinalizer => NextFirst(w, c); FinalizerCloser(w, c, aim); return;
    case AtCredentials => NextFirst(w, c); CredentialsCloser(w, c, aim); return;
    case AtClaim => NextFirst(w, c); ClaimCloser(w, c, aim); return;
    case AtAccess => NextEarly(w, c); AccessCloser(w, c, aim); return;
    case AtBudget => NextEarly(w, c); BudgetCloser(w, c, aim); return;
    case AtVpa => NextEarly(w, c); VpaCloser(w, c, aim); return;
    case AtScaling => NextMiddle(w, c); ScalingCloser(w, c, aim); return;
    case AtPolicy => NextMiddle(w, c); PolicyCloser(w, c, aim); return;
    case AtGate => NextMiddle(w, c); GateCloser(w, c, aim); return;
    case AtStatefulSet => NextRead(w, c); StatefulSetCloser(w, c, aim); return;
    case AtRollout => NextRollout(w, c); RolloutCloser(w, c, aim); return;
    case AtService => NextService(w, c); ServiceCloser(w, c, aim); return;
    case AtSchedule => NextSchedule(w, c); ScheduleCloser(w, c, aim); return;
    case AtSnapshot => NextSnapshot(w, c); SnapshotCloser(w, c, aim); return;
  }

  /** One turn: it fails exactly if it was not clear. */
  lemma TurnCloser(w: World, c: Conditions, aim: Aim, v: World)
    requires UnderWay(w, c, aim) && w.op.pc != AtStatus && v == Next(w, c)
    ensures Failing(v) ==> !Clear(w, c, aim)
    ensures !Failing(v) ==>
      && UnderWay(v, Later(w, c), aim) && Togo(v.op.pc, Later(w, c)) < Togo(w.op.pc, c)
      && (Clear(v, Later(w, c), aim) <==> Clear(w, c, aim))
  {
    if w.op.pc == AtPoll {
      PollCloser(w, c, aim, v);
    } else {
      CallCloser(w, c, aim, v);
    }
  }

  // ------------------------------------------------------------ until it stops

  /** What holds with `n` turns left at most, for a reconcile that is clear or not. */
  predicate Within(w: World, c: Conditions, aim: Aim, n: nat, clear: bool) {
    && Progress(w)
    && if Failing(w) then !clear && (w.op.pc == AtPhaseError ==> n > 0)
       else UnderWay(w, c, aim) && Togo(w.op.pc, c) <= n && Clear(w, c, aim) == clear
  }

  lemma NextProgress(w: World, c: Conditions)
    requires Progress(w)
    ensures Progress(Next(w, c))
  {
    if NowReady(w, c) {
      StepProgress(w, MakeReady(w, c));
      StepProgress(Step(w, MakeReady(w, c)), Operate(PollSnapshot));
    } else {
      StepProgress(w, Operate(NextCall(w, c)));
    }
  }

  lemma ErrorFails(w: World, c: Conditions)
    requires w.op.pc == AtPhaseError && !w.op.committed
    ensures Next(w, c).op.pc == Finished(Failed) && !Next(w, c).op.committed
  {
  }

  lemma OneTurn(w: World, c: Conditions, aim: Aim, n: nat, clear: bool)
    requires Within(w, c, aim, n, clear) && !Stops(w.op.pc)
    ensures n > 0 && Within(Next(w, c), Later(w, c), aim, n - 1, clear)
  {
    NextProgress(w, c);
    if w.op.pc == AtPhaseError {
      ErrorFails(w, c);
    } else {
      TurnCloser(w, c, aim, Next(w, c));
    }
  }

  /** What every turn keeps while it counts down leads to what it implies at the end. */
  lemma {:induction false} CountDown(w: World, c: Conditions, n: nat, P: (World, Conditions, nat) -> bool, Q: World -> bool)
    requires P(w, c, n)
    requires forall u: World, d: Conditions, k: nat ::
      P(u, d, k) && !Stops(u.op.pc) ==> k > 0 && P(Next(u, d), Later(u, d), k - 1)
    requires forall u: World, d: Conditions, k: nat :: P(u, d, k) && Stops(u.op.pc) ==> Q(u)
    ensures Q(Alone(w, c, n))
    decreases n
  {
    if !Stops(w.op.pc) {
      CountDown(Next(w, c), Later(w, c), n - 1, P, Q);
    }
  }

  /** Everything but the last call is done. */
  predicate Ripe(w: World, now: Instant, aim: Aim) {
    w.op.pc == AtStatus && Pursues(w, aim) && Current(w.op, now, aim, 1) && Progress(w)
  }

  /** A clear reconcile gets to the status, any other fails. */
  predicate Stopped(w: World, now: Instant, aim: Aim, clear: bool) {
    if clear then Ripe(w, now, aim) else w.op.pc == Finished(Failed) && !w.op.committed
  }

  lemma Stop(w: World, c: Conditions, aim: Aim, n: nat, clear: bool)
    requires Within(w, c, aim, n, clear) && Stops(w.op.pc)
    ensures Stopped(w, c.now, aim, clear)
  {
  }

  lemma Turns(now: Instant, aim: Aim, clear: bool, P: (World, Conditions, nat) -> bool)
    requires forall u, d, k :: P(u, d, k) <==> d.now == now && Within(u, d, aim, k, clear)
    ensures forall u: World, d: Conditions, k: nat ::
      P(u, d, k) && !Stops(u.op.pc) ==> k > 0 && P(Next(u, d), Later(u, d), k - 1)
  {
    forall u: World, d: Conditions, k: nat | P(u, d, k) && !Stops(u.op.pc)
      ensures k > 0 && P(Next(u, d), Later(u, d), k - 1)
    {
      OneTurn(u, d, aim, k, clear);
    }
  }

  lemma Arrives(w: World, c: Conditions, aim: Aim, n: nat, clear: bool)
    requires Within(w, c, aim, n, clear)
    ensures Stopped(Alone(w, c, n), c.now, aim, clear)
  {
    var P := (u: World, d: Conditions, k: nat) => d.now == c.now && Within(u, d, aim, k, clear);
    var Q := (u: World) => Stopped(u, c.now, aim, clear);
    Turns(c.now, aim, clear, P);
    forall u: World, d: Conditions, k: nat | P(u, d, k) && Stops(u.op.pc) ensures Q(u) {
      Stop(u, d, aim, k, clear);
    }
    CountDown(w, c, n, P, Q);
  }

  /** The status is committed. */
  predicate Done(w: World, now: Instant, aim: Aim) {
    && w.op.pc == Finished(if Held(aim, now) then Requeue else Succeeded) && w.op.committed
    && w.name == aim.name && w.op.server.spec == aim.spec && w.op.server.status.activePlayers == aim.players
    && IsLatest(w.servers, w.op.version + 1) && w.seen < |w.servers| && |w.sets| > 0 && !w.op.server.deleting
    && Current(w.op, now, aim, 0) && Progress(w)
  }

  lemma Commits(u: World, c: Conditions, aim: Aim)
    requires Ripe(u, c.now, aim)
    ensures Done(Next(u, c), c.now, aim)
  {
    NextStatus(u, c);
    NextProgress(u, c);
  }

  // ------------------------------------------------------------ from any state

  /** There is a server to reconcile, and the operator is at rest. */
  predicate Startable(w: World) {
    && w.op.pc.Finished? && w.seen < |w.servers| && |w.sets| > 0
    && Latest(w.servers).Some? && !Latest(w.servers).value.deleting
  }

  /** Nothing stands in the way of a reconcile that starts here. */
  predicate Feasible(w: World, c: Conditions)
    requires Latest(w.servers).Some?
  {
    var s := Latest(w.servers).value;
    && CredentialsOf(s.spec, ShownFor(w.name, s.spec, w.secrets)).Annotated?
    && (Asks(Advice(s.spec.scaling, w.kids.vpa)) ==> Latest(w.sets).Some?)
    && (Insists(s.spec) && !Holds(s, Open(s.spec, c.now)) && NewImage(Latest(w.sets), s.spec) ==> InTime(c))
  }

  function AimOf(w: World, now: Instant): Aim
    requires Latest(w.servers).Some?
  {
    var s := Latest(w.servers).value;
    Aim(w.name, s.spec, ShownFor(w.name, s.spec, w.secrets), s.status.activePlayers, false, false, Open(s.spec, now))
  }

  /** The name of the pre-update snapshot is not taken. */
  predicate Unused(w: World, c: Conditions) { c.preUpdate.Some? ==> c.preUpdate.value.name !in w.snapshots }

  lemma ReadStarts(w: World, c: Conditions)
    requires Startable(w) && Unused(w, c)
    ensures Next(w, c) == DoRead(w, |w.servers| - 1)
    ensures Within(Next(w, c), c, AimOf(w, c.now), 16 + c.patience, Feasible(w, c))
  {
    var call := Read(|w.servers| - 1);
    assert NextCall(w, c) == call && Callable(w, call);
    ReadProgress(w, |w.servers| - 1);
    ReadUnderWay(w, c);
  }

  lemma ReadUnderWay(w: World, c: Conditions)
    requires Startable(w) && Unused(w, c)
    ensures var v := DoRead(w, |w.servers| - 1);
      && UnderWay(v, c, AimOf(w, c.now)) && Clear(v, c, AimOf(w, c.now)) == Feasible(w, c)
      && Togo(v.op.pc, c) <= 16 + c.patience && !Failing(v)
  {
  }

  lemma DoneConverges(w: World, now: Instant, aim: Aim)
    requires Done(w, now, aim) && !Held(aim, now)
    ensures ManagedBy(w) == Wanted(aim.name, aim.spec, aim.secrets, Holds(w.op.server, aim.budgetOpen))
            <==> !aim.missedBudget && !aim.missedConfig
    ensures Latest(w.sets).Some? && AccessDone(w)
  {
    ProgressConverges(w);
  }

  /** From any state of the cluster whatsoever: a reconcile that nobody disturbs, with current
      reads, ends within 17 calls and 18 polls.  It succeeds, or is deferred because people play
      outside every window, if and only if the Secrets resolve, standing advice finds a
      StatefulSet, and a snapshot that is insisted on for a new image is ready before the 18th
      poll; otherwise it fails.  A success leaves everything it manages as wanted. */
  lemma AloneConverges(w: World, c: Conditions)
    requires Startable(w) && Unused(w, c) && c.patience == MAX_POLLS
    ensures var s := Latest(w.servers).value;
      var v := Settled(Next(w, c), c, 16 + MAX_POLLS);
      && v.op.pc.Finished?
      && (v.op.committed <==> Feasible(w, c))
      && (!v.op.committed ==> v.op.pc == Finished(Failed))
      && (v.op.committed ==> v.op.pc == Finished(if Holds(s, Open(s.spec, c.now)) then Requeue else Succeeded))
      && (v.op.pc == Finished(Succeeded) ==>
            && v.op.server.spec == s.spec && AccessDone(v)
            && ManagedBy(v) == Wanted(w.name, s.spec, ShownFor(w.name, s.spec, w.secrets), false))
  {
    var aim := AimOf(w, c.now);
    ReadStarts(w, c);
    Arrives(Next(w, c), c, aim, 16 + MAX_POLLS, Feasible(w, c));
    var u := Alone(Next(w, c), c, 16 + MAX_POLLS);
    if Feasible(w, c) {
      Commits(u, c, aim);
      if !Held(aim, c.now) {
        DoneConverges(Next(u, c), c.now, aim);
      }
    }
  }

  /** In particular: where everything else is in order, exactly an insisted-on snapshot for a new
      image that is not ready within 18 polls makes it fail. */
  lemma FailsForSnapshotIff(w: World, c: Conditions)
    requires Startable(w) && Unused(w, c) && c.patience == MAX_POLLS
    requires var s := Latest(w.servers).value;
      && CredentialsOf(s.spec, ShownFor(w.name, s.spec, w.secrets)).Annotated?
      && !Asks(Advice(s.spec.scaling, w.kids.vpa)) && !s.spec.policy.deferWhilePlaying
    ensures var s := Latest(w.servers).value;
      Settled(Next(w, c), c, 16 + MAX_POLLS).op.pc == Finished(Failed) <==>
        && s.spec.policy.strategy == StrictSnapshotBeforeUpdate && NewImage(Latest(w.sets), s.spec)
        && (c.preUpdate.None? || c.polls >= MAX_POLLS)
  {
    AloneConverges(w, c);
  }
}
