/** What a committed status says, in the terms of the StatefulSet it was read from. */
module StatusMeaning {
  import opened Api
  import opened Cron
  import opened CronSyntax
  import opened Objects
  import opened Snapshots
  import opened StatusRules
  import opened Protocol
  import opened Invariants

  predicate IsRunning(sts: Option<StatefulSet>) {
    sts.Some? && sts.value.rollout.ready > 0
  }

  /** Not ready, and on the way from one reported revision to another. */
  predicate IsUpdating(sts: Option<StatefulSet>) {
    && sts.Some? && sts.value.rollout.ready == 0
    && sts.value.rollout.currentRevision != "" && sts.value.rollout.currentRevision != sts.value.rollout.updateRevision
  }

  /** The status says of the StatefulSet what is so. */
  predicate Describes(s: Status, sts: Option<StatefulSet>, generation: nat) {
    && (s.phase == Running <==> IsRunning(sts))
    && (s.phase == Updating <==> IsUpdating(sts))
    && (s.phase == Pending <==> !IsRunning(sts) && !IsUpdating(sts))
    && s.readyReplicas == (if sts.Some? then sts.value.rollout.ready else 0)
    && Lookup(s.conditions, "Ready") == Some(Condition("Ready", IsRunning(sts),
         if sts.None? then "StatefulSetNotFound"
         else if IsRunning(sts) then "ServerRunning"
         else if IsUpdating(sts) then "ServerUpdating"
         else "ServerStarting", generation))
  }

  /** It says whether the rollout was held back, and why. */
  predicate TellsDeferral(s: Status, deferred: bool, generation: nat) {
    && s.updateDeferred == deferred
    && Lookup(s.conditions, "UpdateDeferred") ==
         if deferred then Some(Condition("UpdateDeferred", true, "PlayersConnected", generation)) else None
  }

  /** Conditions of other kinds and the sidecar's fields are left as they were. */
  ghost predicate LeavesRest(was: Status, s: Status) {
    && s.activePlayers == was.activePlayers && s.gameVersion == was.gameVersion
    && forall kind :: kind != "Ready" && kind != "UpdateDeferred" ==> Lookup(s.conditions, kind) == Lookup(was.conditions, kind)
  }

  lemma ConditionsTell(cs: seq<Condition>, rollout: Option<Rollout>, deferred: bool, generation: nat, kind: string)
    requires UniqueKinds(cs)
    ensures Lookup(ConditionsAfter(cs, rollout, deferred, generation), kind) ==
      if kind == "Ready" then Some(Condition("Ready", PhaseOf(rollout) == Running, ReasonOf(rollout), generation))
      else if kind == "UpdateDeferred" then
        if deferred then Some(Condition("UpdateDeferred", true, "PlayersConnected", generation)) else None
      else Lookup(cs, kind)
  {
    var ready := Condition(READY, PhaseOf(rollout) == Running, ReasonOf(rollout), generation);
    SetConditionEffect(cs, ready, kind);
    if deferred {
      SetConditionEffect(SetCondition(cs, ready), Condition(UPDATE_DEFERRED, true, "PlayersConnected", generation), kind);
    } else {
      RemoveConditionEffect(SetCondition(cs, ready), UPDATE_DEFERRED, kind);
    }
  }

  lemma StatusTells(was: Status, sts: Option<StatefulSet>, deferred: bool, generation: nat)
    requires UniqueKinds(was.conditions)
    ensures var s := StatusAfter(was, RolloutOf(sts), deferred, generation);
      Describes(s, sts, generation) && TellsDeferral(s, deferred, generation) && LeavesRest(was, s)
  {
    forall kind: string ensures Lookup(ConditionsAfter(was.conditions, RolloutOf(sts), deferred, generation), kind) ==
      (if kind == "Ready" then
         Some(Condition("Ready", PhaseOf(RolloutOf(sts)) == Running, ReasonOf(RolloutOf(sts)), generation))
       else if kind == "UpdateDeferred" then
         if deferred then Some(Condition("UpdateDeferred", true, "PlayersConnected", generation)) else None
       else Lookup(was.conditions, kind))
    {
      ConditionsTell(was.conditions, RolloutOf(sts), deferred, generation, kind);
    }
  }

  lemma CommitTells(w: World, at: nat, now: Instant, acknowledged: bool)
    requires Inv(w) && Callable(w, CommitStatus(at, now, acknowledged)) && IsLatest(w.servers, w.op.version)
    ensures var s := Latest(DoCommitStatus(w, at, now, acknowledged).servers);
      && s.Some? && s.value == w.op.server.(status := s.value.status)
      && Describes(s.value.status, w.sets[at], w.op.server.generation)
      && TellsDeferral(s.value.status, w.op.deferred, w.op.server.generation)
      && LeavesRest(w.op.server.status, s.value.status)
  {
    assert AllCoherent(w.servers);
    StatusTells(w.op.server.status, w.sets[at], w.op.deferred, w.op.server.generation);
  }

  /** In every run: the status a landed commit stores says Running exactly if a replica of the
      StatefulSet it read is ready, Updating exactly if none is and two revisions are reported,
      Pending exactly otherwise, with the reason that goes with it; it says whether the
      rollout was held back; and it leaves all else as it was. */
  lemma CommittedStatusTells(w: World, actions: seq<Action>, k: nat)
    requires Initial(w) && k < |actions| && actions[k].Operate? && actions[k].call.CommitStatus?
    requires |At(w, actions, k + 1).servers| > |At(w, actions, k).servers|
    ensures var u, s := At(w, actions, k), Latest(At(w, actions, k + 1).servers);
      && s.Some? && actions[k].call.at < |u.sets|
      && Describes(s.value.status, u.sets[actions[k].call.at], u.op.server.generation)
      && TellsDeferral(s.value.status, u.op.deferred, u.op.server.generation)
      && LeavesRest(u.op.server.status, s.value.status)
  {
    InitialInv(w);
    RunInv(w, actions[..k]);
    RunStep(w, actions, k);
    LandedCommitTells(At(w, actions, k), actions[k].call);
  }

  lemma LandedCommitTells(w: World, c: Call)
    requires Inv(w) && c.CommitStatus? && |Step(w, Operate(c)).servers| > |w.servers|
    ensures var s := Latest(Step(w, Operate(c)).servers);
      && s.Some? && c.at < |w.sets|
      && Describes(s.value.status, w.sets[c.at], w.op.server.generation)
      && TellsDeferral(s.value.status, w.op.deferred, w.op.server.generation)
      && LeavesRest(w.op.server.status, s.value.status)
  {
    CommitTells(w, c.at, c.now, c.acknowledged);
  }

  // ------------------------------------------------------------ the gate

  /** None of the windows denotes the hour and weekday it is in its zone. */
  predicate AllClosed(ws: seq<Window>, now: Instant) {
    forall k :: 0 <= k < |ws| ==> !OpenAt(ws[k], now)
  }

  lemma ClosedIff(windows: seq<string>, ws: seq<Window>, now: Instant)
    requires AllWellFormed(ws) && windows == WindowTexts(ws)
    ensures InAnyWindow(windows, now) <==> !AllClosed(ws, now)
  {
    WindowsMeaning(ws, now);
  }

  lemma GateStep(w: World, now: Instant)
    requires w.op.pc == AtGate
    ensures var v := Step(w, Operate(Gate(now))).op;
      && (v.deferred <==>
            && w.op.server.spec.policy.deferWhilePlaying && w.op.server.status.activePlayers > 0
            && !InAnyWindow(w.op.server.spec.policy.windows, now))
      && v.pc == if v.deferred then AtService else AtStatefulSet
  {
  }

  /** The rollout is held back exactly if the server asks for it, people play and all of its
      windows are closed. */
  lemma GateMeaning(w: World, ws: seq<Window>, now: Instant)
    requires w.op.pc == AtGate && AllWellFormed(ws) && w.op.server.spec.policy.windows == WindowTexts(ws)
    ensures var v := Step(w, Operate(Gate(now))).op;
      && (v.deferred <==>
            && w.op.server.spec.policy.deferWhilePlaying && w.op.server.status.activePlayers > 0 && AllClosed(ws, now))
      && v.pc == if v.deferred then AtService else AtStatefulSet
  {
    ClosedIff(w.op.server.spec.policy.windows, ws, now);
    GateStep(w, now);
  }

  lemma BudgetStep(w: World, now: Instant)
    requires w.op.pc == AtBudget
    ensures Step(w, Operate(EnsureBudget(w.kids.budget, now))).kids.budget ==
      if w.op.server.spec.policy.deferWhilePlaying && w.op.server.status.activePlayers > 0
         && !InAnyWindow(w.op.server.spec.policy.windows, now)
      then Some(0) else Some(1)
  {
  }

  /** Exactly then a current read closes the disruption budget, and else it opens it. */
  lemma BudgetMeaning(w: World, ws: seq<Window>, now: Instant)
    requires w.op.pc == AtBudget && AllWellFormed(ws) && w.op.server.spec.policy.windows == WindowTexts(ws)
    ensures Step(w, Operate(EnsureBudget(w.kids.budget, now))).kids.budget ==
      if w.op.server.spec.policy.deferWhilePlaying && w.op.server.status.activePlayers > 0 && AllClosed(ws, now)
      then Some(0) else Some(1)
  {
    ClosedIff(w.op.server.spec.policy.windows, ws, now);
    BudgetStep(w, now);
  }

  lemma ScheduleStep(w: World, snapshot: Snapshot, now: Instant, left: Store, deleted: bool)
    requires Callable(w, TakeSnapshot(snapshot, now, left, deleted))
    ensures var v := Step(w, Operate(TakeSnapshot(snapshot, now, left, deleted)));
      var due := w.op.server.spec.backup.enabled && InAnyWindow([w.op.server.spec.backup.schedule], now);
      && v.snapshots == (if due then left else w.snapshots)
      && v.op.pc == (if due && !deleted then Finished(Failed) else AtStatus)
  {
  }

  /** A scheduled snapshot is taken exactly if backups are enabled and the schedule, read as a
      window, is open. */
  lemma ScheduleMeaning(w: World, s: Window, snapshot: Snapshot, now: Instant, left: Store, deleted: bool)
    requires Callable(w, TakeSnapshot(snapshot, now, left, deleted))
    requires s.WellFormed() && w.op.server.spec.backup.schedule == s.Text()
    ensures var v := Step(w, Operate(TakeSnapshot(snapshot, now, left, deleted)));
      var due := w.op.server.spec.backup.enabled && OpenAt(s, now);
      && v.snapshots == (if due then left else w.snapshots)
      && v.op.pc == (if due && !deleted then Finished(Failed) else AtStatus)
  {
    OneWindow(s, now);
    ScheduleStep(w, snapshot, now, left, deleted);
  }

  lemma OneWindow(s: Window, now: Instant)
    requires s.WellFormed()
    ensures InAnyWindow([s.Text()], now) <==> OpenAt(s, now)
  {
    assert [s.Text()] == WindowTexts([s]);
    WindowsMeaning([s], now);
    assert OpenAt(s, now) ==> OpenAt([s][0], now);
  }
}
