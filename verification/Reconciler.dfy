/** The controller as a program: methods that read and write the cluster call by call, with
    everybody else moving in between, proved to be runs of the protocol. */
module Reconciler {
  import opened Api
  import opened Config
  import opened Cron
  import opened Objects
  import opened Snapshots
  import opened StatusRules
  import opened Vertical
  import opened Gauges
  import opened Protocol
  import opened Publications
  import opened Invariants
  import opened Convergence

  /** Everything outside the program's control, by the number of the call: what the others do
      before it, whether it fails, and what reads and the clock show. */
  datatype Environment = Environment(
    moves: nat -> seq<Action>, down: nat -> bool, lands: nat -> bool,
    version: nat -> nat, found: nat -> bool, secrets: nat -> Secrets, budget: nat -> Option<nat>, made: nat -> nat,
    clock: nat -> Instant, seconds: nat -> nat, snapshot: nat -> Snapshot, deletes: nat -> nat)
  {
    /** The others are not the operator. */
    ghost predicate Fair() {
      forall i, k :: 0 <= k < |moves(i)| ==> !moves(i)[k].Operate?
    }
  }

  /** Where a stretch of the program began, in the cluster and on the gauges. */
  datatype Origin = Origin(world: World, board: Board)

  /** The actions since, and the worlds and boards they led through. */
  datatype Logbook = Logbook(start: Origin, trace: seq<Action>, past: seq<World>, boards: seq<Board>)
  {
    ghost predicate Records(k: Key) {
      && Chain(past, trace) && BoardChain(boards, past, trace, k)
      && past[0] == start.world && boards[0] == start.board
    }
  }

  function NewLog(w: World, b: Board): Logbook { Logbook(Origin(w, b), [], [w], [b]) }

  /** The API server, the sidecar and the local variables of the reconcile in progress. */
  class Controller {
    const env: Environment
    const name: string
    const key: Key
    const collector: Collector
    var servers: seq<Option<Server>>
    var uids: nat
    var sets: seq<Option<StatefulSet>>
    var kids: Children
    var secrets: Secrets
    var snapshots: Store
    var op: Operator
    var seen: nat
    var sidecar: Sidecar
    var history: History
    var tick: nat

    ghost var log: Logbook

    function Now(): World
      reads this
    {
      World(name, servers, uids, sets, kids, secrets, snapshots, op, seen, sidecar, history)
    }

    ghost predicate Valid()
      reads this
    {
      |servers| > 0 && |sets| > 0 && seen < |servers| && Named(snapshots)
    }

    /** What the program has done to the cluster and the gauges is a run of the protocol. */
    ghost predicate Ready()
      reads this, collector
    {
      && Valid() && env.Fair() && log.Records(key)
      && Now() == log.past[|log.trace|] && collector.Shown() == log.boards[|log.trace|]
    }

    constructor (env: Environment, w: World, key: Key)
      requires env.Fair() && |w.servers| > 0 && |w.sets| > 0 && w.seen < |w.servers| && Named(w.snapshots)
      ensures Ready() && Now() == w && this.env == env && this.key == key && collector.Shown() == BLANK
      ensures fresh(collector) && log == NewLog(w, BLANK)
    {
      this.env, this.key, name, servers, uids, sets, kids := env, key, w.name, w.servers, w.uids, w.sets, w.kids;
      secrets, snapshots, op, seen, sidecar, history := w.secrets, w.snapshots, w.op, w.seen, w.sidecar, w.history;
      collector := new Collector();
      tick, log := 0, NewLog(w, BLANK);
    }

    // ---------------------------------------------------------- the credentials

    method ReconcileCredentials(found: bool, shown: Secrets) returns (ok: bool)
      requires Valid() && op.pc == AtCredentials
      modifies this`op, this`secrets
      ensures Valid() && Now() == DoCredentials(old(Now()), found, shown)
      ensures ok <==> op.pc == AtClaim
    {
      var missed := op.server.spec.groups == [] && !found && ConfigSecretName(name) in secrets;
      var after, creds := PutCredentials(name, op.server.spec, shown, secrets, found);
      secrets := after;
      op := op.(observed := shown, hash := HashIn(creds), missedConfig := missed, pc := AfterCredentials(creds));
      ok := creds.Annotated?;
    }

    /** `setPhaseError`: the outcome of the write is ignored. */
    method SetPhaseError(lands: bool)
      requires Valid() && op.pc == AtPhaseError
      modifies this`op, this`servers, this`history
      ensures Valid() && Now() == DoPhaseError(old(Now()), lands)
    {
      var server := op.server.(status := op.server.status.(phase := Error));
      if lands && IsLatest(servers, op.version) {
        servers := servers + [Some(server)];
        history := history.(verdict := VerdictOf(server.status));
      }
      op := op.(pc := Finished(Failed));
    }

    // ---------------------------------------------------------- claim, budget, scaling

    method ReconcilePvc(found: bool) returns (ok: bool)
      requires Valid() && op.pc == AtClaim
      modifies this`op, this`kids
      ensures Valid() && Now() == DoEnsureClaim(old(Now()), found)
      ensures ok <==> op.pc == AtAccess
    {
      ok := true;
      if !found {
        var size := op.server.spec.storage.size;
        if size == 0 { size := TEN_GIB; }
        if kids.claim.Some? {
          ok := false;
        } else {
          kids := kids.(claim := Some(Claim(LabelsOf(name), size, op.server.spec.storage.className, false)));
        }
      }
      op := op.(pc := if ok then AtAccess else Finished(Failed));
    }

    /** Service account, role and binding; `made` of the calls work. */
    method ReconcileMetricsSidecarRbac(made: nat) returns (ok: bool)
      requires Valid() && op.pc == AtAccess
      modifies this`op, this`kids
      ensures Valid() && Now() == DoEnsureAccess(old(Now()), made)
      ensures ok <==> op.pc == AtBudget
    {
      ok := true;
      if op.server.spec.sidecar.enabled {
        var access;
        ok, access := PutAccess(kids.access, made);
        kids := kids.(access := access);
      }
      op := op.(pc := if ok then AtBudget else Finished(Failed));
    }

    method ReconcilePdb(saw: Option<nat>, now: Instant) returns (ok: bool)
      requires Valid() && op.pc == AtBudget
      modifies this`op, this`kids
      ensures Valid() && Now() == DoEnsureBudget(old(Now()), saw, now)
      ensures ok <==> op.pc == AtVpa
    {
      var inWindow := IsInMaintenanceWindow(op.server.spec.policy.windows, now);
      var want := MaxUnavailable(op.server, inWindow);
      var missed := saw != kids.budget && kids.budget != Some(want);
      var after;
      ok, after := PutBudget(kids.budget, saw, want);
      kids := kids.(budget := after);
      op := op.(budgetWindow := inWindow, missedBudget := missed, pc := if ok then AtVpa else Finished(Failed));
    }

    method ReconcileVpa(installed: bool)
      requires Valid() && op.pc == AtVpa
      modifies this`op, this`kids
      ensures Valid() && Now() == DoEnsureVpa(old(Now()), installed)
    {
      var vpa := PutVpa(op.server.spec.scaling, kids.vpa);
      kids := if installed then kids.(vpa := vpa) else kids;
      op := op.(pc := AtScaling);
    }

    /** Applies the recommendation to the StatefulSet as read in version `at`. */
    method ApplyVpaRecommendation(at: nat) returns (ok: bool)
      requires Valid() && op.pc == AtScaling && at < |sets|
      modifies this`op, this`sets
      ensures Valid() && Now() == DoApplyRecommendation(old(Now()), at)
      ensures ok <==> op.pc == AtPolicy
    {
      var advice := Advice(op.server.spec.scaling, kids.vpa);
      var after;
      ok, after := UpdateRequests(sets, at, advice, op.server.status.activePlayers > 0);
      sets := after;
      op := op.(pc := if ok then AtPolicy else Finished(Failed));
    }

    // ---------------------------------------------------------- policy, gate

    method ReconcileNetworkPolicy()
      requires Valid() && op.pc == AtPolicy
      modifies this`op, this`kids
      ensures Valid() && Now() == DoEnsurePolicy(old(Now()))
    {
      kids := kids.(policy := Some(BuildNetworkPolicy(name, op.server.spec)));
      op := op.(pc := AtGate);
    }

    method CheckDeferral(now: Instant)
      requires Valid() && op.pc == AtGate
      modifies this`op
      ensures Valid() && Now() == DoGate(old(Now()), now)
    {
      var policy := op.server.spec.policy;
      var updateDeferred := false;
      var inWindow := IsInMaintenanceWindow(policy.windows, now);
      if policy.deferWhilePlaying && op.server.status.activePlayers > 0 {
        if !inWindow {
          updateDeferred := true;
        }
      }
      op := op.(gateWindow := inWindow, deferred := updateDeferred,
                pc := if updateDeferred then AtService else AtStatefulSet);
    }

    // ---------------------------------------------------------- the resource

    /** Reads the resource in version `at` and decides what to do first. */
    method GetServer(at: nat) returns (found: bool)
      requires Valid() && op.pc.Finished? && seen <= at < |servers|
      modifies this`op, this`seen
      ensures Valid() && Now() == DoRead(old(Now()), at)
      ensures found <==> servers[at].Some?
    {
      seen := at;
      found := servers[at].Some?;
      op := if found then Start(at, servers[at].value) else op.(pc := Finished(Succeeded), committed := false);
    }

    method PersistFinalizer() returns (ok: bool)
      requires Valid() && op.pc == AtFinalizer
      modifies this`op, this`servers
      ensures Valid() && Now() == DoAddFinalizer(old(Now()))
      ensures ok <==> op.pc == AtCredentials
    {
      var server := op.server.(finalizers := op.server.finalizers + {FINALIZER});
      ok := IsLatest(servers, op.version);
      var pc := if ok then AtCredentials else Finished(Failed);
      op := op.(server := server, version := |servers|, pc := pc);
      servers := if ok then servers + [Some(server)] else servers;
    }

    method DeletePvc(found: bool)
      requires Valid() && op.pc == AtClaimDelete
      modifies this`op, this`kids
      ensures Valid() && Now() == DoDeleteClaim(old(Now()), found)
    {
      op := op.(missedClaim := !found && kids.claim.Some? && !kids.claim.value.terminating, pc := AtUnguard);
      if found {
        if kids.claim.Some? {
          kids := kids.(claim := Some(kids.claim.value.(terminating := true)));
        }
      }
    }

    /** Drops the finalizer and, if the reply arrives, deletes the server's metrics. */
    method DropFinalizer(acknowledged: bool) returns (ok: bool)
      requires Valid() && op.pc == AtUnguard
      modifies this`op, this`servers, collector
      ensures Valid() && Now() == DoRemoveFinalizer(old(Now()), acknowledged)
      ensures collector.Shown() ==
        After(old(collector.Shown()), Emitted(old(Now()), key, Operate(RemoveFinalizer(acknowledged))))
    {
      UnguardEmits(Now(), key, acknowledged);
      var latest, server := IsLatest(servers, op.version), op.server;
      ok := latest && acknowledged;
      op := op.(pc := Finished(if ok then Succeeded else Failed));
      var rest := server.finalizers - {FINALIZER};
      var next := if rest == {} then None else Some(server.(finalizers := rest));
      servers := if latest then servers + [next] else servers;
      if ok {
        collector.DeleteServerMetrics(key, server.status.phase);
      }
    }

    // ---------------------------------------------------------- StatefulSet, Service, status

    /** The first half of `reconcileStatefulSet`: read, then create or decide about a snapshot. */
    method GetStatefulSet(at: nat)
      requires Valid() && op.pc == AtStatefulSet && at < |sets|
      modifies this`op, this`sets
      ensures Valid() && Now() == DoReadStatefulSet(old(Now()), at)
    {
      var desired := BuildStatefulSet(name, op.server.spec, op.hash);
      var created, pc := false, AtRollout;
      if sets[at].None? {
        created := Latest(sets).None?;
        pc := if created then AtService else Finished(Failed);
      } else {
        var snapshot := NeedsSnapshot(op.server.spec.policy.strategy, sets[at].value, desired);
        if snapshot {
          pc := AtSnapshot;
        }
      }
      sets := if created then sets + [Some(desired)] else sets;
      op := op.(base := at, evidence := None, applied := created, pc := pc);
    }

    /** The second half: overwrite the mutable fields of what was read. */
    method WriteStatefulSet()
      requires Valid() && op.pc == AtRollout
      modifies this`op, this`sets
      ensures Valid() && Now() == DoUpdateStatefulSet(old(Now()))
    {
      var desired := BuildStatefulSet(name, op.server.spec, op.hash);
      if IsLatest(sets, op.base) && Latest(sets).Some? {
        sets := sets + [Some(Latest(sets).value.(template := desired.template, replicas := 1))];
        op := op.(applied := true, pc := AtService);
      } else {
        op := op.(applied := false, pc := Finished(Failed));
      }
    }

    method ReconcileService()
      requires Valid() && op.pc == AtService
      modifies this`op, this`kids
      ensures Valid() && Now() == DoEnsureService(old(Now()))
    {
      kids := kids.(service := Some(BuildService(name, op.server.spec)));
      op := op.(pc := AtSchedule);
    }

    /** Takes a scheduled snapshot if one is due, and prunes; of the deletes, the one numbered
        `failAt` fails. */
    method ReconcileVolumeSnapshot(snapshot: Snapshot, now: Instant, failAt: nat) returns (left: Store, ok: bool)
      requires Valid() && op.pc == AtSchedule
      modifies this`op, this`snapshots
      ensures Valid() && Now() == DoTakeSnapshot(old(Now()), now, left, ok)
      ensures OnlyOwnGone(WithSnapshot(old(snapshots), name, snapshot), left, name)
      ensures Due(op.server.spec, now) ==>
        var retain := op.server.spec.backup.retainCount;
        PrunedTo(WithSnapshot(old(snapshots), name, snapshot), snapshots, name, if retain == 0 then 3 else retain, ok)
    {
      var backup := op.server.spec.backup;
      left, ok := WithSnapshot(snapshots, name, snapshot), true;
      var due := false;
      if backup.enabled {
        due := IsInMaintenanceWindow([backup.schedule], now);
      }
      if due {
        var retain := backup.retainCount;
        if retain == 0 { retain := 3; }
        left, ok := Prune(left, name, retain, failAt);
        snapshots := left;
      }
      op := op.(pc := if ok then AtStatus else Finished(Failed));
    }

    /** Commits the status and, if the reply arrives, publishes it. */
    method UpdateStatus(at: nat, now: Instant, acknowledged: bool)
      requires Valid() && op.pc == AtStatus && at < |sets|
      modifies this`op, this`servers, this`history, collector
      ensures Valid() && Now() == DoCommitStatus(old(Now()), at, now, acknowledged)
      ensures collector.Shown() ==
        After(old(collector.Shown()), Emitted(old(Now()), key, Operate(CommitStatus(at, now, acknowledged))))
    {
      CommitEmits(Now(), key, at, now, acknowledged);
      var oldPhase := op.server.status.phase;
      var maintenanceWindowActive := IsInMaintenanceWindow(op.server.spec.policy.windows, now);
      var status := DeriveStatus(op.server.status, RolloutOf(sets[at]), op.deferred, op.server.generation);
      var ok := IsLatest(servers, op.version);
      WriteStatus(status, maintenanceWindowActive, ok, acknowledged);
      PublishStatus(status, oldPhase, maintenanceWindowActive, ok && acknowledged);
    }

    method PublishStatus(status: Status, oldPhase: Phase, windowActive: bool, ok: bool)
      modifies collector
      ensures collector.Shown() == After(old(collector.Shown()),
        if ok then Some(Publish(key, status.readyReplicas, status.updateDeferred, status.phase, oldPhase, windowActive))
        else None)
    {
      if ok {
        collector.SetServerMetrics(key, status.readyReplicas, status.updateDeferred, status.phase, oldPhase, windowActive);
      }
    }

    method WriteStatus(status: Status, windowActive: bool, ok: bool, acknowledged: bool)
      requires Valid() && op.pc == AtStatus && ok == IsLatest(servers, op.version)
      modifies this`op, this`servers, this`history
      ensures Valid()
      ensures servers == if ok then old(servers) + [Some(old(op).server.(status := status))] else old(servers)
      ensures history == old(history).(verdict := if ok then VerdictOf(status) else old(history).verdict)
      ensures op == old(op).(statusWindow := windowActive, committed := ok && acknowledged,
                             pc := Finished(if !ok || !acknowledged then Failed
                                            else if old(op).deferred then Requeue else Succeeded))
    {
      if ok {
        servers := servers + [Some(op.server.(status := status))];
        history := history.(verdict := VerdictOf(status));
      }
      var result := Succeeded;
      if !ok || !acknowledged {
        result := Failed;
      } else if op.deferred {
        result := Requeue;
      }
      op := op.(statusWindow := windowActive, committed := ok && acknowledged, pc := Finished(result));
    }

    // ---------------------------------------------------------- the pre-update snapshot

    method CreatePreUpdateSnapshot(snapshot: Snapshot)
      requires Valid() && op.pc == AtSnapshot
      modifies this`op, this`snapshots
      ensures Valid() && Now() == DoCreateSnapshot(old(Now()), snapshot)
    {
      if snapshot.name !in snapshots {
        snapshots := snapshots[snapshot.name := snapshot.(server := name, ready := false, error := "")];
      }
      op := op.(snapshot := snapshot.name, pc := AtPoll);
    }

    /** A problem blocks the update in strict mode only. */
    method SnapshotFailed()
      requires Valid() && (op.pc == AtSnapshot || op.pc == AtPoll)
      modifies this`op
      ensures Valid() && Now() == DoSnapshotTrouble(old(Now()))
    {
      var strict := op.server.spec.policy.strategy == StrictSnapshotBeforeUpdate;
      op := op.(pc := if strict then Finished(Failed) else AtRollout);
    }

    method PollPreUpdateSnapshot()
      requires Valid() && op.pc == AtPoll
      modifies this`op
      ensures Valid() && Now() == DoPollSnapshot(old(Now()))
    {
      var strict := op.server.spec.policy.strategy == StrictSnapshotBeforeUpdate;
      var current := if op.snapshot in snapshots then Some(snapshots[op.snapshot]) else None;
      var pc := AtPoll;
      if current.None? || current.value.error != "" {
        pc := if strict then Finished(Failed) else AtRollout;
      } else if current.value.ready {
        pc := AtRollout;
      }
      op := op.(evidence := current, pc := pc);
    }

    // ---------------------------------------------------------- calls in sequence

    /** Records a call that publishes nothing. */
    ghost method Log(before: World, c: Call)
      requires Valid() && env.Fair() && log.Records(key) && !c.CommitStatus? && !c.RemoveFinalizer?
      requires log.past[|log.trace|] == before && collector.Shown() == log.boards[|log.trace|]
      requires Callable(before, c) && Now() == Operated(before, c)
      modifies this`log
      ensures Ready() && log.start == old(log.start)
    {
      assert Emitted(before, key, Operate(c)).None?;
      LogPublished(before, c);
    }

    /** Records a call with what it publishes. */
    ghost method LogPublished(before: World, c: Call)
      requires Valid() && env.Fair() && log.Records(key) && log.past[|log.trace|] == before
      requires Callable(before, c) && Now() == Operated(before, c)
      requires collector.Shown() == After(log.boards[|log.trace|], Emitted(before, key, Operate(c)))
      modifies this`log
      ensures Ready() && log.start == old(log.start)
    {
      log := Logbook(log.start, log.trace + [Operate(c)], log.past + [Now()], log.boards + [collector.Shown()]);
    }

    method Become(w: World)
      requires w.name == name
      modifies this
      ensures Now() == w && tick == old(tick) && log == old(log)
    {
      servers, uids, sets, kids, secrets := w.servers, w.uids, w.sets, w.kids, w.secrets;
      snapshots, op, seen, sidecar, history := w.snapshots, w.op, w.seen, w.sidecar, w.history;
    }

    /** Lets the others move. */
    method Interfere()
      requires Ready()
      modifies this
      ensures Ready() && op == old(op) && log.start == old(log.start)
    {
      var moves := env.moves(tick);
      tick := tick + 1;
      for i := 0 to |moves|
        invariant Ready() && op == old(op) && log.start == old(log.start)
      {
        OthersGrow(Now(), moves[i]);
        Become(Step(Now(), moves[i]));
        log := Logbook(log.start, log.trace + [moves[i]], log.past + [Now()], log.boards + [collector.Shown()]);
      }
    }

    /** A call fails, and with it the reconcile. */
    method Abort()
      requires Ready() && !op.pc.Finished?
      modifies this`op, this`log
      ensures Ready() && op == old(op).(pc := Finished(Failed)) && log.start == old(log.start)
    {
      ghost var before := Now();
      op := op.(pc := Finished(Failed));
      assert Now() == Fail(before);
      Log(before, GiveUp);
    }

    /** What happens between two calls: the others move, and the next call may be refused. */
    method Await() returns (up: bool)
      requires Ready() && !op.pc.Finished?
      modifies this
      ensures Ready() && log.start == old(log.start)
      ensures op == if up then old(op) else old(op).(pc := Finished(Failed))
    {
      Interfere();
      up := !env.down(tick);
      if !up {
        Abort();
      }
    }

    // ---------------------------------------------------------- the reconcile

    /** Some version of the StatefulSet that is or was there. */
    function SetVersion(): (at: nat)
      reads this
      requires Valid()
      ensures at < |sets|
    {
      if env.version(tick) < |sets| then env.version(tick) else |sets| - 1
    }

    /** A version of the resource no older than the last one read. */
    function ServerVersion(): (at: nat)
      reads this
      requires Valid()
      ensures seen <= at < |servers|
    {
      if seen <= env.version(tick) < |servers| then env.version(tick) else |servers| - 1
    }

    // ---------------------------------------------------------- each call, with what the environment makes of it

    method StageFinalizer()
      requires Ready() && op.pc == AtFinalizer
      modifies this
      ensures Ready() && log.start == old(log.start) && (op.pc == AtCredentials || op.pc == Finished(Failed))
    {
      ghost var before := Now();
      var _ := PersistFinalizer();
      Log(before, AddFinalizer);
    }

    method StageCredentials()
      requires Ready() && op.pc == AtCredentials
      modifies this
      ensures Ready() && log.start == old(log.start) && (op.pc == AtClaim || op.pc == AtPhaseError || op.pc == Finished(Failed))
    {
      ghost var before := Now();
      var _ := ReconcileCredentials(env.found(tick), env.secrets(tick));
      Log(before, Credentials(env.found(tick), env.secrets(tick)));
    }

    method StagePhaseError()
      requires Ready() && op.pc == AtPhaseError
      modifies this
      ensures Ready() && log.start == old(log.start) && (op.pc == Finished(Failed))
    {
      ghost var before := Now();
      SetPhaseError(env.lands(tick));
      Log(before, PhaseError(env.lands(tick)));
    }

    method StagePvc()
      requires Ready() && op.pc == AtClaim
      modifies this
      ensures Ready() && log.start == old(log.start) && (op.pc == AtAccess || op.pc == Finished(Failed))
    {
      ghost var before := Now();
      var _ := ReconcilePvc(env.found(tick));
      Log(before, EnsureClaim(env.found(tick)));
    }

    method StageRbac()
      requires Ready() && op.pc == AtAccess
      modifies this
      ensures Ready() && log.start == old(log.start) && (op.pc == AtBudget || op.pc == Finished(Failed))
    {
      ghost var before := Now();
      var _ := ReconcileMetricsSidecarRbac(env.made(tick));
      Log(before, EnsureAccess(env.made(tick)));
    }

    method StagePdb()
      requires Ready() && op.pc == AtBudget
      modifies this
      ensures Ready() && log.start == old(log.start) && (op.pc == AtVpa || op.pc == Finished(Failed))
    {
      ghost var before := Now();
      var _ := ReconcilePdb(env.budget(tick), env.clock(tick));
      Log(before, EnsureBudget(env.budget(tick), env.clock(tick)));
    }

    method StageVpa()
      requires Ready() && op.pc == AtVpa
      modifies this
      ensures Ready() && log.start == old(log.start) && (op.pc == AtScaling)
    {
      ghost var before := Now();
      ReconcileVpa(env.found(tick));
      Log(before, EnsureVpa(env.found(tick)));
    }

    method StageScaling()
      requires Ready() && op.pc == AtScaling
      modifies this
      ensures Ready() && log.start == old(log.start) && (op.pc == AtPolicy || op.pc == Finished(Failed))
    {
      ghost var before := Now();
      var at := SetVersion();
      var _ := ApplyVpaRecommendation(at);
      Log(before, ApplyRecommendation(at));
    }

    method StagePolicy()
      requires Ready() && op.pc == AtPolicy
      modifies this
      ensures Ready() && log.start == old(log.start) && op.pc == AtGate
    {
      ghost var before := Now();
      ReconcileNetworkPolicy();
      Log(before, EnsurePolicy);
    }

    method StageGate()
      requires Ready() && op.pc == AtGate
      modifies this
      ensures Ready() && log.start == old(log.start) && (op.pc == AtService || op.pc == AtStatefulSet)
    {
      ghost var before := Now();
      CheckDeferral(env.clock(tick));
      Log(before, Gate(env.clock(tick)));
    }

    method StageStatefulSet()
      requires Ready() && op.pc == AtStatefulSet
      modifies this
      ensures Ready() && log.start == old(log.start) && (op.pc == AtService || op.pc == AtSnapshot || op.pc == AtRollout || op.pc == Finished(Failed))
    {
      ghost var before := Now();
      var at := SetVersion();
      GetStatefulSet(at);
      Log(before, ReadStatefulSet(at));
    }

    method StageRollout()
      requires Ready() && op.pc == AtRollout
      modifies this
      ensures Ready() && log.start == old(log.start) && (op.pc == AtService || op.pc == Finished(Failed))
    {
      ghost var before := Now();
      WriteStatefulSet();
      Log(before, UpdateStatefulSet);
    }

    method StageService()
      requires Ready() && op.pc == AtService
      modifies this
      ensures Ready() && log.start == old(log.start) && (op.pc == AtSchedule)
    {
      ghost var before := Now();
      ReconcileService();
      Log(before, EnsureService);
    }

    method StageSchedule()
      requires Ready() && op.pc == AtSchedule
      modifies this
      ensures Ready() && log.start == old(log.start) && (op.pc == AtStatus || op.pc == Finished(Failed))
    {
      ghost var before := Now();
      var left, ok := ReconcileVolumeSnapshot(env.snapshot(tick), env.clock(tick), env.deletes(tick));
      Log(before, TakeSnapshot(env.snapshot(tick), env.clock(tick), left, ok));
    }

    method StageStatus()
      requires Ready() && op.pc == AtStatus
      modifies this, collector
      ensures Ready() && log.start == old(log.start) && (op.pc.Finished? && (op.committed || op.pc == Finished(Failed)))
    {
      ghost var before := Now();
      var at := SetVersion();
      UpdateStatus(at, env.clock(tick), env.lands(tick));
      LogPublished(before, CommitStatus(at, env.clock(tick), env.lands(tick)));
    }

    method StageSnapshot()
      requires Ready() && op.pc == AtSnapshot
      modifies this
      ensures Ready() && log.start == old(log.start) && (op.pc == AtPoll && op.server == old(op.server))
    {
      ghost var before := Now();
      CreatePreUpdateSnapshot(env.snapshot(tick));
      Log(before, CreateSnapshot(env.snapshot(tick)));
    }

    method StagePoll()
      requires Ready() && op.pc == AtPoll
      modifies this
      ensures Ready() && log.start == old(log.start) && (Polled(Now()) && op.server == old(op.server))
    {
      ghost var before := Now();
      PollPreUpdateSnapshot();
      Log(before, PollSnapshot);
    }

    method StageClaimDelete()
      requires Ready() && op.pc == AtClaimDelete
      modifies this
      ensures Ready() && log.start == old(log.start) && (op.pc == AtUnguard && op.server == old(op.server))
    {
      ghost var before := Now();
      DeletePvc(env.found(tick));
      Log(before, DeleteClaim(env.found(tick)));
    }

    method StageUnguard()
      requires Ready() && op.pc == AtUnguard
      modifies this, collector
      ensures Ready() && log.start == old(log.start) && (op.pc.Finished? && op.server == old(op.server))
    {
      ghost var before := Now();
      var _ := DropFinalizer(env.lands(tick));
      LogPublished(before, RemoveFinalizer(env.lands(tick)));
    }

    method StageTrouble()
      requires Ready() && (op.pc == AtSnapshot || op.pc == AtPoll)
      modifies this
      ensures Ready() && log.start == old(log.start) && op.server == old(op.server)
      ensures op.pc == if Strict(Now()) then Finished(Failed) else AtRollout
    {
      ghost var before := Now();
      SnapshotFailed();
      Log(before, SnapshotTrouble);
    }

    method StageRead() returns (found: bool)
      requires Ready() && op.pc.Finished?
      modifies this
      ensures Ready() && log.start == old(log.start) && (found ==> op.pc == Start(op.version, op.server).pc)
      ensures !found ==> op.pc == Finished(Succeeded) && servers[seen].None?
      ensures Progress(Now())
    {
      ghost var before := Now();
      var at := ServerVersion();
      found := GetServer(at);
      ReadProgress(before, at);
      Log(before, Read(at));
    }

    // ---------------------------------------------------------- the reconcile

    /** Claim, access, disruption budget and autoscaler. */
    method ReconcileChildren()
      requires Ready() && op.pc == AtClaim
      modifies this
      ensures Ready() && log.start == old(log.start) && (op.pc == AtScaling || op.pc == Finished(Failed))
    {
      var up := Await();
      if !up { return; }
      StagePvc();
      if op.pc.Finished? { return; }
      up := Await();
      if !up { return; }
      StageRbac();
      if op.pc.Finished? { return; }
      up := Await();
      if !up { return; }
      StagePdb();
      if op.pc.Finished? { return; }
      up := Await();
      if !up { return; }
      StageVpa();
    }

    /** Recommendations, network policy, and whether to hold the rollout back. */
    method ScaleAndGate()
      requires Ready() && op.pc == AtScaling
      modifies this
      ensures Ready() && log.start == old(log.start) && (op.pc == AtService || op.pc == AtStatefulSet || op.pc == Finished(Failed))
    {
      var up := Await();
      if !up { return; }
      StageScaling();
      if op.pc.Finished? { return; }
      up := Await();
      if !up { return; }
      StagePolicy();
      up := Await();
      if !up { return; }
      StageGate();
    }

    /** Creates the snapshot and polls it every ten seconds until it is ready, broken or three
        minutes have passed; whatever goes wrong stops a strict reconcile only. */
    method SnapshotBeforeUpdate() returns (polls: nat)
      requires Ready() && op.pc == AtSnapshot
      modifies this
      ensures Ready() && log.start == old(log.start) && op.server == old(op.server) && polls <= 18
      ensures !Strict(Now()) ==> op.pc == AtRollout
      ensures Strict(Now()) ==> op.pc == Finished(Failed) || (op.pc == AtRollout && Proven(op.evidence))
    {
      polls := 0;
      Interfere();
      if env.down(tick) {
        StageTrouble();
        return;
      }
      StageSnapshot();
      var now := env.seconds(tick);
      var deadline := now + TIMEOUT_SECONDS;
      while op.pc == AtPoll && now < deadline
        invariant Ready() && log.start == old(log.start) && op.server == old(op.server)
        invariant Polled(Now()) && polls <= 18
        invariant op.pc == AtPoll ==> deadline - TIMEOUT_SECONDS + POLL_SECONDS * polls <= now
        decreases if op.pc == AtPoll then deadline - now else 0
      {
        Interfere();
        if env.down(tick) {
          StageTrouble();
        } else {
          StagePoll();
        }
        polls := polls + 1;
        now := now + POLL_SECONDS + env.seconds(tick);
      }
      if op.pc == AtPoll {
        StageTrouble();
      }
    }

    method ReconcileStatefulSet()
      requires Ready() && op.pc == AtStatefulSet
      modifies this
      ensures Ready() && log.start == old(log.start) && (op.pc == AtService || op.pc == Finished(Failed))
    {
      var up := Await();
      if !up { return; }
      StageStatefulSet();
      if op.pc == AtSnapshot {
        var _ := SnapshotBeforeUpdate();
      }
      if op.pc == AtRollout {
        up := Await();
        if !up { return; }
        StageRollout();
      }
    }

    method HandleDeletion()
      requires Ready() && (op.pc == AtClaimDelete || op.pc == AtUnguard)
      modifies this, collector
      ensures Ready() && log.start == old(log.start) && op.pc.Finished? && op.server == old(op.server)
    {
      var up := Await();
      if !up { return; }
      if op.pc == AtClaimDelete {
        StageClaimDelete();
        up := Await();
        if !up { return; }
      }
      StageUnguard();
    }

    /** Finalizer and credentials. */
    method Prepare()
      requires Ready() && (op.pc == AtFinalizer || op.pc == AtCredentials)
      modifies this
      ensures Ready() && log.start == old(log.start) && (op.pc == AtClaim || op.pc == Finished(Failed))
    {
      var up := Await();
      if !up { return; }
      if op.pc == AtFinalizer {
        StageFinalizer();
        if op.pc.Finished? { return; }
        up := Await();
        if !up { return; }
      }
      StageCredentials();
      if op.pc == AtPhaseError {
        up := Await();
        if !up { return; }
        StagePhaseError();
      }
    }

    /** Service, scheduled snapshot and status, deferred or not. */
    method Conclude()
      requires Ready() && op.pc == AtService
      modifies this, collector
      ensures Ready() && log.start == old(log.start) && op.pc.Finished? && (op.committed || op.pc == Finished(Failed))
    {
      var up := Await();
      if !up { return; }
      StageService();
      up := Await();
      if !up { return; }
      StageSchedule();
      if op.pc.Finished? { return; }
      up := Await();
      if !up { return; }
      StageStatus();
    }

    /** Everything after the read of the resource. */
    method Proceed()
      requires Ready() && !op.pc.Finished? && op.pc == Start(op.version, op.server).pc
      modifies this, collector
      ensures Ready() && log.start == old(log.start) && op.pc.Finished?
      ensures op.pc == Finished(Failed) || op.committed || op.server.deleting
    {
      if op.server.deleting {
        HandleDeletion();
        return;
      }
      Prepare();
      if op.pc.Finished? { return; }
      ReconcileChildren();
      if op.pc.Finished? { return; }
      ScaleAndGate();
      if op.pc == AtStatefulSet {
        ReconcileStatefulSet();
      }
      if op.pc == AtService {
        Conclude();
      }
    }

    /** A new page of the log. */
    ghost method Restart()
      requires Ready()
      modifies this`log
      ensures Ready() && log == NewLog(Now(), collector.Shown())
    {
      log := NewLog(Now(), collector.Shown());
    }

    /** Lets the others move and reads the resource; the log then begins at that read. */
    method Begin() returns (ghost lead: seq<Action>)
      requires Ready() && op.pc.Finished?
      modifies this
      ensures Ready() && log == NewLog(Now(), collector.Shown()) && Progress(Now())
      ensures Now() == Run(old(Now()), lead)
      ensures !op.pc.Finished? ==> op.pc == Start(op.version, op.server).pc
      ensures op.pc.Finished? ==> op.pc == Finished(Succeeded) && (servers[seen].None? || op.server.deleting)
    {
      Restart();
      Interfere();
      var found := StageRead();
      lead := log.trace;
      ChainIsRun(log.past, log.trace);
      Restart();
    }

    /** One reconcile, whatever fails and whoever interferes.  Up to its read (`lead`) and from
        there on (the log) what it does is a run of the protocol, so it keeps the protocol's
        invariant, and the gauges follow.  If it succeeds and nobody has taken its children away
        since that read, what it manages is as wanted, exactly unless a read was stale. */
    method Reconcile() returns (result: Result, ghost lead: seq<Action>)
      requires Ready() && op.pc.Finished?
      modifies this, collector
      ensures Ready() && op.pc == Finished(result)
      ensures result == Failed || op.committed || servers[seen].None? || op.server.deleting
      ensures log.start.world == Run(old(Now()), lead) && Now() == Run(log.start.world, log.trace)
      ensures collector.Shown() == BoardsFrom(old(collector.Shown()), Calls(log.start.world, key, log.trace))
      ensures Inv(old(Now())) ==> Inv(Now())
      ensures result == Succeeded && op.committed && AllBenign(name, log.trace) ==>
        (ManagedBy(Now()) == Wanted(name, op.server.spec, op.observed, Holds(op.server, op.budgetWindow))
         <==> !op.missedBudget && !op.missedConfig)
    {
      ghost var was := Now();
      lead := Begin();
      ghost var origin := Now();
      if !op.pc.Finished? {
        Proceed();
      }
      result := op.pc.result;
      ChainIsRun(log.past, log.trace);
      BoardChainIsCalls(log.boards, log.past, log.trace, key);
      RunsKeep(was, lead, origin, log.trace, Now());
    }
  }

  /** What holds of a reconcile because it is a run. */
  lemma RunsKeep(w: World, lead: seq<Action>, u: World, actions: seq<Action>, v: World)
    requires u == Run(w, lead) && v == Run(u, actions)
    ensures Inv(w) ==> Inv(v)
    ensures Progress(u) && AllBenign(u.name, actions) && v.op.pc == Finished(Succeeded) && v.op.committed ==>
      (ManagedBy(v) == Wanted(v.name, v.op.server.spec, v.op.observed, Holds(v.op.server, v.op.budgetWindow))
       <==> !v.op.missedBudget && !v.op.missedConfig)
  {
    if Inv(w) {
      RunInv(w, lead);
      RunInv(u, actions);
    }
    if Progress(u) && AllBenign(u.name, actions) && v.op.pc == Finished(Succeeded) && v.op.committed {
      RunProgress(u, actions);
      ProgressConverges(v);
    }
  }

  /** Still polling, given up, or on to the rollout; in strict mode only with a proven snapshot. */
  predicate Polled(w: World) {
    if Strict(w) then
      w.op.pc == AtPoll || w.op.pc == Finished(Failed) || (w.op.pc == AtRollout && Proven(w.op.evidence))
    else
      w.op.pc == AtPoll || w.op.pc == AtRollout
  }

  // ------------------------------------------------------------ parts of the calls

  /** The Secrets after the call, and the annotation hash or what is missing. */
  method PutCredentials(name: string, spec: Spec, shown: Secrets, stored: Secrets, found: bool)
    returns (after: Secrets, creds: Credentials)
    ensures creds == CredentialsOf(spec, shown)
    ensures after == SecretsAfter(name, spec, shown, stored, found)
  {
    after := stored;
    if spec.groups != [] {
      var built := BuildServerConfig(spec, shown);
      if built.None? {
        return after, Unresolvable;
      }
      after := after[ConfigSecretName(name) := map[CONFIG_KEY := Json(built.value)]];
      return after, Annotated(Some(ConfigDigest(built.value)));
    }
    if found {
      after := after - {ConfigSecretName(name)};
    }
    if spec.password.None? {
      return after, Annotated(None);
    }
    var ref := spec.password.value;
    if ref.name !in shown {
      return after, PasswordMissing;
    }
    if ref.key !in shown[ref.name] {
      return after, PasswordMissing;
    }
    return after, Annotated(Some(PasswordDigest(shown[ref.name][ref.key])));
  }

  /** One object after the other, until a call fails. */
  method PutAccess(stored: set<Access>, made: nat) returns (ok: bool, after: set<Access>)
    ensures after == stored + Granted(made) && (ok <==> made >= 3)
  {
    after := stored;
    var wanted := [Account, Role, Binding];
    var i := 0;
    while i < 3 && i < made
      invariant 0 <= i <= 3 && i <= made && after == stored + Granted(i)
    {
      after := after + {wanted[i]};
      i := i + 1;
    }
    ok := i == 3;
  }

  method MaxUnavailable(server: Server, inWindow: bool) returns (n: nat)
    ensures n == BudgetFor(server, inWindow)
  {
    n := 1;
    if server.spec.policy.deferWhilePlaying && server.status.activePlayers > 0 && !inWindow {
      n := 0;
    }
  }

  /** Creates the object, switches its mode, or removes it. */
  method PutVpa(scaling: VerticalScaling, stored: Option<Vpa>) returns (after: Option<Vpa>)
    ensures after == VpaFor(scaling, stored)
  {
    after := stored;
    if !scaling.enabled {
      return None;
    }
    var inPlace := scaling.mode == InPlace;
    if stored.None? {
      after := Some(Vpa(inPlace, []));
    } else if stored.value.inPlace != inPlace {
      after := Some(stored.value.(inPlace := inPlace));
    }
  }

  method PutBudget(stored: Option<nat>, saw: Option<nat>, want: nat) returns (ok: bool, after: Option<nat>)
    ensures ok <==> BudgetAfter(stored, saw, want).Some?
    ensures after == if ok then BudgetAfter(stored, saw, want).value else stored
  {
    ok, after := true, stored;
    if saw.None? {
      if stored.None? {
        after := Some(want);
      }
    } else if saw.value != want {
      if stored == saw {
        after := Some(want);
      } else {
        ok := false;
      }
    }
  }

  method NeedsSnapshot(strategy: Strategy, existing: StatefulSet, desired: StatefulSet) returns (b: bool)
    requires |desired.template.containers| > 0
    ensures b <==> TakesSnapshot(strategy) && FirstImage(existing).Some? && FirstImage(existing) != FirstImage(desired)
  {
    if strategy == Unset || strategy == NoSnapshot || |existing.template.containers| == 0 {
      return false;
    }
    return existing.template.containers[0].image != desired.template.containers[0].image;
  }

  /** The update the advice calls for; advice without a StatefulSet is an error. */
  method PlanUpdate(sts: Option<StatefulSet>, advice: seq<Recommendation>, playing: bool)
    returns (ok: bool, plan: Option<StatefulSet>)
    ensures ok <==> !Asks(advice) || sts.Some?
    ensures plan == Plan(sts, advice, playing) && (plan.Some? ==> Asks(advice) && sts.Some?)
  {
    var cpu, memory := FindTarget(advice);
    if cpu.None? && memory.None? {
      return true, None;
    }
    if sts.None? {
      return false, None;
    }
    plan := PlanRecommendation(sts.value, cpu, memory, playing);
    PlanIsPlanned(sts.value, advice, cpu, memory, playing, plan);
    ok := true;
  }

  /** Writes the update, version-checked. */
  method UpdateRequests(sets: seq<Option<StatefulSet>>, at: nat, advice: seq<Recommendation>, playing: bool)
    returns (ok: bool, after: seq<Option<StatefulSet>>)
    requires at < |sets|
    ensures ok <==> CanApply(sets, at, advice, playing)
    ensures after == SetsAfterAdvice(sets, at, advice, playing)
  {
    var plan;
    ok, plan := PlanUpdate(sets[at], advice, playing);
    after := sets;
    if plan.Some? {
      if IsLatest(sets, at) {
        after := sets + [plan];
      } else {
        ok := false;
      }
    }
  }

  /** The others never shorten the record or move the operator. */
  lemma OthersGrow(w: World, a: Action)
    requires !a.Operate? && |w.servers| > 0 && |w.sets| > 0 && w.seen < |w.servers| && Named(w.snapshots)
    ensures var v := Step(w, a);
      && v.op == w.op && v.name == w.name && v.seen == w.seen && |v.servers| >= |w.servers| && |v.sets| >= |w.sets|
      && Named(v.snapshots)
  {
    match a
    case SidecarGet(_) => return;
    case SidecarPatch(_) => return;
    case Disturb(change) => return;
  }

  /** The program's plan is the protocol's. */
  lemma PlanIsPlanned(sts: StatefulSet, advice: seq<Recommendation>, cpu: Option<int>, memory: Option<int>,
                      playing: bool, plan: Option<StatefulSet>)
    requires Asks(advice) && TargetOf(advice).value.cpu == cpu && TargetOf(advice).value.memory == memory
    requires var k := GameIndex(sts.template.containers);
      k == |sts.template.containers| ==> plan == None
    requires var k := GameIndex(sts.template.containers);
      k < |sts.template.containers| ==>
        var c := sts.template.containers[k].resources.requests;
        var scaled := ScaledRequests(c, Recommendation(GAME, cpu, memory), playing);
        plan == if scaled == c then None else Some(WithRequests(sts, k, scaled))
    ensures plan == Plan(Some(sts), advice, playing)
  {
  }
}
