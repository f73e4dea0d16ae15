/** Strict snapshots: an image never changes without a proven pre-update snapshot. */
module StrictUpdates {
  import opened Api
  import opened Objects
  import opened Snapshots
  import opened Vertical
  import opened Protocol
  import opened Invariants
  import opened Guarantees

  /** The game's image, as far as there is a StatefulSet. */
  function ImageIn(sets: seq<Option<StatefulSet>>): Option<string> {
    if Latest(sets).Some? then FirstImage(Latest(sets).value) else None
  }

  lemma AdviceKeepsImage(sets: seq<Option<StatefulSet>>, at: nat, advice: seq<Recommendation>, playing: bool)
    requires at < |sets| && AllLed(sets)
    ensures ImageIn(SetsAfterAdvice(sets, at, advice, playing)) == ImageIn(sets)
  {
    if sets[at].Some? {
      ScaledKeeps(sets[at].value, advice, playing);
    }
  }

  lemma RolloutWritesImage(w: World)
    requires Inv(w) && w.op.pc == AtRollout
    ensures var v := DoUpdateStatefulSet(w);
      v.sets != w.sets ==>
        && ImageIn(v.sets) == Some(ImageOf(w.op.server.spec))
        && (Strict(w) && ImageIn(v.sets) != ImageIn(w.sets) ==> Proven(w.op.evidence))
  {
    BuiltIsLed(w.name, w.op.server.spec, w.op.hash);
    if !(IsLatest(w.sets, w.op.base) && Latest(w.sets).Some?) { return; }
  }

  lemma ChangeKeepsImage(w: World, c: Change)
    requires Latest(w.sets).Some? && Latest(Disturbed(w, c).sets).Some?
    ensures ImageIn(Disturbed(w, c).sets) == ImageIn(w.sets)
  {
    if !WritesStatefulSet(Disturb(c)) {
      ChangeKeepsSets(w, c);
    }
  }

  lemma CallChangesImage(w: World, c: Call)
    requires Inv(w) && Latest(w.sets).Some? && Callable(w, c)
    requires ImageIn(Operated(w, c).sets) != ImageIn(w.sets)
    ensures c == UpdateStatefulSet
    ensures ImageIn(Operated(w, c).sets) == Some(ImageOf(w.op.server.spec))
    ensures Strict(w) ==> Proven(w.op.evidence)
  {
    match c
    case ApplyRecommendation(at) =>
      AdviceKeepsImage(w.sets, at, Advice(w.op.server.spec.scaling, w.kids.vpa), w.op.server.status.activePlayers > 0);
      return;
    case ReadStatefulSet(_) => return;
    case UpdateStatefulSet => RolloutWritesImage(w); return;
    case _ => CallKeepsSets(w, c); return;
  }

  /** One step: the image of an existing StatefulSet is changed by nothing but the rollout
      write, to the image of the spec, and in strict mode only on a proven snapshot. */
  lemma ImageChangeIsProven(w: World, a: Action)
    requires Inv(w) && Latest(w.sets).Some? && Latest(Step(w, a).sets).Some?
    requires ImageIn(Step(w, a).sets) != ImageIn(w.sets)
    ensures a == Operate(UpdateStatefulSet) && w.op.pc == AtRollout
    ensures ImageIn(Step(w, a).sets) == Some(ImageOf(w.op.server.spec))
    ensures Strict(w) ==> Proven(w.op.evidence)
  {
    match a
    case Operate(call) => if Callable(w, call) { CallChangesImage(w, call); } return;
    case SidecarGet(_) => OthersKeepSets(w, a); return;
    case SidecarPatch(_) => OthersKeepSets(w, a); return;
    case Disturb(change) => ChangeKeepsImage(w, change); return;
  }

  // ------------------------------------------------------------ where the proof came from

  lemma OthersKeepOperator(w: World, a: Action)
    requires !a.Operate?
    ensures Step(w, a).op == w.op
  {
    match a
    case SidecarGet(_) => return;
    case SidecarPatch(_) => return;
    case Disturb(change) => return;
  }

  /** Step `j` asks for the snapshot that the reconcile then waits for. */
  predicate Asked(w: World, actions: seq<Action>, j: nat, name: string)
    requires j < |actions|
  {
    && At(w, actions, j).op.pc == AtSnapshot
    && actions[j].Operate? && actions[j].call.CreateSnapshot? && actions[j].call.snapshot.name == name
  }

  /** Step `j` sees the snapshot in the cluster, ready and without an error. */
  predicate Saw(w: World, actions: seq<Action>, j: nat, name: string)
    requires j < |actions|
  {
    var v := At(w, actions, j);
    && v.op.pc == AtPoll && actions[j] == Operate(PollSnapshot) && v.op.snapshot == name
    && name in v.snapshots && Proven(Some(v.snapshots[name]))
  }

  predicate Continues(a: Operator, b: Operator) {
    !a.pc.Finished? && a.version == b.version && a.server == b.server && a.base == b.base
  }

  /** All along, the same reconcile works on the same copy and holds the same StatefulSet version. */
  predicate SameReconcile(w: World, actions: seq<Action>, j: nat, k: nat)
    requires j <= k <= |actions|
  {
    forall i :: j <= i <= k ==> Continues(At(w, actions, i).op, At(w, actions, k).op)
  }

  lemma SameReconcileTrans(w: World, actions: seq<Action>, i: nat, j: nat, k: nat)
    requires i <= j <= k <= |actions|
    requires SameReconcile(w, actions, i, j) && SameReconcile(w, actions, j, k)
    ensures SameReconcile(w, actions, i, k)
  {
    forall n | i <= n <= k ensures Continues(At(w, actions, n).op, At(w, actions, k).op) {
      if n <= j {
        assert Continues(At(w, actions, n).op, At(w, actions, j).op);
        assert Continues(At(w, actions, j).op, At(w, actions, k).op);
      }
    }
  }

  lemma SameReconcileStep(w: World, actions: seq<Action>, k: nat)
    requires k < |actions| && Continues(At(w, actions, k).op, At(w, actions, k + 1).op)
    requires !At(w, actions, k + 1).op.pc.Finished?
    ensures SameReconcile(w, actions, k, k + 1)
  {
  }

  /** Who brings a reconcile to the polling loop, and keeps it there. */
  lemma PollingCall(w: World, c: Call)
    requires Callable(w, c) && Operated(w, c).op.pc == AtPoll
    ensures var v := Operated(w, c).op;
      && v.version == w.op.version && v.server == w.op.server && v.base == w.op.base
      && (w.op.pc == AtPoll || (w.op.pc == AtSnapshot && c.CreateSnapshot? && c.snapshot.name == v.snapshot))
      && (w.op.pc == AtPoll ==> v.snapshot == w.op.snapshot)
  {
    match c
    case CreateSnapshot(_) => return;
    case PollSnapshot => return;
    case SnapshotTrouble => return;
    case _ => NoPollingCall(w, c); return;
  }

  lemma NoPollingCall(w: World, c: Call)
    requires Callable(w, c) && !c.CreateSnapshot? && !c.PollSnapshot? && !c.SnapshotTrouble?
    ensures Operated(w, c).op.pc != AtPoll
  {
    if c.ReadStatefulSet? || c.ApplyRecommendation? || c.UpdateStatefulSet? { return; }
  }

  /** Who brings a strict reconcile with a proven snapshot to the rollout write. */
  lemma ProvenCall(w: World, c: Call)
    requires Callable(w, c) && w.op.pc != AtRollout
    requires var v := Operated(w, c); v.op.pc == AtRollout && Strict(v) && Proven(v.op.evidence)
    ensures var v := Operated(w, c).op;
      && v.version == w.op.version && v.server == w.op.server && v.base == w.op.base && v.snapshot == w.op.snapshot
      && c == PollSnapshot && w.op.snapshot in w.snapshots && v.evidence == Some(w.snapshots[w.op.snapshot])
  {
    match c
    case PollSnapshot => return;
    case ReadStatefulSet(_) => return;
    case SnapshotTrouble => return;
    case _ => NoRolloutCall(w, c); return;
  }

  lemma NoRolloutCall(w: World, c: Call)
    requires Callable(w, c) && w.op.pc != AtRollout && !c.ReadStatefulSet? && !c.PollSnapshot? && !c.SnapshotTrouble?
    ensures Operated(w, c).op.pc != AtRollout
  {
    if c.ApplyRecommendation? || c.CreateSnapshot? { return; }
  }

  lemma RolloutCallLeaves(w: World, c: Call)
    requires Callable(w, c) && w.op.pc == AtRollout
    ensures Operated(w, c).op.pc != AtRollout
  {
  }

  lemma PollingStep(w: World, a: Action)
    requires Step(w, a).op.pc == AtPoll
    ensures var v := Step(w, a).op;
      && Continues(w.op, v)
      && (|| (w.op.pc == AtPoll && v.snapshot == w.op.snapshot)
          || (w.op.pc == AtSnapshot && a.Operate? && a.call.CreateSnapshot? && a.call.snapshot.name == v.snapshot))
  {
    match a
    case Operate(call) => if Callable(w, call) { PollingCall(w, call); } return;
    case _ => OthersKeepOperator(w, a); return;
  }

  lemma ProvenStep(w: World, a: Action)
    requires var v := Step(w, a); v.op.pc == AtRollout && Strict(v) && Proven(v.op.evidence)
    ensures var v := Step(w, a).op;
      && Continues(w.op, v)
      && (|| w.op == v
          || (w.op.pc == AtPoll && a == Operate(PollSnapshot) && v.snapshot == w.op.snapshot
              && w.op.snapshot in w.snapshots && Proven(Some(w.snapshots[w.op.snapshot]))))
  {
    match a
    case Operate(call) =>
      if Callable(w, call) {
        if w.op.pc == AtRollout {
          RolloutCallLeaves(w, call);
          assert false;
        }
        ProvenCall(w, call);
      }
      return;
    case _ => OthersKeepOperator(w, a); return;
  }

  /** From the request on, the reconcile does nothing but poll. */
  predicate PollsSince(w: World, actions: seq<Action>, i: nat, k: nat)
    requires i < k <= |actions|
  {
    At(w, actions, k).op.pc == AtPoll && (i + 1 < k ==> PollsSince(w, actions, i, k - 1))
  }

  /** One step back from a waiting reconcile. */
  lemma PollingBack(w: World, actions: seq<Action>, k: nat)
    requires k < |actions| && At(w, actions, k + 1).op.pc == AtPoll
    ensures var u, v := At(w, actions, k), At(w, actions, k + 1);
      && SameReconcile(w, actions, k, k + 1)
      && (|| (u.op.pc == AtPoll && v.op.snapshot == u.op.snapshot)
          || Asked(w, actions, k, v.op.snapshot))
  {
    RunStep(w, actions, k);
    PollingStep(At(w, actions, k), actions[k]);
    SameReconcileStep(w, actions, k);
  }

  /** A reconcile that waits for a snapshot has asked for it. */
  lemma {:induction false} PollingWasAsked(w: World, actions: seq<Action>, k: nat) returns (i: nat)
    requires Initial(w) && k <= |actions| && At(w, actions, k).op.pc == AtPoll
    ensures i < k && Asked(w, actions, i, At(w, actions, k).op.snapshot)
    ensures SameReconcile(w, actions, i, k) && PollsSince(w, actions, i, k)
  {
    assert actions[..0] == [];
    if k == 0 {
      assert false;
    }
    PollingBack(w, actions, k - 1);
    if Asked(w, actions, k - 1, At(w, actions, k).op.snapshot) {
      i := k - 1;
    } else {
      i := PollingWasAsked(w, actions, k - 1);
      SameReconcileTrans(w, actions, i, k - 1, k);
    }
  }

  /** A strict reconcile about to write with a proven snapshot has seen it in the cluster. */
  lemma {:induction false} EvidenceWasSeen(w: World, actions: seq<Action>, k: nat) returns (j: nat)
    requires Initial(w) && k <= |actions|
    requires var v := At(w, actions, k); v.op.pc == AtRollout && Strict(v) && Proven(v.op.evidence)
    ensures j < k && Saw(w, actions, j, At(w, actions, k).op.snapshot) && SameReconcile(w, actions, j, k)
  {
    assert actions[..0] == [];
    if k == 0 {
      assert false;
    }
    RunStep(w, actions, k - 1);
    ProvenStep(At(w, actions, k - 1), actions[k - 1]);
    SameReconcileStep(w, actions, k - 1);
    if At(w, actions, k - 1).op == At(w, actions, k).op {
      j := EvidenceWasSeen(w, actions, k - 1);
      SameReconcileTrans(w, actions, j, k - 1, k);
    } else {
      j := k - 1;
    }
  }

  // ------------------------------------------------------------ whose snapshot it is

  /** The snapshot is one of this server, made when it was asked for. */
  predicate Own(w: World, name: string, created: int) {
    name in w.snapshots && w.snapshots[name].server == w.name && w.snapshots[name].created == created
  }

  /** Somebody removes the snapshot or puts another one in its place; a driver only reports on it. */
  predicate Replaces(w: World, a: Action, name: string) {
    && a.Disturb? && a.change.SetSnapshot? && a.change.key == name && name in w.snapshots
    && (a.change.value.None? || a.change.value.value.server != w.snapshots[name].server
        || a.change.value.value.created != w.snapshots[name].created)
  }

  lemma PollingKeepsSnapshots(w: World, c: Call)
    requires w.op.pc == AtPoll && Callable(w, c)
    ensures Operated(w, c).snapshots == w.snapshots && Operated(w, c).name == w.name
  {
    if c.PollSnapshot? { return; }
    if c.SnapshotTrouble? { return; }
  }

  lemma ChangeKeepsOwn(w: World, c: Change, name: string, created: int)
    requires Own(w, name, created) && !Replaces(w, Disturb(c), name)
    ensures Own(Disturbed(w, c), name, created)
  {
    if c.SetSnapshot? { return; }
  }

  lemma StepKeepsOwn(w: World, a: Action, name: string, created: int)
    requires w.op.pc == AtPoll && Own(w, name, created) && !Replaces(w, a, name)
    ensures Own(Step(w, a), name, created)
  {
    match a
    case Operate(call) => if Callable(w, call) { PollingKeepsSnapshots(w, call); } return;
    case SidecarGet(_) => return;
    case SidecarPatch(_) => return;
    case Disturb(change) => ChangeKeepsOwn(w, change, name, created); return;
  }

  /** A request under a free name makes a new snapshot of this server; one under a taken name
      makes none. */
  lemma RequestMakesOwnIff(w: World, snapshot: Snapshot)
    ensures var v := DoCreateSnapshot(w, snapshot);
      && (snapshot.name !in w.snapshots ==> Own(v, snapshot.name, snapshot.created))
      && (v.snapshots != w.snapshots <==> snapshot.name !in w.snapshots)
  {
  }

  lemma AskedMakesOwn(w: World, actions: seq<Action>, i: nat, name: string)
    requires i < |actions| && Asked(w, actions, i, name) && name !in At(w, actions, i).snapshots
    ensures Own(At(w, actions, i + 1), name, actions[i].call.snapshot.created)
  {
    RunStep(w, actions, i);
    var u := At(w, actions, i);
    RequestMakesOwnIff(u, actions[i].call.snapshot);
    assert Callable(u, actions[i].call);
  }

  /** The name was free when the snapshot was asked for, and nobody has replaced it up to `k`. */
  predicate Unreplaced(w: World, actions: seq<Action>, i: nat, k: nat, name: string)
    requires i < k <= |actions|
  {
    if k == i + 1 then name !in At(w, actions, i).snapshots
    else !Replaces(At(w, actions, k - 1), actions[k - 1], name) && Unreplaced(w, actions, i, k - 1, name)
  }

  lemma OwnStep(w: World, actions: seq<Action>, k: nat, name: string, created: int)
    requires k < |actions| && At(w, actions, k).op.pc == AtPoll && Own(At(w, actions, k), name, created)
    requires !Replaces(At(w, actions, k), actions[k], name)
    ensures Own(At(w, actions, k + 1), name, created)
  {
    RunStep(w, actions, k);
    StepKeepsOwn(At(w, actions, k), actions[k], name, created);
  }

  lemma {:induction false} StillOwn(w: World, actions: seq<Action>, i: nat, k: nat, name: string)
    requires i < k <= |actions| && Asked(w, actions, i, name) && PollsSince(w, actions, i, k)
    requires Unreplaced(w, actions, i, k, name)
    ensures Own(At(w, actions, k), name, actions[i].call.snapshot.created)
  {
    if k == i + 1 {
      AskedMakesOwn(w, actions, i, name);
    } else {
      StillOwn(w, actions, i, k - 1, name);
      OwnStep(w, actions, k - 1, name, actions[i].call.snapshot.created);
    }
  }

  /** If the name was free and nobody replaced the snapshot, what was seen is this server's own new one. */
  predicate SawOwn(w: World, actions: seq<Action>, i: nat, j: nat, name: string)
    requires i < j < |actions| && Asked(w, actions, i, name)
  {
    Unreplaced(w, actions, i, j, name) ==> Own(At(w, actions, j), name, actions[i].call.snapshot.created)
  }

  lemma ChangeHasEvidence(w: World, actions: seq<Action>, k: nat)
    requires Initial(w) && k < |actions|
    requires var u, v := At(w, actions, k), At(w, actions, k + 1);
      Latest(u.sets).Some? && Latest(v.sets).Some? && ImageIn(u.sets) != ImageIn(v.sets) && Strict(u)
    ensures var u := At(w, actions, k); u.op.pc == AtRollout && Proven(u.op.evidence)
  {
    InitialInv(w);
    RunInv(w, actions[..k]);
    RunStep(w, actions, k);
    ImageChangeIsProven(At(w, actions, k), actions[k]);
  }

  /** In every run: when the image of an existing StatefulSet changes while the spec at hand is
      strict, the very same reconcile has asked for a snapshot (at `i`) and afterwards seen it
      in the cluster (at `j`), ready to use and without an error message.  It is the new snapshot
      of this very server if its name was free and nobody put another one in its place. */
  lemma StrictImageChange(w: World, actions: seq<Action>, k: nat) returns (i: nat, j: nat, name: string)
    requires Initial(w) && k < |actions|
    requires var u, v := At(w, actions, k), At(w, actions, k + 1);
      Latest(u.sets).Some? && Latest(v.sets).Some? && ImageIn(u.sets) != ImageIn(v.sets) && Strict(u)
    ensures i < j < k && Asked(w, actions, i, name) && Saw(w, actions, j, name)
    ensures SameReconcile(w, actions, i, k) && SawOwn(w, actions, i, j, name)
  {
    ChangeHasEvidence(w, actions, k);
    name := At(w, actions, k).op.snapshot;
    j := EvidenceWasSeen(w, actions, k);
    i := PollingWasAsked(w, actions, j);
    SameReconcileTrans(w, actions, i, j, k);
    if Unreplaced(w, actions, i, j, name) {
      StillOwn(w, actions, i, j, name);
    }
  }

  // ------------------------------------------------------------ strict or not: by the strategy alone

  /** The user asks for a snapshot before an update, strictly or not. */
  predicate AsksForSnapshot(s: Server) {
    s.spec.policy.strategy == SnapshotBeforeUpdate || s.spec.policy.strategy == StrictSnapshotBeforeUpdate
  }

  /** The StatefulSet the reconcile has read runs another image than the spec's. */
  predicate ImageDiffers(w: World) {
    && w.op.base < |w.sets| && w.sets[w.op.base].Some?
    && FirstImage(w.sets[w.op.base].value).Some? && FirstImage(w.sets[w.op.base].value) != Some(ImageOf(w.op.server.spec))
  }

  /** The reconcile deals with a snapshot only where one is asked for and the image is new. */
  predicate Warranted(w: World) {
    w.op.pc == AtSnapshot || w.op.pc == AtPoll ==> AsksForSnapshot(w.op.server) && ImageDiffers(w)
  }

  lemma ReadFinds(w: World, at: nat)
    requires at < |w.sets| && w.sets[at].Some?
    ensures var v := DoReadStatefulSet(w, at);
      && v.sets == w.sets && v.op.base == at && v.op.server == w.op.server && (v.op.pc == AtSnapshot || v.op.pc == AtRollout)
      && (v.op.pc == AtSnapshot <==> AsksForSnapshot(w.op.server) && FirstImage(w.sets[at].value).Some?
                                     && FirstImage(w.sets[at].value) != Some(ImageOf(w.op.server.spec)))
  {
    BuiltIsLed(w.name, w.op.server.spec, w.op.hash);
    assert FirstImage(Desired(w)) == Some(ImageOf(w.op.server.spec));
  }

  lemma ReadMisses(w: World, at: nat)
    requires at < |w.sets| && w.sets[at].None?
    ensures var v := DoReadStatefulSet(w, at);
      && v.op.pc == (if Latest(w.sets).None? then AtService else Finished(Failed))
      && v.sets == (if Latest(w.sets).None? then w.sets + [Some(Desired(w))] else w.sets)
  {
  }

  /** After a read of the StatefulSet as it was in version `at`. */
  lemma JustReadWarranted(v: World, at: nat)
    requires at < |v.sets| && v.sets[at].Some? && v.op.base == at
    requires v.op.pc == AtSnapshot <==> AsksForSnapshot(v.op.server) && FirstImage(v.sets[at].value).Some?
                                        && FirstImage(v.sets[at].value) != Some(ImageOf(v.op.server.spec))
    requires v.op.pc == AtSnapshot || v.op.pc == AtRollout
    ensures Warranted(v) && (v.op.pc == AtRollout && AsksForSnapshot(v.op.server) ==> !ImageDiffers(v))
  {
  }

  lemma ReadWarrants(w: World, at: nat)
    requires w.op.pc == AtStatefulSet && at < |w.sets|
    ensures var v := DoReadStatefulSet(w, at);
      && Warranted(v)
      && (v.op.pc == AtRollout && AsksForSnapshot(v.op.server) ==> !ImageDiffers(v))
  {
    if w.sets[at].Some? {
      ReadFinds(w, at);
      JustReadWarranted(DoReadStatefulSet(w, at), at);
    } else {
      ReadMisses(w, at);
    }
  }

  lemma SnapshotCallWarrants(w: World, c: Call)
    requires Warranted(w) && Callable(w, c) && (c.CreateSnapshot? || c.PollSnapshot? || c.SnapshotTrouble?)
    ensures Warranted(Operated(w, c))
  {
    match c
    case CreateSnapshot(_) => return;
    case PollSnapshot => return;
    case SnapshotTrouble => return;
  }

  lemma OtherCallWarrants(w: World, c: Call)
    requires Callable(w, c) && !c.ReadStatefulSet? && !c.CreateSnapshot? && !c.PollSnapshot? && !c.SnapshotTrouble?
    ensures Operated(w, c).op.pc != AtSnapshot
  {
    if c.ApplyRecommendation? || c.UpdateStatefulSet? { return; }
    if c.EnsureService? || c.TakeSnapshot? || c.CommitStatus? { return; }
  }

  lemma CallWarrants(w: World, c: Call)
    requires Warranted(w) && Callable(w, c)
    ensures Warranted(Operated(w, c))
  {
    if c.ReadStatefulSet? {
      ReadWarrants(w, c.at);
    } else if c.CreateSnapshot? || c.PollSnapshot? || c.SnapshotTrouble? {
      SnapshotCallWarrants(w, c);
    } else {
      OtherCallWarrants(w, c);
      NoPollingCall(w, c);
    }
  }

  lemma ChangeLogsSets(w: World, c: Change)
    ensures w.sets <= Disturbed(w, c).sets && Disturbed(w, c).op == w.op
  {
  }

  lemma StepWarrants(w: World, a: Action)
    requires Warranted(w)
    ensures Warranted(Step(w, a))
  {
    match a
    case Operate(call) => if Callable(w, call) { CallWarrants(w, call); } return;
    case SidecarGet(_) => return;
    case SidecarPatch(_) => return;
    case Disturb(change) => ChangeLogsSets(w, change); return;
  }

  lemma {:induction false} RunWarrants(w: World, actions: seq<Action>)
    requires Initial(w)
    ensures Warranted(Run(w, actions))
  {
    if actions != [] {
      RunWarrants(w, actions[..|actions| - 1]);
      StepWarrants(Run(w, actions[..|actions| - 1]), actions[|actions| - 1]);
    }
  }

  /** In every run: a call that has to do with a pre-update snapshot is made only under
      SnapshotBeforeUpdate or StrictSnapshotBeforeUpdate and only for a new image; so none is
      made when the strategy is unset or NoSnapshot. */
  lemma SnapshotCallsWarranted(w: World, actions: seq<Action>, k: nat)
    requires Initial(w) && k < |actions| && actions[k].Operate? && Callable(At(w, actions, k), actions[k].call)
    requires actions[k].call.CreateSnapshot? || actions[k].call.PollSnapshot? || actions[k].call.SnapshotTrouble?
    ensures var u := At(w, actions, k);
      && (u.op.server.spec.policy.strategy == SnapshotBeforeUpdate
          || u.op.server.spec.policy.strategy == StrictSnapshotBeforeUpdate)
      && u.op.server.spec.policy.strategy != Unset && u.op.server.spec.policy.strategy != NoSnapshot
      && ImageDiffers(u)
  {
    RunWarrants(w, actions[..k]);
  }

  // ------------------------------------------------------------ and wherever it is asked for, one is requested

  /** Step `i` asks for the snapshot, or reports that it cannot be had. */
  predicate Requested(w: World, actions: seq<Action>, i: nat)
    requires i < |actions|
  {
    && At(w, actions, i).op.pc == AtSnapshot && actions[i].Operate?
    && (actions[i].call.CreateSnapshot? || actions[i].call.SnapshotTrouble?)
  }

  lemma RolloutCall(w: World, c: Call)
    requires Callable(w, c) && Operated(w, c).op.pc == AtRollout && AsksForSnapshot(Operated(w, c).op.server)
    requires ImageDiffers(Operated(w, c))
    ensures Continues(w.op, Operated(w, c).op) && Operated(w, c).sets == w.sets
    ensures w.op.pc == AtPoll || (w.op.pc == AtSnapshot && c.SnapshotTrouble?)
  {
    match c
    case ReadStatefulSet(at) => ReadWarrants(w, at); return;
    case PollSnapshot => return;
    case SnapshotTrouble => return;
    case _ => NeverRollout(w, c); return;
  }

  lemma NeverRollout(w: World, c: Call)
    requires Callable(w, c) && !c.ReadStatefulSet? && !c.PollSnapshot? && !c.SnapshotTrouble?
    ensures Operated(w, c).op.pc != AtRollout
  {
    if w.op.pc == AtRollout {
      RolloutCallLeaves(w, c);
    } else {
      NoRolloutCall(w, c);
    }
  }

  lemma RolloutStep(w: World, a: Action)
    requires Step(w, a).op.pc == AtRollout && AsksForSnapshot(Step(w, a).op.server) && ImageDiffers(Step(w, a))
    requires w.op.pc == AtRollout ==> w.op.base < |w.sets|
    ensures Continues(w.op, Step(w, a).op)
    ensures || (w.op == Step(w, a).op && ImageDiffers(w))
            || w.op.pc == AtPoll || (w.op.pc == AtSnapshot && a.Operate? && a.call.SnapshotTrouble?)
  {
    match a
    case Operate(call) => if Callable(w, call) { RolloutCall(w, call); } return;
    case SidecarGet(_) => return;
    case SidecarPatch(_) => return;
    case Disturb(change) => ChangeLogsSets(w, change); return;
  }

  lemma {:induction false} RolloutWasRequested(w: World, actions: seq<Action>, k: nat) returns (i: nat)
    requires Initial(w) && k <= |actions|
    requires var v := At(w, actions, k); v.op.pc == AtRollout && AsksForSnapshot(v.op.server) && ImageDiffers(v)
    ensures i < k && Requested(w, actions, i) && SameReconcile(w, actions, i, k)
  {
    assert actions[..0] == [];
    if k == 0 {
      assert false;
    }
    var u := At(w, actions, k - 1);
    InitialInv(w);
    RunInv(w, actions[..k - 1]);
    RunStep(w, actions, k - 1);
    RolloutStep(u, actions[k - 1]);
    SameReconcileStep(w, actions, k - 1);
    if u.op.pc == AtPoll {
      i := PollingWasAsked(w, actions, k - 1);
      SameReconcileTrans(w, actions, i, k - 1, k);
    } else if u.op.pc == AtSnapshot {
      i := k - 1;
    } else {
      i := RolloutWasRequested(w, actions, k - 1);
      SameReconcileTrans(w, actions, i, k - 1, k);
    }
  }

  lemma ChangeDiffers(w: World, a: Action)
    requires Inv(w) && Latest(w.sets).Some? && Latest(Step(w, a).sets).Some?
    requires ImageIn(Step(w, a).sets) != ImageIn(w.sets)
    ensures w.op.pc == AtRollout && ImageDiffers(w)
  {
    ImageChangeIsProven(w, a);
    assert Callable(w, UpdateStatefulSet);
    RolloutWrites(w);
  }

  lemma RolloutWrites(w: World)
    requires Inv(w) && w.op.pc == AtRollout
    ensures DoUpdateStatefulSet(w).sets != w.sets ==> IsLatest(w.sets, w.op.base)
    ensures w.op.base < |w.sets| && w.sets[w.op.base].Some? && FirstImage(w.sets[w.op.base].value).Some?
  {
  }

  /** In every run: when the image of an existing StatefulSet changes under SnapshotBeforeUpdate or
      StrictSnapshotBeforeUpdate, the same reconcile has before asked for a snapshot, or
      reported that it could not have one. */
  lemma ImageChangeRequestsSnapshot(w: World, actions: seq<Action>, k: nat) returns (i: nat)
    requires Initial(w) && k < |actions|
    requires var u, v := At(w, actions, k), At(w, actions, k + 1);
      Latest(u.sets).Some? && Latest(v.sets).Some? && ImageIn(u.sets) != ImageIn(v.sets)
    requires var strategy := At(w, actions, k).op.server.spec.policy.strategy;
      strategy == SnapshotBeforeUpdate || strategy == StrictSnapshotBeforeUpdate
    ensures i < k && Requested(w, actions, i) && SameReconcile(w, actions, i, k)
  {
    InitialInv(w);
    RunInv(w, actions[..k]);
    RunStep(w, actions, k);
    ChangeDiffers(At(w, actions, k), actions[k]);
    i := RolloutWasRequested(w, actions, k);
  }

  /** The rollout write replaces template and replicas and leaves the rest of the StatefulSet. */
  lemma RolloutLeavesRest(w: World)
    requires Latest(w.sets).Some?
    ensures var v := DoUpdateStatefulSet(w);
      && Latest(v.sets).Some?
      && Latest(v.sets).value == Latest(w.sets).value.(template := Latest(v.sets).value.template,
                                                       replicas := Latest(v.sets).value.replicas)
      && (v.sets != w.sets ==> Latest(v.sets).value.replicas == 1 && FirstImage(Latest(v.sets).value) == Some(ImageOf(w.op.server.spec)))
  {
    BuiltIsLed(w.name, w.op.server.spec, w.op.hash);
  }

  // ------------------------------------------------------------ call by call

  /** A StatefulSet the read does not show is created, which fails if there is one; one it shows is
      only ever rolled out. */
  lemma ReadTells(w: World, at: nat)
    requires at < |w.sets|
    ensures var v := DoReadStatefulSet(w, at);
      && (v.op.pc == Finished(Failed) <==> w.sets[at].None? && Latest(w.sets).Some?)
      && (v.op.pc == AtService <==> w.sets[at].None? && Latest(w.sets).None?)
      && (v.sets != w.sets <==> v.op.pc == AtService)
  {
    if w.sets[at].Some? {
      ReadFinds(w, at);
    } else {
      ReadMisses(w, at);
    }
  }

  /** A snapshot that is gone or broken ends the wait, with a failure in strict mode and with the
      rollout otherwise; a ready one leads to the rollout; any other is polled again. */
  lemma PollTells(w: World)
    requires w.op.pc == AtPoll
    ensures var v, bad := Step(w, Operate(PollSnapshot)), w.op.snapshot !in w.snapshots || w.snapshots[w.op.snapshot].error != "";
      var strict := w.op.server.spec.policy.strategy == StrictSnapshotBeforeUpdate;
      v.op.pc == if bad then (if strict then Finished(Failed) else AtRollout)
                 else if w.snapshots[w.op.snapshot].ready then AtRollout else AtPoll
  {
  }
}
