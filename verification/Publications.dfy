/** The phase gauge along runs of the protocol: what is published is what is stored. */
module Publications {
  import opened Api
  import opened StatusRules
  import opened Gauges
  import opened Cron
  import opened Protocol
  import opened Invariants

  /** The gauge call a step makes, if any: after a status update or a finalizer removal that
      landed and whose reply arrived. */
  function Emitted(w: World, k: Key, a: Action): Option<GaugeCall> {
    if !a.Operate? || !Callable(w, a.call) || !IsLatest(w.servers, w.op.version) then None
    else
      match a.call
      case CommitStatus(at, now, true) =>
        var s := StatusAfter(w.op.server.status, RolloutOf(w.sets[at]), w.op.deferred, w.op.server.generation);
        Some(Publish(k, s.readyReplicas, s.updateDeferred, s.phase, w.op.server.status.phase,
                     DoCommitStatus(w, at, now, true).op.statusWindow))
      case RemoveFinalizer(true) => Some(Forget(k, w.op.server.status.phase))
      case _ => None
  }

  /** The gauge calls of a run, in order. */
  function Calls(w: World, k: Key, actions: seq<Action>): seq<GaugeCall> {
    if actions == [] then []
    else
      var before, a := actions[..|actions| - 1], actions[|actions| - 1];
      var c := Emitted(Run(w, before), k, a);
      if c.None? then Calls(w, k, before) else Calls(w, k, before) + [c.value]
  }

  lemma CommitEmits(w: World, k: Key, at: nat, now: Instant, acknowledged: bool)
    requires w.op.pc == AtStatus && at < |w.sets|
    ensures Emitted(w, k, Operate(CommitStatus(at, now, acknowledged))) ==
      if IsLatest(w.servers, w.op.version) && acknowledged then
        var s := StatusAfter(w.op.server.status, RolloutOf(w.sets[at]), w.op.deferred, w.op.server.generation);
        Some(Publish(k, s.readyReplicas, s.updateDeferred, s.phase, w.op.server.status.phase,
                     InAnyWindow(w.op.server.spec.policy.windows, now)))
      else None
  {
  }

  lemma UnguardEmits(w: World, k: Key, acknowledged: bool)
    requires w.op.pc == AtUnguard
    ensures Emitted(w, k, Operate(RemoveFinalizer(acknowledged))) ==
      if IsLatest(w.servers, w.op.version) && acknowledged then Some(Forget(k, w.op.server.status.phase)) else None
  {
  }

  function After(b: Board, c: Option<GaugeCall>): Board {
    if c.None? then b else Applied(b, c.value)
  }

  /** The boards along a run, world by world. */
  ghost predicate BoardChain(boards: seq<Board>, worlds: seq<World>, actions: seq<Action>, k: Key) {
    && |boards| == |worlds| == |actions| + 1
    && forall i {:trigger actions[i]} :: 0 <= i < |actions| ==>
         boards[i + 1] == After(boards[i], Emitted(worlds[i], k, actions[i]))
  }

  lemma {:induction false} BoardChainIsCalls(boards: seq<Board>, worlds: seq<World>, actions: seq<Action>, k: Key)
    requires BoardChain(boards, worlds, actions, k) && Chain(worlds, actions)
    ensures boards[|actions|] == BoardsFrom(boards[0], Calls(worlds[0], k, actions))
  {
    if actions != [] {
      var n := |actions| - 1;
      var before := actions[..n];
      BoardChainIsCalls(boards[..n + 1], worlds[..n + 1], before, k);
      ChainIsRun(worlds[..n + 1], before);
      assert actions[n] == actions[n];
      var calls, c := Calls(worlds[0], k, before), Emitted(worlds[n], k, actions[n]);
      if c.Some? {
        assert (calls + [c.value])[..|calls|] == calls;
      }
    }
  }

  /** Every write of the phase is acknowledged and published, and users leave the operator's
      finalizer alone. */
  predicate Clean(w: World, a: Action) {
    && (a.Operate? && a.call.PhaseError? ==> !a.call.lands)
    && (a.Operate? && a.call.CommitStatus? ==> a.call.acknowledged)
    && (a.Operate? && a.call.RemoveFinalizer? ==> a.call.acknowledged)
    && (a.Disturb? && a.change.UserEdit? && Latest(w.servers).Some? && Latest(w.servers).value.Guarded() ==>
          FINALIZER in a.change.finalizers)
  }

  predicate CleanRun(w: World, actions: seq<Action>) {
    actions == [] ||
    (CleanRun(w, actions[..|actions| - 1]) && Clean(Run(w, actions[..|actions| - 1]), actions[|actions| - 1]))
  }

  /** The stored phase is the one shown; a resource the operator has let go of shows none. */
  predicate Tracks(s: Option<Server>, shown: set<Phase>) {
    if s.None? || s.value.status.phase == NoPhase then shown == {}
    else if s.value.Guarded() then shown == {s.value.status.phase}
    else s.value.deleting && shown == {}
  }

  /** A step that is neither a write of the phase nor a removal of the finalizer. */
  predicate Plain(a: Action) {
    !(a.Operate? && (a.call.CommitStatus? || a.call.RemoveFinalizer? || a.call.PhaseError?))
  }

  lemma PlainCallTracks(w: World, c: Call, shown: set<Phase>)
    requires Inv(w) && Callable(w, c) && Plain(Operate(c)) && Tracks(Latest(w.servers), shown)
    ensures Tracks(Latest(Operated(w, c).servers), shown)
  {
    if c.AddFinalizer? { return; }
    CallKeepsServers(w, c);
  }

  lemma CallKeepsServers(w: World, c: Call)
    requires Callable(w, c) && Plain(Operate(c)) && !c.AddFinalizer?
    ensures Operated(w, c).servers == w.servers
  {
  }

  lemma EditTracks(w: World, spec: Spec, finalizers: set<string>, shown: set<Phase>)
    requires Latest(w.servers).Some? && Tracks(Latest(w.servers), shown)
    requires Latest(w.servers).value.Guarded() ==> FINALIZER in finalizers
    ensures Tracks(Latest(DoUserEdit(w, spec, finalizers).servers), shown)
  {
    var s := Latest(w.servers).value;
    if s.Guarded() {
      assert FINALIZER in finalizers * s.finalizers;
    }
  }

  lemma DeleteTracks(w: World, shown: set<Phase>)
    requires Latest(w.servers).Some? && Tracks(Latest(w.servers), shown)
    ensures Tracks(Latest(DoUserDelete(w).servers), shown)
  {
  }

  lemma ChangeKeepsServers(w: World, c: Change)
    requires !c.UserCreate? && !c.UserEdit? && !c.UserDelete?
    ensures Disturbed(w, c).servers == w.servers
  {
  }

  lemma ChangeTracks(w: World, c: Change, shown: set<Phase>)
    requires Inv(w) && Clean(w, Disturb(c)) && Tracks(Latest(w.servers), shown)
    ensures Tracks(Latest(Disturbed(w, c).servers), shown)
  {
    match c
    case UserCreate(_, _) => return;
    case UserEdit(spec, finalizers) => if Latest(w.servers).Some? { EditTracks(w, spec, finalizers, shown); } return;
    case UserDelete => if Latest(w.servers).Some? { DeleteTracks(w, shown); } return;
    case _ => ChangeKeepsServers(w, c); return;
  }

  lemma SidecarTracks(w: World, a: Action, shown: set<Phase>)
    requires (a.SidecarGet? || a.SidecarPatch?) && Tracks(Latest(w.servers), shown)
    ensures Tracks(Latest(Step(w, a).servers), shown)
  {
    if a.SidecarGet? { return; }
  }

  lemma CommitTracks(w: World, k: Key, at: nat, now: Instant, shown: set<Phase>)
    requires Inv(w) && Callable(w, CommitStatus(at, now, true)) && Tracks(Latest(w.servers), shown)
    ensures var c := Emitted(w, k, Operate(CommitStatus(at, now, true)));
      Tracks(Latest(DoCommitStatus(w, at, now, true).servers), if c.None? then shown else Shifted(shown, c.value))
  {
    if !IsLatest(w.servers, w.op.version) { return; }
    assert shown <= Replaced(w.op.server.status.phase);
  }

  lemma LetGo(s: Server, rest: set<string>, shown: set<Phase>)
    requires s.Guarded() && s.deleting && FINALIZER !in rest && Tracks(Some(s), shown)
    ensures Tracks(None, shown - {s.status.phase}) && Tracks(Some(s.(finalizers := rest)), shown - {s.status.phase})
  {
  }

  /** What a removal that lands finds and stores. */
  lemma UnguardFinds(w: World)
    requires Local(w) && w.op.pc == AtUnguard && IsLatest(w.servers, w.op.version)
    ensures Latest(w.servers) == Some(w.op.server) && w.op.server.Guarded() && w.op.server.deleting
  {
  }

  lemma UnguardStores(w: World)
    requires IsLatest(w.servers, w.op.version)
    ensures var s := Latest(DoRemoveFinalizer(w, true).servers);
      s.None? || s == Some(w.op.server.(finalizers := w.op.server.finalizers - {FINALIZER}))
  {
  }

  lemma UnguardTracks(w: World, k: Key, shown: set<Phase>)
    requires Inv(w) && Callable(w, RemoveFinalizer(true)) && Tracks(Latest(w.servers), shown)
    ensures var c := Emitted(w, k, Operate(RemoveFinalizer(true)));
      Tracks(Latest(DoRemoveFinalizer(w, true).servers), if c.None? then shown else Shifted(shown, c.value))
  {
    if !IsLatest(w.servers, w.op.version) { return; }
    UnguardFinds(w);
    UnguardStores(w);
    LetGo(w.op.server, w.op.server.finalizers - {FINALIZER}, shown);
  }

  lemma StepTracks(w: World, k: Key, a: Action, shown: set<Phase>)
    requires Inv(w) && Clean(w, a) && Tracks(Latest(w.servers), shown)
    ensures var c := Emitted(w, k, a);
      Tracks(Latest(Step(w, a).servers), if c.None? then shown else Shifted(shown, c.value))
  {
    match a
    case Operate(call) =>
      if !Callable(w, call) { return; }
      if Plain(a) {
        PlainCallTracks(w, call, shown);
      } else if call.CommitStatus? {
        CommitTracks(w, k, call.at, call.now, shown);
      } else if call.RemoveFinalizer? {
        UnguardTracks(w, k, shown);
      }
      return;
    case Disturb(change) => ChangeTracks(w, change, shown); return;
    case _ => SidecarTracks(w, a, shown); return;
  }

  /** In every clean run the gauge shows exactly the stored phase: one phase while the operator
      keeps the server, none before the first status and none after it let go. */
  lemma {:induction false} GaugeShowsStoredPhase(w: World, k: Key, actions: seq<Action>)
    requires Initial(w) && CleanRun(w, actions)
    ensures Tracks(Latest(Run(w, actions).servers), PhasesOf(Boards(Calls(w, k, actions)), k))
  {
    if actions != [] {
      var n := |actions| - 1;
      var before := actions[..n];
      GaugeShowsStoredPhase(w, k, before);
      InitialInv(w);
      RunInv(w, before);
      var calls, c := Calls(w, k, before), Emitted(Run(w, before), k, actions[n]);
      StepTracks(Run(w, before), k, actions[n], PhasesOf(Boards(calls), k));
      if c.Some? {
        BoardsPush(calls, c.value);
        PhasesAfter(Boards(calls), c.value);
      }
    }
  }

  // ------------------------------------------------------------ what is published is what is stored

  /** A publication carries exactly what the commit stored, over the phase stored before. */
  lemma PublishesStored(w: World, k: Key, a: Action)
    requires Inv(w) && Emitted(w, k, a).Some? && Emitted(w, k, a).value.Publish?
    ensures var c, s := Emitted(w, k, a).value, Latest(Step(w, a).servers);
      && c.key == k && s.Some? && Latest(w.servers).Some?
      && c.replicas == s.value.status.readyReplicas && c.deferred == s.value.status.updateDeferred
      && c.phase == s.value.status.phase && c.oldPhase == Latest(w.servers).value.status.phase
      && c.window == Step(w, a).op.statusWindow
  {
    var c := a.call;
    CommitEmits(w, k, c.at, c.now, c.acknowledged);
  }
}
