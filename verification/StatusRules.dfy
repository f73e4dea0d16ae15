/** The status the operator derives from the StatefulSet, and what every status satisfies. */
module StatusRules {
  import opened Api
  import opened Objects

  // ------------------------------------------------------------ condition lists

  function Lookup(cs: seq<Condition>, kind: string): Option<Condition> {
    if cs == [] then None
    else if cs[0].kind == kind then Some(cs[0])
    else Lookup(cs[1..], kind)
  }

  /** Replaces the condition of the same kind, or appends. */
  function SetCondition(cs: seq<Condition>, c: Condition): seq<Condition> {
    if cs == [] then [c]
    else if cs[0].kind == c.kind then [c] + cs[1..]
    else [cs[0]] + SetCondition(cs[1..], c)
  }

  function RemoveCondition(cs: seq<Condition>, kind: string): seq<Condition> {
    if cs == [] then []
    else if cs[0].kind == kind then RemoveCondition(cs[1..], kind)
    else [cs[0]] + RemoveCondition(cs[1..], kind)
  }

  predicate UniqueKinds(cs: seq<Condition>) {
    cs == [] || (Lookup(cs[1..], cs[0].kind).None? && UniqueKinds(cs[1..]))
  }

  lemma {:induction false} SetConditionEffect(cs: seq<Condition>, c: Condition, kind: string)
    requires UniqueKinds(cs)
    ensures UniqueKinds(SetCondition(cs, c))
    ensures Lookup(SetCondition(cs, c), kind) == if kind == c.kind then Some(c) else Lookup(cs, kind)
  {
    if cs != [] {
      if cs[0].kind == c.kind {
        assert SetCondition(cs, c)[1..] == cs[1..];
      } else {
        assert SetCondition(cs, c)[1..] == SetCondition(cs[1..], c);
        SetConditionEffect(cs[1..], c, kind);
        SetConditionEffect(cs[1..], c, cs[0].kind);
      }
    }
  }

  function Kinds(cs: seq<Condition>): seq<string> {
    if cs == [] then [] else [cs[0].kind] + Kinds(cs[1..])
  }

  /** A condition is replaced where it stands, or added at the end. */
  lemma {:induction false} SetConditionInPlace(cs: seq<Condition>, c: Condition)
    ensures Kinds(SetCondition(cs, c)) == if Lookup(cs, c.kind).Some? then Kinds(cs) else Kinds(cs) + [c.kind]
  {
    if cs != [] {
      var after := SetCondition(cs, c);
      if cs[0].kind == c.kind {
        assert after[1..] == cs[1..];
      } else {
        assert after[1..] == SetCondition(cs[1..], c);
        SetConditionInPlace(cs[1..], c);
      }
    }
  }

  lemma {:induction false} RemoveConditionEffect(cs: seq<Condition>, kind: string, other: string)
    requires UniqueKinds(cs)
    ensures UniqueKinds(RemoveCondition(cs, kind))
    ensures Lookup(RemoveCondition(cs, kind), other) == if other == kind then None else Lookup(cs, other)
  {
    if cs != [] {
      RemoveConditionEffect(cs[1..], kind, other);
      if cs[0].kind != kind {
        RemoveConditionEffect(cs[1..], kind, cs[0].kind);
        assert RemoveCondition(cs, kind)[1..] == RemoveCondition(cs[1..], kind);
      }
    }
  }

  // ------------------------------------------------------------ derived status

  function PhaseOf(rollout: Option<Rollout>): Phase {
    if rollout.None? then Pending
    else if rollout.value.ready > 0 then Running
    else if rollout.value.currentRevision != "" && rollout.value.currentRevision != rollout.value.updateRevision
    then Updating
    else Pending
  }

  function ReasonOf(rollout: Option<Rollout>): string {
    if rollout.None? then "StatefulSetNotFound"
    else
      match PhaseOf(rollout)
      case Running => "ServerRunning"
      case Updating => "ServerUpdating"
      case _ => "ServerStarting"
  }

  function ReplicasOf(rollout: Option<Rollout>): nat {
    if rollout.None? then 0 else rollout.value.ready
  }

  function ConditionsAfter(cs: seq<Condition>, rollout: Option<Rollout>, deferred: bool, generation: nat)
    : seq<Condition>
  {
    var ready := SetCondition(cs, Condition(READY, PhaseOf(rollout) == Running, ReasonOf(rollout), generation));
    if deferred then
      SetCondition(ready, Condition(UPDATE_DEFERRED, true, "PlayersConnected", generation))
    else
      RemoveCondition(ready, UPDATE_DEFERRED)
  }

  /** The status committed by a reconcile that saw `rollout` (None: no StatefulSet). */
  function StatusAfter(s: Status, rollout: Option<Rollout>, deferred: bool, generation: nat): Status {
    Status(PhaseOf(rollout), ReplicasOf(rollout), s.activePlayers, s.gameVersion, deferred,
           ConditionsAfter(s.conditions, rollout, deferred, generation))
  }

  // ------------------------------------------------------------ invariant

  predicate Says(cs: seq<Condition>, kind: string, holds: bool) {
    Lookup(cs, kind).Some? && Lookup(cs, kind).value.holds == holds
  }

  /** Condition kinds are unique; the deferral flag holds exactly when its condition is present
      and true; Running means ready with replicas, Pending and Updating mean not ready with none. */
  predicate Coherent(s: Status) {
    && UniqueKinds(s.conditions)
    && (s.updateDeferred <==> Lookup(s.conditions, UPDATE_DEFERRED).Some?)
    && (s.updateDeferred <==> Says(s.conditions, UPDATE_DEFERRED, true))
    && (s.phase == Running ==> s.readyReplicas > 0 && Says(s.conditions, READY, true))
    && (s.phase == Pending || s.phase == Updating ==> s.readyReplicas == 0 && Says(s.conditions, READY, false))
  }

  lemma StatusAfterCoherent(s: Status, rollout: Option<Rollout>, deferred: bool, generation: nat)
    requires UniqueKinds(s.conditions)
    ensures Coherent(StatusAfter(s, rollout, deferred, generation))
  {
    var ready := Condition(READY, PhaseOf(rollout) == Running, ReasonOf(rollout), generation);
    var cs := SetCondition(s.conditions, ready);
    SetConditionEffect(s.conditions, ready, READY);
    if deferred {
      var c := Condition(UPDATE_DEFERRED, true, "PlayersConnected", generation);
      SetConditionEffect(cs, c, READY);
      SetConditionEffect(cs, c, UPDATE_DEFERRED);
    } else {
      RemoveConditionEffect(cs, UPDATE_DEFERRED, READY);
      RemoveConditionEffect(cs, UPDATE_DEFERRED, UPDATE_DEFERRED);
    }
  }

  /** The in-place derivation of the controller, step by step. */
  method DeriveStatus(was: Status, found: Option<Rollout>, deferred: bool, generation: nat) returns (s: Status)
    ensures s == StatusAfter(was, found, deferred, generation)
  {
    s := was;
    var ready, reason;
    if found.None? {
      s := s.(phase := Pending, readyReplicas := 0);
      ready, reason := false, "StatefulSetNotFound";
    } else {
      var r := found.value;
      s := s.(readyReplicas := r.ready);
      if r.ready > 0 {
        s := s.(phase := Running);
        ready, reason := true, "ServerRunning";
      } else if r.currentRevision != "" && r.currentRevision != r.updateRevision {
        s := s.(phase := Updating);
        ready, reason := false, "ServerUpdating";
      } else {
        s := s.(phase := Pending);
        ready, reason := false, "ServerStarting";
      }
    }
    s := s.(updateDeferred := deferred);
    s := s.(conditions := SetCondition(s.conditions, Condition(READY, ready, reason, generation)));
    if deferred {
      s := s.(conditions := SetCondition(s.conditions,
                Condition(UPDATE_DEFERRED, true, "PlayersConnected", generation)));
    } else {
      s := s.(conditions := RemoveCondition(s.conditions, UPDATE_DEFERRED));
    }
  }
}
