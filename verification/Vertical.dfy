/** Vertical scaling: how a VPA recommendation is applied to the StatefulSet. */
module Vertical {
  import opened Api
  import opened Objects

  datatype Recommendation = Recommendation(container: string, cpu: Option<int>, memory: Option<int>)

  const CPU := "cpu"
  const MEMORY := "memory"

  // ------------------------------------------------------------ specification

  /** The first recommendation for the game container. */
  function TargetOf(recs: seq<Recommendation>): Option<Recommendation> {
    if recs == [] then None
    else if recs[0].container == GAME then Some(recs[0])
    else TargetOf(recs[1..])
  }

  /** The recommendation asks for something. */
  predicate Asks(recs: seq<Recommendation>) {
    TargetOf(recs).Some? && (TargetOf(recs).value.cpu.Some? || TargetOf(recs).value.memory.Some?)
  }

  /** The position of the first container with the game's name, or the number of containers. */
  function GameIndex(cs: seq<Container>): (k: nat)
    ensures k <= |cs|
    ensures k < |cs| ==> cs[k].name == GAME
  {
    if cs == [] || cs[0].name == GAME then 0 else 1 + GameIndex(cs[1..])
  }

  /** CPU always follows the recommendation; memory does too, except that it is not lowered
      while players are connected. */
  function ScaledRequests(requests: map<string, int>, target: Recommendation, playing: bool): map<string, int> {
    var withCpu := if target.cpu.Some? then requests[CPU := target.cpu.value] else requests;
    if target.memory.None? || (playing && MEMORY in requests && target.memory.value < requests[MEMORY]) then withCpu
    else withCpu[MEMORY := target.memory.value]
  }

  function WithRequests(sts: StatefulSet, k: nat, requests: map<string, int>): StatefulSet
    requires k < |sts.template.containers|
  {
    var c := sts.template.containers[k];
    sts.(template := sts.template.(containers :=
      sts.template.containers[k := c.(resources := c.resources.(requests := requests))]))
  }

  /** The StatefulSet a recommendation calls for; the same object when it calls for nothing. */
  function Scaled(sts: StatefulSet, recs: seq<Recommendation>, playing: bool): StatefulSet {
    var k := GameIndex(sts.template.containers);
    if !Asks(recs) || k == |sts.template.containers| then sts
    else
      WithRequests(sts, k,
        ScaledRequests(sts.template.containers[k].resources.requests, TargetOf(recs).value, playing))
  }

  // ------------------------------------------------------------ the controller's loops

  method FindTarget(recs: seq<Recommendation>) returns (cpu: Option<int>, memory: Option<int>)
    ensures Asks(recs) <==> cpu.Some? || memory.Some?
    ensures Asks(recs) ==> cpu == TargetOf(recs).value.cpu && memory == TargetOf(recs).value.memory
  {
    cpu, memory := None, None;
    for i := 0 to |recs|
      invariant cpu == None && memory == None
      invariant TargetOf(recs) == TargetOf(recs[i..])
    {
      if recs[i].container != GAME {
        assert recs[i..][1..] == recs[i + 1..];
        continue;
      }
      return recs[i].cpu, recs[i].memory;
    }
  }

  /** The requests after applying a recommendation, and whether anything changed. */
  method ScaleRequests(current: map<string, int>, cpu: Option<int>, memory: Option<int>, playing: bool)
    returns (updated: map<string, int>, changed: bool)
    ensures updated == ScaledRequests(current, Recommendation(GAME, cpu, memory), playing)
    ensures changed <==> updated != current
  {
    updated := current;
    changed := false;
    if cpu.Some? {
      if CPU !in current || current[CPU] != cpu.value {
        updated := updated[CPU := cpu.value];
        changed := true;
        assert CPU in current ==> updated[CPU] != current[CPU];
      } else {
        assert current == current[CPU := cpu.value];
      }
    }
    ghost var withCpu := updated;
    if memory.Some? {
      var isScaleDown := MEMORY in current && memory.value < current[MEMORY];
      if isScaleDown && playing {
        // deferred
      } else if MEMORY !in current || current[MEMORY] != memory.value {
        updated := updated[MEMORY := memory.value];
        changed := true;
        assert MEMORY in current ==> updated[MEMORY] != current[MEMORY];
      } else {
        assert withCpu == withCpu[MEMORY := memory.value];
      }
    }
  }

  /** Computes the object to write, if any: `None` exactly when the recommendation changes nothing. */
  method PlanRecommendation(sts: StatefulSet, cpu: Option<int>, memory: Option<int>, playing: bool)
    returns (plan: Option<StatefulSet>)
    ensures var k := GameIndex(sts.template.containers);
      k == |sts.template.containers| ==> plan == None
    ensures var k := GameIndex(sts.template.containers);
      k < |sts.template.containers| ==>
        var c := sts.template.containers[k].resources.requests;
        var scaled := ScaledRequests(c, Recommendation(GAME, cpu, memory), playing);
        plan == if scaled == c then None else Some(WithRequests(sts, k, scaled))
  {
    var cs := sts.template.containers;
    var index := |cs|;
    for i := 0 to |cs|
      invariant GameIndex(cs) == i + GameIndex(cs[i..])
    {
      if cs[i].name == GAME {
        index := i;
        break;
      }
      assert cs[i..][1..] == cs[i + 1..];
    }
    if index == |cs| {
      return None;
    }
    var updated, changed := ScaleRequests(cs[index].resources.requests, cpu, memory, playing);
    if !changed {
      return None;
    }
    return Some(WithRequests(sts, index, updated));
  }

  // ------------------------------------------------------------ what scaling keeps

  /** The first container of the pod is the game. */
  predicate GameLeads(sts: StatefulSet) {
    |sts.template.containers| > 0 && sts.template.containers[0].name == GAME
  }

  function GameImage(sts: StatefulSet): string
    requires GameLeads(sts)
  {
    sts.template.containers[0].image
  }

  function GameRequests(sts: StatefulSet): map<string, int>
    requires GameLeads(sts)
  {
    sts.template.containers[0].resources.requests
  }

  /** Equal up to the cpu and memory requests of the game container and the reported rollout. */
  predicate FrozenButRequests(a: StatefulSet, b: StatefulSet) {
    && GameLeads(a) && GameLeads(b)
    && b == WithRequests(a, 0, GameRequests(b)).(rollout := b.rollout)
    && GameRequests(b) - {CPU, MEMORY} == GameRequests(a) - {CPU, MEMORY}
  }

  predicate MemoryKept(a: StatefulSet, b: StatefulSet) {
    && GameLeads(a) && GameLeads(b)
    && (MEMORY in GameRequests(a) ==>
          MEMORY in GameRequests(b) && GameRequests(b)[MEMORY] >= GameRequests(a)[MEMORY])
  }

  lemma ScaledKeeps(sts: StatefulSet, recs: seq<Recommendation>, playing: bool)
    requires GameLeads(sts)
    ensures var s := Scaled(sts, recs, playing);
      && GameLeads(s) && GameImage(s) == GameImage(sts) && s.rollout == sts.rollout
      && FrozenButRequests(sts, s)
      && (playing ==> MemoryKept(sts, s))
  {
    var s := Scaled(sts, recs, playing);
    assert GameIndex(sts.template.containers) == 0;
    var c := sts.template.containers[0];
    assert c.resources == c.resources.(requests := c.resources.requests);
    assert sts.template.containers == sts.template.containers[0 := c];
    if Asks(recs) {
      assert s.template.containers == sts.template.containers[0 := s.template.containers[0]];
    }
  }

  lemma FrozenTrans(a: StatefulSet, b: StatefulSet, c: StatefulSet)
    requires FrozenButRequests(a, b) && FrozenButRequests(b, c)
    ensures FrozenButRequests(a, c)
  {
    assert c.template.containers == a.template.containers[0 := c.template.containers[0]];
  }
}
