/** What becomes of a recommendation, in the terms of the stored requests. */
module ScalingMeaning {
  import opened Api
  import opened Objects
  import opened Vertical
  import opened Protocol

  /** The first entry for the game container, by its place in the list. */
  predicate FirstFor(recs: seq<Recommendation>, r: nat) {
    && r < |recs| && recs[r].container == "enshrouded-server"
    && forall k :: 0 <= k < r ==> recs[k].container != "enshrouded-server"
  }

  predicate FirstGame(cs: seq<Container>, g: nat) {
    && g < |cs| && cs[g].name == "enshrouded-server"
    && forall k :: 0 <= k < g ==> cs[k].name != "enshrouded-server"
  }

  lemma {:induction false} TargetIsFirst(recs: seq<Recommendation>, r: nat)
    requires FirstFor(recs, r)
    ensures TargetOf(recs) == Some(recs[r])
  {
    if r > 0 {
      assert recs[0].container != "enshrouded-server";
      assert FirstFor(recs[1..], r - 1);
      TargetIsFirst(recs[1..], r - 1);
    }
  }

  lemma {:induction false} NoTarget(recs: seq<Recommendation>)
    requires forall k :: 0 <= k < |recs| ==> recs[k].container != "enshrouded-server"
    ensures TargetOf(recs).None?
  {
    if recs != [] {
      NoTarget(recs[1..]);
    }
  }

  lemma {:induction false} GameIsFirst(cs: seq<Container>, g: nat)
    requires FirstGame(cs, g)
    ensures GameIndex(cs) == g
  {
    if g > 0 {
      assert cs[0].name != "enshrouded-server";
      assert FirstGame(cs[1..], g - 1);
      GameIsFirst(cs[1..], g - 1);
    }
  }

  /** One quantity after a recommendation for it, if there is one. */
  predicate Follows(before: map<string, int>, after: map<string, int>, key: string, target: Option<int>, held: bool) {
    if target.Some? && !held then key in after && after[key] == target.value
    else (key in after <==> key in before) && (key in before ==> after[key] == before[key])
  }

  /** The requests follow the recommendation, except that memory is not lowered while people play. */
  ghost predicate Arrives(before: map<string, int>, after: map<string, int>, rec: Recommendation, playing: bool) {
    && Follows(before, after, "cpu", rec.cpu, false)
    && Follows(before, after, "memory", rec.memory,
               playing && rec.memory.Some? && "memory" in before && rec.memory.value < before["memory"])
    && forall key :: key != "cpu" && key != "memory" ==> Follows(before, after, key, None, false)
  }

  lemma RequestsArrive(before: map<string, int>, rec: Recommendation, playing: bool)
    ensures Arrives(before, ScaledRequests(before, rec, playing), rec, playing)
  {
  }

  lemma NothingAsked(before: map<string, int>, rec: Recommendation, playing: bool)
    requires rec.cpu.None? && rec.memory.None?
    ensures Arrives(before, before, rec, playing)
  {
  }

  /** The StatefulSet after an update of the game container's requests only. */
  predicate Only(a: StatefulSet, b: StatefulSet, g: nat) {
    && g < |a.template.containers| == |b.template.containers|
    && b == a.(template := a.template.(containers := b.template.containers))
    && b.template.containers == a.template.containers[g := b.template.containers[g]]
    && b.template.containers[g] == a.template.containers[g].(resources := b.template.containers[g].resources)
    && b.template.containers[g].resources.limits == a.template.containers[g].resources.limits
  }

  lemma ScaledArrives(sts: StatefulSet, recs: seq<Recommendation>, r: nat, g: nat, playing: bool)
    requires FirstFor(recs, r) && FirstGame(sts.template.containers, g)
    ensures var after := Scaled(sts, recs, playing);
      && Only(sts, after, g)
      && Arrives(sts.template.containers[g].resources.requests, after.template.containers[g].resources.requests, recs[r], playing)
  {
    TargetIsFirst(recs, r);
    GameIsFirst(sts.template.containers, g);
    var c := sts.template.containers[g];
    RequestsArrive(c.resources.requests, recs[r], playing);
    assert c.resources == c.resources.(requests := c.resources.requests);
    if !Asks(recs) {
      NothingAsked(c.resources.requests, recs[r], playing);
    }
  }

  lemma LatestAfterAdvice(sets: seq<Option<StatefulSet>>, recs: seq<Recommendation>, playing: bool)
    requires |sets| > 0 && Latest(sets).Some?
    ensures CanApply(sets, |sets| - 1, recs, playing)
    ensures Latest(SetsAfterAdvice(sets, |sets| - 1, recs, playing)) == Some(Scaled(Latest(sets).value, recs, playing))
  {
  }

  /** The operator applies recommendations itself, and there are some. */
  predicate Advises(w: World) {
    w.op.server.spec.scaling.enabled && w.op.server.spec.scaling.mode == WhenIdle && w.kids.vpa.Some?
  }

  /** With a current read the recommendation arrives: the stored StatefulSet requests the
      recommended cpu, playing or not, and the recommended memory unless people play and it is
      less than what is requested; what is not asked for stays, and so does all else. */
  lemma RecommendationArrives(w: World, r: nat, g: nat)
    requires w.op.pc == AtScaling && |w.sets| > 0 && Latest(w.sets).Some? && Advises(w)
    requires FirstFor(w.kids.vpa.value.recommendations, r) && FirstGame(Latest(w.sets).value.template.containers, g)
    ensures var v := Step(w, Operate(ApplyRecommendation(|w.sets| - 1)));
      && v.op.pc == AtPolicy && Latest(v.sets).Some? && Only(Latest(w.sets).value, Latest(v.sets).value, g)
      && Arrives(Latest(w.sets).value.template.containers[g].resources.requests,
                 Latest(v.sets).value.template.containers[g].resources.requests,
                 w.kids.vpa.value.recommendations[r], w.op.server.status.activePlayers > 0)
  {
    var recs, playing := w.kids.vpa.value.recommendations, w.op.server.status.activePlayers > 0;
    ScaledArrives(Latest(w.sets).value, recs, r, g, playing);
    LatestAfterAdvice(w.sets, recs, playing);
    AppliedStep(w, recs);
  }

  lemma AppliedStep(w: World, recs: seq<Recommendation>)
    requires w.op.pc == AtScaling && |w.sets| > 0 && Advises(w) && recs == w.kids.vpa.value.recommendations
    ensures var v := Step(w, Operate(ApplyRecommendation(|w.sets| - 1)));
      var playing := w.op.server.status.activePlayers > 0;
      && v.sets == SetsAfterAdvice(w.sets, |w.sets| - 1, recs, playing)
      && (CanApply(w.sets, |w.sets| - 1, recs, playing) ==> v.op.pc == AtPolicy)
  {
    assert Callable(w, ApplyRecommendation(|w.sets| - 1));
  }

  /** In any other mode, without an autoscaler object, or without an entry for the game,
      the StatefulSet is left alone. */
  lemma NoAdviceNoChange(w: World, at: nat)
    requires w.op.pc == AtScaling && at < |w.sets|
    requires !Advises(w) || forall k :: 0 <= k < |w.kids.vpa.value.recommendations| ==>
                              w.kids.vpa.value.recommendations[k].container != "enshrouded-server"
    ensures var v := Step(w, Operate(ApplyRecommendation(at))); v.sets == w.sets && v.op.pc == AtPolicy
  {
    NoTarget(Advice(w.op.server.spec.scaling, w.kids.vpa));
    assert Callable(w, ApplyRecommendation(at));
  }

  /** The autoscaler object is there exactly if scaling is enabled, acts by itself exactly in mode
      InPlace, and keeps its recommendations. */
  lemma AutoscalerAsAsked(w: World)
    requires w.op.pc == AtVpa
    ensures var v, s := Step(w, Operate(EnsureVpa(true))).kids.vpa, w.op.server.spec.scaling;
      && (v.Some? <==> s.enabled)
      && (v.Some? ==> (v.value.inPlace <==> s.mode == InPlace))
      && (v.Some? && w.kids.vpa.Some? ==> v.value.recommendations == w.kids.vpa.value.recommendations)
      && (v.Some? && w.kids.vpa.None? ==> v.value.recommendations == [])
    ensures Step(w, Operate(EnsureVpa(false))).kids.vpa == w.kids.vpa
  {
  }
}
