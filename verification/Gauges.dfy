/** The operator's gauges: which series exist for which server. */
module Gauges {
  import opened Api

  datatype Key = Key(namespace: string, name: string)
  datatype Series = Series(key: Key, phase: Phase)

  /** Every series by its labels; the phase gauge is always 1. */
  datatype Board = Board(replicas: map<Key, nat>, deferred: map<Key, nat>, phases: map<Series, nat>, window: map<Key, nat>)

  const BLANK := Board(map[], map[], map[], map[])

  function Flag(b: bool): nat { if b then 1 else 0 }

  datatype GaugeCall =
    | Publish(key: Key, replicas: nat, deferred: bool, phase: Phase, oldPhase: Phase, window: bool)
    | Forget(key: Key, phase: Phase)

  function Applied(b: Board, c: GaugeCall): Board {
    match c
    case Publish(k, replicas, deferred, phase, oldPhase, window) =>
      Board(b.replicas[k := replicas], b.deferred[k := Flag(deferred)],
            (if oldPhase != NoPhase && oldPhase != phase then b.phases - {Series(k, oldPhase)} else b.phases)
              [Series(k, phase) := 1],
            b.window[k := Flag(window)])
    case Forget(k, phase) =>
      Board(b.replicas - {k}, b.deferred - {k}, b.phases - {Series(k, phase)}, b.window - {k})
  }

  /** The process-wide gauge vectors. */
  class Collector {
    var readyReplicas: map<Key, nat>
    var updateDeferred: map<Key, nat>
    var phase: map<Series, nat>
    var windowActive: map<Key, nat>

    function Shown(): Board
      reads this
    {
      Board(readyReplicas, updateDeferred, phase, windowActive)
    }

    constructor ()
      ensures Shown() == BLANK
    {
      readyReplicas, updateDeferred, phase, windowActive := map[], map[], map[], map[];
    }

    method SetServerMetrics(k: Key, replicas: nat, deferred: bool, newPhase: Phase, oldPhase: Phase, window: bool)
      modifies this
      ensures Shown() == Applied(old(Shown()), Publish(k, replicas, deferred, newPhase, oldPhase, window))
    {
      readyReplicas := readyReplicas[k := replicas];
      var value := 0;
      if deferred { value := 1; }
      updateDeferred := updateDeferred[k := value];
      if oldPhase != NoPhase && oldPhase != newPhase {
        phase := phase - {Series(k, oldPhase)};
      }
      phase := phase[Series(k, newPhase) := 1];
      var inMaintenance := 0;
      if window { inMaintenance := 1; }
      windowActive := windowActive[k := inMaintenance];
    }

    method DeleteServerMetrics(k: Key, lastPhase: Phase)
      modifies this
      ensures Shown() == Applied(old(Shown()), Forget(k, lastPhase))
    {
      readyReplicas := readyReplicas - {k};
      updateDeferred := updateDeferred - {k};
      phase := phase - {Series(k, lastPhase)};
      windowActive := windowActive - {k};
    }
  }

  // ------------------------------------------------------------ one call

  /** The phases shown for a server. */
  function PhasesOf(b: Board, k: Key): set<Phase> {
    set s | s in b.phases && s.key == k :: s.phase
  }

  /** Nothing shown for the server differs. */
  predicate SameFor(a: Board, b: Board, k: Key) {
    && (k in a.replicas <==> k in b.replicas) && (k in a.replicas ==> a.replicas[k] == b.replicas[k])
    && (k in a.deferred <==> k in b.deferred) && (k in a.deferred ==> a.deferred[k] == b.deferred[k])
    && (k in a.window <==> k in b.window) && (k in a.window ==> a.window[k] == b.window[k])
    && PhasesOf(a, k) == PhasesOf(b, k)
  }

  predicate Shows(b: Board, k: Key, p: Phase) { Series(k, p) in b.phases }

  lemma PhasesOfShows(b: Board, k: Key, p: Phase)
    ensures p in PhasesOf(b, k) <==> Shows(b, k, p)
  {
    if Shows(b, k, p) {
      assert Series(k, p).phase in PhasesOf(b, k);
    }
  }

  /** A call changes nothing that is shown for another server. */
  lemma OthersUntouched(b: Board, c: GaugeCall, k: Key)
    requires k != c.key
    ensures SameFor(b, Applied(b, c), k)
  {
    forall p: Phase ensures p in PhasesOf(b, k) <==> p in PhasesOf(Applied(b, c), k) {
      PhasesOfShows(b, k, p);
      PhasesOfShows(Applied(b, c), k, p);
    }
  }

  function Replaced(oldPhase: Phase): set<Phase> { if oldPhase == NoPhase then {} else {oldPhase} }

  /** The phases shown for the server a call is about, from those shown before. */
  function Shifted(shown: set<Phase>, c: GaugeCall): set<Phase> {
    if c.Publish? then shown - Replaced(c.oldPhase) + {c.phase} else shown - {c.phase}
  }

  lemma PhasesAfter(b: Board, c: GaugeCall)
    ensures PhasesOf(Applied(b, c), c.key) == Shifted(PhasesOf(b, c.key), c)
  {
    var after := Applied(b, c);
    forall p: Phase ensures p in PhasesOf(after, c.key) <==> p in Shifted(PhasesOf(b, c.key), c) {
      PhasesOfShows(b, c.key, p);
      PhasesOfShows(after, c.key, p);
    }
  }

  /** Exactly the new phase is shown if and only if nothing else than it and the named old phase was. */
  lemma PublishLeavesOneIff(b: Board, c: GaugeCall)
    requires c.Publish?
    ensures PhasesOf(Applied(b, c), c.key) == {c.phase} <==>
            PhasesOf(b, c.key) <= {c.phase} + Replaced(c.oldPhase)
  {
    PhasesAfter(b, c);
    var before, after := PhasesOf(b, c.key), PhasesOf(Applied(b, c), c.key);
    if after == {c.phase} {
      forall p | p in before ensures p in {c.phase} + Replaced(c.oldPhase) {
        assert p in Replaced(c.oldPhase) || p in after;
      }
    }
  }

  /** Nothing is left if and only if nothing but the named phase was shown. */
  lemma ForgetLeavesNoneIff(b: Board, c: GaugeCall)
    requires c.Forget?
    ensures c.key !in Applied(b, c).replicas && c.key !in Applied(b, c).deferred && c.key !in Applied(b, c).window
    ensures PhasesOf(Applied(b, c), c.key) == {} <==> PhasesOf(b, c.key) <= {c.phase}
  {
    PhasesAfter(b, c);
    if PhasesOf(Applied(b, c), c.key) == {} {
      forall p | p in PhasesOf(b, c.key) ensures p == c.phase {
        assert p !in PhasesOf(b, c.key) - {c.phase};
      }
    }
  }

  // ------------------------------------------------------------ runs of calls

  function BoardsFrom(b: Board, calls: seq<GaugeCall>): Board {
    if calls == [] then b else Applied(BoardsFrom(b, calls[..|calls| - 1]), calls[|calls| - 1])
  }

  function Boards(calls: seq<GaugeCall>): Board {
    BoardsFrom(BLANK, calls)
  }

  lemma BoardsPush(calls: seq<GaugeCall>, c: GaugeCall)
    ensures Boards(calls + [c]) == Applied(Boards(calls), c)
  {
    assert (calls + [c])[..|calls|] == calls;
  }

  /** The phase last published for a server and not forgotten since. */
  function LastPhase(calls: seq<GaugeCall>, k: Key): Option<Phase> {
    if calls == [] then None
    else
      var c := calls[|calls| - 1];
      if c.key != k then LastPhase(calls[..|calls| - 1], k)
      else if c.Publish? then Some(c.phase)
      else None
  }

  /** The call names the phase last published for its server, if there is one. */
  predicate Names(last: Option<Phase>, c: GaugeCall) {
    match c
    case Publish(_, _, _, _, oldPhase, _) => last.Some? ==> last.value == oldPhase || last.value == c.phase
    case Forget(_, phase) => last.Some? ==> last.value == phase
  }

  predicate WellNamed(calls: seq<GaugeCall>) {
    calls == [] ||
    (WellNamed(calls[..|calls| - 1]) && Names(LastPhase(calls[..|calls| - 1], calls[|calls| - 1].key), calls[|calls| - 1])
     && (calls[|calls| - 1].Publish? ==> calls[|calls| - 1].phase != NoPhase))
  }

  /** Over any run of calls that name the phase last published, each server shows exactly that
      phase, and none once it has been forgotten. */
  lemma {:induction false} OnePhase(calls: seq<GaugeCall>, k: Key)
    requires WellNamed(calls)
    ensures PhasesOf(Boards(calls), k) == match LastPhase(calls, k) case Some(p) => {p} case None => {}
    ensures LastPhase(calls, k) != Some(NoPhase)
  {
    if calls != [] {
      var before, c := calls[..|calls| - 1], calls[|calls| - 1];
      OnePhase(before, k);
      if c.key != k {
        OthersUntouched(Boards(before), c, k);
      } else {
        PhasesAfter(Boards(before), c);
      }
    }
  }

  lemma TwoPhases(p: Phase, q: Phase)
    requires p != q
    ensures |{p, q}| == 2
  {
  }

  /** A publication that does not name the phase last published leaves two phases. */
  lemma MisnamedPhaseLingers(first: GaugeCall, second: GaugeCall)
    requires first.Publish? && second.Publish? && first.key == second.key
    requires first.phase != second.oldPhase && first.phase != second.phase
    ensures PhasesOf(Boards([first, second]), first.key) == {first.phase, second.phase}
    ensures |PhasesOf(Boards([first, second]), first.key)| == 2
  {
    var one := Applied(BLANK, first);
    assert PhasesOf(BLANK, first.key) == {};
    PhasesAfter(BLANK, first);
    assert PhasesOf(one, first.key) == {first.phase};
    PhasesAfter(one, second);
    assert Shifted({first.phase}, second) == {first.phase, second.phase};
    BoardsOfTwo(first, second);
    TwoPhases(first.phase, second.phase);
  }

  lemma BoardsOfTwo(first: GaugeCall, second: GaugeCall)
    ensures Boards([first, second]) == Applied(Applied(BLANK, first), second)
  {
    assert [first, second] == [] + [first] + [second];
    BoardsPush([], first);
    BoardsPush([] + [first], second);
  }

  // ------------------------------------------------------------ what a publication shows

  /** The values shown for the server after a publication. */
  lemma PublishShows(b: Board, c: GaugeCall)
    requires c.Publish?
    ensures var v := Applied(b, c);
      && c.key in v.replicas && v.replicas[c.key] == c.replicas
      && c.key in v.deferred && v.deferred[c.key] == (if c.deferred then 1 else 0)
      && c.key in v.window && v.window[c.key] == (if c.window then 1 else 0)
      && Series(c.key, c.phase) in v.phases && v.phases[Series(c.key, c.phase)] == 1
  {
  }
}
