/** The scrape loop of the metrics sidecar: its gauges and what it reports to the status. */
module Scraping {
  import opened Api
  import opened A2S

  /** The labels of the info gauge, besides the fixed server name. */
  datatype Label = Label(mapName: bytes, version: bytes)

  function LabelOf(info: Info): Label { Label(info.mapName, info.version) }

  /** What the sidecar shows and remembers between two scrapes; a gauge that was never set has no value. */
  datatype Display = Display(
    up: Option<nat>, players: Option<nat>, slots: Option<nat>, infos: set<Label>, isUp: bool,
    previous: Option<Info>, everUp: bool)

  const DARK := Display(None, None, None, {}, false, None, false)

  /** The player count and game version written to the status of the resource. */
  datatype PlayerReport = PlayerReport(players: nat, version: bytes)

  function ReportFor(found: Option<Info>): PlayerReport {
    if found.None? then PlayerReport(0, []) else PlayerReport(found.value.players as nat, found.value.version)
  }

  function Scraped(d: Display, found: Option<Info>): Display {
    if found.None? then
      d.(up := Some(0), players := Some(0), isUp := false, previous := None)
    else
      var i := found.value;
      Display(Some(1), Some(i.players as nat), Some(i.maxPlayers as nat),
              (if d.previous.Some? then d.infos - {LabelOf(d.previous.value)} else d.infos) + {LabelOf(i)},
              true, found, true)
  }

  /** A label that was set and remembered is shown. */
  predicate Remembers(d: Display) {
    && (d.previous.Some? ==> LabelOf(d.previous.value) in d.infos)
    && (d.isUp <==> d.previous.Some?) && (d.isUp ==> d.everUp)
  }

  class Sidecar {
    /** Whether the status is patched: inside a cluster, not switched off, and with a server named. */
    const patches: bool
    var serverUp: Option<nat>
    var activePlayers: Option<nat>
    var maxPlayers: Option<nat>
    var serverInfo: set<Label>
    var isUp: bool
    var previousInfo: Option<Info>
    var everUp: bool

    function Shown(): Display
      reads this
    {
      Display(serverUp, activePlayers, maxPlayers, serverInfo, isUp, previousInfo, everUp)
    }

    constructor (patches: bool)
      ensures Shown() == DARK && this.patches == patches
    {
      this.patches := patches;
      serverUp, activePlayers, maxPlayers, serverInfo := None, None, None, {};
      isUp, previousInfo, everUp := false, None, false;
    }

    /** One scrape; `found` is the outcome of the query, `report` what is patched into the status, if anything. */
    method Scrape(found: Option<Info>) returns (report: Option<PlayerReport>)
      requires Remembers(Shown())
      modifies this
      ensures Shown() == Scraped(old(Shown()), found) && Remembers(Shown())
      ensures report == if patches then Some(ReportFor(found)) else None
    {
      if found.None? {
        serverUp := Some(0);
        activePlayers := Some(0);
        isUp := false;
        previousInfo := None;
        if patches {
          return Some(PlayerReport(0, []));
        }
        return None;
      }
      var info := found.value;
      serverUp := Some(1);
      activePlayers := Some(info.players as nat);
      maxPlayers := Some(info.maxPlayers as nat);
      isUp := true;
      if previousInfo.None? || previousInfo.value.mapName != info.mapName || previousInfo.value.version != info.version {
        if previousInfo.Some? {
          serverInfo := serverInfo - {LabelOf(previousInfo.value)};
        }
        serverInfo := serverInfo + {LabelOf(info)};
      }
      previousInfo := found;
      everUp := true;
      if patches {
        return Some(PlayerReport(info.players as nat, info.version));
      }
      return None;
    }
  }

  // ------------------------------------------------------------ the info gauge

  /** Exactly the current labels are shown if and only if nothing but them and the remembered ones was. */
  lemma OneInfoIff(d: Display, info: Info)
    ensures Scraped(d, Some(info)).infos == {LabelOf(info)} <==>
      d.infos <= {LabelOf(info)} + (if d.previous.Some? then {LabelOf(d.previous.value)} else {})
  {
    var before, after := d.infos, Scraped(d, Some(info)).infos;
    if after == {LabelOf(info)} {
      forall l | l in before
        ensures l in {LabelOf(info)} + (if d.previous.Some? then {LabelOf(d.previous.value)} else {})
      {
        assert l in after || (d.previous.Some? && l == LabelOf(d.previous.value));
      }
    }
  }

  function Displays(scrapes: seq<Option<Info>>): Display {
    if scrapes == [] then DARK else Scraped(Displays(scrapes[..|scrapes| - 1]), scrapes[|scrapes| - 1])
  }

  /** The server did not go away again after it came up. */
  predicate NoOutage(scrapes: seq<Option<Info>>) {
    forall i, j :: 0 <= i < j < |scrapes| && scrapes[i].Some? ==> scrapes[j].Some?
  }

  /** As long as there was no outage, exactly the labels of the last answer are shown. */
  lemma {:induction false} OneInfo(scrapes: seq<Option<Info>>)
    requires NoOutage(scrapes)
    ensures var d := Displays(scrapes);
      && (scrapes != [] && scrapes[|scrapes| - 1].Some? ==>
            d.previous == scrapes[|scrapes| - 1] && d.infos == {LabelOf(d.previous.value)})
      && ((scrapes == [] || scrapes[|scrapes| - 1].None?) ==> d.previous.None? && d.infos == {})
  {
    if scrapes != [] {
      var n := |scrapes| - 1;
      OneInfo(scrapes[..n]);
      if scrapes[n].Some? && n > 0 {
        OneInfoIff(Displays(scrapes[..n]), scrapes[n].value);
      } else if scrapes[n].None? && n > 0 {
        assert scrapes[n - 1].None?;
      }
    }
  }

  /** After an outage the old labels linger exactly when the server comes back with others. */
  lemma OutageLeavesOldInfo(before: Info, after: Info)
    ensures Displays([Some(before), None, Some(after)]).infos == {LabelOf(before), LabelOf(after)}
    ensures |Displays([Some(before), None, Some(after)]).infos| == 1 <==> LabelOf(before) == LabelOf(after)
  {
    var s := [Some(before), None, Some(after)];
    assert s[..2] == [Some(before), None] && s[..2][..1] == [Some(before)] && s[..1][..0] == [];
    assert Displays(s[..1]).infos == {LabelOf(before)};
    assert Displays(s[..2]) == Scraped(Displays(s[..1]), None);
    if LabelOf(before) != LabelOf(after) {
      assert |{LabelOf(before), LabelOf(after)}| == 2;
    }
  }

  // ------------------------------------------------------------ what a scrape says

  /** An answer shows up and is reported with the players it counts, of the slots it offers; a
      failed query shows the server down and reports nobody. */
  lemma ScrapeTells(d: Display, found: Option<Info>)
    ensures var v, r := Scraped(d, found), ReportFor(found);
      if found.Some? then
        && v.up == Some(1) && v.isUp && v.everUp && v.players == Some(found.value.players as nat)
        && v.slots == Some(found.value.maxPlayers as nat) && v.previous == found
        && r == PlayerReport(found.value.players as nat, found.value.version)
      else
        && v.up == Some(0) && !v.isUp && v.players == Some(0) && v.slots == d.slots && v.infos == d.infos
        && v.previous.None? && v.everUp == d.everUp && r.players == 0 && r.version == []
  {
  }
}
