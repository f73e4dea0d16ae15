/** The maintenance-window matcher of the controller: a cron tokenizer, a
    list/range matcher and a digit reader, each written by hand as a loop.

    Every method is proved equal to a recursive reading of the text; the file
    `CronSyntax.dfy` then says what those readings mean for windows printed
    from a syntax tree.
 */
module Cron {

  /** The wall clock in one time zone: the hour 0..23 and the weekday 0..6 (Sunday is 0). */
  datatype LocalTime = LocalTime(hour: int, weekday: int)

  /** One instant, seen as the wall clock it shows in UTC and in every zone the
      host can load.  A zone that cannot be loaded is simply not in the map. */
  datatype Instant = Instant(utc: LocalTime, zones: map<string, LocalTime>)

  function TimeIn(t: Instant, zone: string): LocalTime {
    if zone in t.zones then t.zones[zone] else t.utc
  }

  // ------------------------------------------------------------ digits

  const TWO_TO_63: int := 0x8000_0000_0000_0000

  /** Go's 64-bit `int` arithmetic. */
  function Wrap(x: int): int {
    (x + TWO_TO_63) % (2 * TWO_TO_63) - TWO_TO_63
  }

  predicate IsDigit(c: char) {
    '0' <= c <= '9'
  }

  /** The number a text denotes: its digits read left to right, all else ignored. */
  function Value(s: string): int {
    if s == "" then
      0
    else
      var n, c := Value(s[..|s| - 1]), s[|s| - 1];
      if IsDigit(c) then Wrap(n * 10 + (c as int - '0' as int)) else n
  }

  method Atoi(s: string) returns (n: int)
    ensures n == Value(s)
  {
    n := 0;
    for i := 0 to |s|
      invariant n == Value(s[..i])
    {
      var c := s[i];
      assert s[..i + 1][..i] == s[..i];
      if '0' <= c <= '9' {
        n := Wrap(n * 10 + (c as int - '0' as int));
      }
    }
    assert s[..|s|] == s;
  }

  // ------------------------------------------------------------ lists and ranges

  /** The position of the first `c` in `s`, or `|s|` when there is none. */
  function IndexOf(s: string, c: char): (k: nat)
    ensures k <= |s|
    ensures c !in s[..k]
    ensures k < |s| ==> s[k] == c
  {
    if s == "" || s[0] == c then
      0
    else
      var k := 1 + IndexOf(s[1..], c);
      assert s[..k] == [s[0]] + s[1..][..k - 1];
      k
  }

  lemma {:induction false} IndexOfAt(s: string, c: char, k: nat)
    requires k <= |s| && c !in s[..k] && (k < |s| ==> s[k] == c)
    ensures IndexOf(s, c) == k
  {
    if k > 0 {
      assert s[0] == s[..k][0];
      assert s[..k] == [s[0]] + s[1..][..k - 1];
      IndexOfAt(s[1..], c, k - 1);
    }
  }

  /** The pieces of `s` between its commas; always at least one piece. */
  function Pieces(s: string): (r: seq<string>)
    ensures |r| > 0
    decreases |s|
  {
    var k := IndexOf(s, ',');
    if k == |s| then [s] else [s[..k]] + Pieces(s[k + 1..])
  }

  lemma PiecesStep(cur: string, rest: string)
    requires ',' !in cur
    ensures Pieces(cur + "," + rest) == [cur] + Pieces(rest)
    ensures Pieces(cur) == [cur]
  {
    var s := cur + "," + rest;
    assert s[..|cur|] == cur;
    IndexOfAt(s, ',', |cur|);
    assert s[|cur| + 1..] == rest;
    assert cur[..|cur|] == cur;
    IndexOfAt(cur, ',', |cur|);
  }

  /** The loop reads a comma behind the pending piece, */
  lemma PiecesComma(out: seq<string>, cur: string, s: string, i: nat)
    requires ',' !in cur && i < |s| && s[i] == ','
    ensures out + Pieces(cur + s[i..]) == (out + [cur]) + Pieces("" + s[i + 1..])
  {
    var tail := s[i + 1..];
    assert cur + s[i..] == cur + "," + tail && "" + tail == tail;
    PiecesStep(cur, tail);
    assert out + ([cur] + Pieces(tail)) == (out + [cur]) + Pieces(tail);
  }

  /** any other character, */
  lemma Shift(cur: string, s: string, i: nat)
    requires i < |s|
    ensures cur + s[i..] == (cur + [s[i]]) + s[i + 1..]
  {
  }

  /** or the end of the text. */
  lemma PiecesEnd(out: seq<string>, cur: string, s: string)
    requires ',' !in cur
    ensures out + Pieces(cur + s[|s|..]) == out + [cur]
  {
    assert cur + s[|s|..] == cur;
    PiecesStep(cur, "");
  }

  method SplitByComma(s: string) returns (out: seq<string>)
    ensures out == Pieces(s)
  {
    out := [];
    var cur := "";
    assert cur + s[0..] == s;
    for i := 0 to |s|
      invariant ',' !in cur
      invariant out + Pieces(cur + s[i..]) == Pieces(s)
    {
      var c := s[i];
      if c == ',' {
        PiecesComma(out, cur, s, i);
        out := out + [cur];
        cur := "";
      } else {
        Shift(cur, s, i);
        cur := cur + [c];
      }
    }
    PiecesEnd(out, cur, s);
    out := out + [cur];
  }

  predicate RangeMatches(part: string, value: int) {
    var k := IndexOf(part, '-');
    if k < |part| then
      Value(part[..k]) <= value <= Value(part[k + 1..])
    else
      Value(part) == value
  }

  method MatchRange(part: string, value: int) returns (b: bool)
    ensures b == RangeMatches(part, value)
  {
    for i := 0 to |part|
      invariant '-' !in part[..i]
    {
      if part[i] == '-' {
        IndexOfAt(part, '-', i);
        var lo := Atoi(part[..i]);
        var hi := Atoi(part[i + 1..]);
        return value >= lo && value <= hi;
      }
    }
    IndexOfAt(part, '-', |part|);
    var n := Atoi(part);
    return n == value;
  }

  predicate FieldMatches(field: string, value: int) {
    field == "*" || exists k :: 0 <= k < |Pieces(field)| && RangeMatches(Pieces(field)[k], value)
  }

  method MatchCronField(field: string, value: int) returns (b: bool)
    ensures b == FieldMatches(field, value)
  {
    if field == "*" {
      return true;
    }
    var parts := SplitByComma(field);
    for i := 0 to |parts|
      invariant forall k :: 0 <= k < i ==> !RangeMatches(parts[k], value)
    {
      var hit := MatchRange(parts[i], value);
      if hit {
        return true;
      }
    }
    return false;
  }

  // ------------------------------------------------------------ fields

  predicate IsBlank(c: char) {
    c == ' ' || c == '\t'
  }

  predicate Blank(s: string) {
    forall k :: 0 <= k < |s| ==> IsBlank(s[k])
  }

  predicate Solid(s: string) {
    forall k :: 0 <= k < |s| ==> !IsBlank(s[k])
  }

  /** Length of the longest blank-free prefix. */
  function WordLength(s: string): (n: nat)
    ensures n <= |s|
    ensures forall k :: 0 <= k < n ==> !IsBlank(s[k])
    ensures n < |s| ==> IsBlank(s[n])
  {
    if s == "" || IsBlank(s[0]) then
      0
    else
      var n := 1 + WordLength(s[1..]);
      assert forall k :: 1 <= k < n ==> s[k] == s[1..][k - 1];
      n
  }

  /** The maximal blank-free runs of `s`, in order. */
  function Words(s: string): seq<string>
    decreases |s|
  {
    if s == "" then
      []
    else if IsBlank(s[0]) then
      Words(s[1..])
    else
      [s[..WordLength(s)]] + Words(s[WordLength(s)..])
  }

  /** A word in front of a blank, or of the end of the text, is split off whole. */
  lemma WordsStep(cur: string, rest: string)
    requires Solid(cur) && cur != ""
    requires rest == "" || IsBlank(rest[0])
    ensures Words(cur + rest) == [cur] + Words(rest)
  {
    var s := cur + rest;
    assert forall k :: 0 <= k < |cur| ==> s[k] == cur[k];
    assert rest != "" ==> s[|cur|] == rest[0];
    assert s[..|cur|] == cur && s[|cur|..] == rest;
  }

  lemma {:induction false} WordsSkip(blank: string, rest: string)
    requires Blank(blank)
    ensures Words(blank + rest) == Words(rest)
  {
    if blank == "" {
      assert blank + rest == rest;
    } else {
      assert (blank + rest)[1..] == blank[1..] + rest;
      WordsSkip(blank[1..], rest);
    }
  }

  lemma WordsBlank(fields: seq<string>, cur: string, s: string, i: nat)
    requires Solid(cur) && i < |s| && IsBlank(s[i])
    ensures fields + Words(cur + s[i..]) == (if cur == "" then fields else fields + [cur]) + Words("" + s[i + 1..])
  {
    var tail := s[i + 1..];
    assert s[i..] == [s[i]] + tail && "" + tail == tail;
    WordsSkip([s[i]], tail);
    if cur == "" {
      assert cur + s[i..] == s[i..];
    } else {
      WordsStep(cur, s[i..]);
      assert fields + ([cur] + Words(tail)) == (fields + [cur]) + Words(tail);
    }
  }

  lemma WordsEnd(fields: seq<string>, cur: string, s: string)
    requires Solid(cur)
    ensures fields + Words(cur + s[|s|..]) == if cur == "" then fields else fields + [cur]
  {
    assert cur + s[|s|..] == cur + "";
    if cur != "" {
      WordsStep(cur, "");
    }
  }

  method SplitFields(s: string) returns (fields: seq<string>)
    ensures fields == Words(s)
  {
    fields := [];
    var cur := "";
    assert cur + s[0..] == s;
    for i := 0 to |s|
      invariant Solid(cur)
      invariant fields + Words(cur + s[i..]) == Words(s)
    {
      var c := s[i];
      if c == ' ' || c == '\t' {
        WordsBlank(fields, cur, s, i);
        if cur != "" {
          fields := fields + [cur];
          cur := "";
        }
      } else {
        Shift(cur, s, i);
        cur := cur + [c];
      }
    }
    WordsEnd(fields, cur, s);
    if cur != "" {
      fields := fields + [cur];
    }
  }

  // ------------------------------------------------------------ windows

  predicate HasZone(expr: string) {
    |expr| > 3 && expr[..3] == "TZ="
  }

  /** Where the zone name after `TZ=` ends: at the first space, or at the end of the text. */
  function ZoneEnd(expr: string): (k: nat)
    requires |expr| > 3
    ensures 3 <= k <= |expr|
  {
    3 + IndexOf(expr[3..], ' ')
  }

  /** The wall clock an expression is evaluated against. */
  function ZonedTime(t: Instant, expr: string): LocalTime {
    if HasZone(expr) then TimeIn(t, expr[3..ZoneEnd(expr)]) else t.utc
  }

  /** The cron text after the zone prefix; with nothing after the zone name it is the whole text. */
  function CronText(expr: string): string {
    if HasZone(expr) && ZoneEnd(expr) < |expr| then expr[ZoneEnd(expr) + 1..] else expr
  }

  predicate WindowMatches(t: Instant, expr: string) {
    var now, fields := ZonedTime(t, expr), Words(CronText(expr));
    |fields| == 5 && FieldMatches(fields[1], now.hour) && FieldMatches(fields[4], now.weekday)
  }

  method InWindow(t: Instant, expr: string) returns (b: bool)
    ensures b == WindowMatches(t, expr)
  {
    var now := t.utc;
    var rest := expr;
    if |expr| > 3 && expr[..3] == "TZ=" {
      var end := 3;
      while end < |expr| && expr[end] != ' '
        invariant 3 <= end <= |expr|
        invariant ' ' !in expr[3..end]
      {
        end := end + 1;
      }
      assert expr[3..][..end - 3] == expr[3..end];
      IndexOfAt(expr[3..], ' ', end - 3);
      now := TimeIn(t, expr[3..end]);
      if end < |expr| {
        rest := expr[end + 1..];
      }
    }
    var fields := SplitFields(rest);
    if |fields| != 5 {
      return false;
    }
    var hour := MatchCronField(fields[1], now.hour);
    if !hour {
      return false;
    }
    b := MatchCronField(fields[4], now.weekday);
  }

  /** Some configured window is open at `t`. */
  predicate InAnyWindow(windows: seq<string>, t: Instant) {
    exists k :: 0 <= k < |windows| && WindowMatches(t, windows[k])
  }

  method IsInMaintenanceWindow(windows: seq<string>, now: Instant) returns (b: bool)
    ensures b == InAnyWindow(windows, now)
  {
    if |windows| == 0 {
      return false;
    }
    for i := 0 to |windows|
      invariant forall k :: 0 <= k < i ==> !WindowMatches(now, windows[k])
    {
      var hit := InWindow(now, windows[i]);
      if hit {
        return true;
      }
    }
    return false;
  }
}
