/** What a maintenance window means.

    A window is given as a syntax tree with a printer (any layout of spaces and
    tabs) and a denotation (a set of hours and a set of weekdays).  The main
    theorem, `WindowMeaning`, says that the matcher of module `Cron` decides
    exactly that denotation on every printed window.
 */
module CronSyntax {
  import opened Cron

  /** A list entry: a number or an inclusive range.  Numbers fit Go's `int`. */
  datatype Item = Single(n: nat) | Range(lo: nat, hi: nat) {
    predicate Fits() {
      match this
      case Single(n) => n < TWO_TO_63
      case Range(lo, hi) => lo < TWO_TO_63 && hi < TWO_TO_63
    }

    predicate Denotes(value: int) {
      match this
      case Single(n) => n == value
      case Range(lo, hi) => lo <= value <= hi
    }

    function Text(): string {
      match this
      case Single(n) => Decimal(n)
      case Range(lo, hi) => Decimal(lo) + "-" + Decimal(hi)
    }
  }

  datatype Field = Star | List(items: seq<Item>) {
    predicate WellFormed() {
      List? ==> |items| > 0 && forall k :: 0 <= k < |items| ==> items[k].Fits()
    }

    predicate Denotes(value: int) {
      Star? || exists k :: 0 <= k < |items| && items[k].Denotes(value)
    }

    function Text(): string
      requires WellFormed()
    {
      if Star? then "*" else Join(Texts(items))
    }
  }

  /** A window: an optional zone, five fields, and the blank runs around and
      between them.  Minute, day of month and month are arbitrary words. */
  datatype Window = Window(
    zone: string, zoned: bool,
    lead: string, minute: string, gap1: string, hour: Field, gap2: string,
    day: string, gap3: string, month: string, gap4: string, weekday: Field, tail: string)
  {
    predicate WellFormed() {
      && ' ' !in zone
      && Blank(lead) && Blank(tail)
      && Gap(gap1) && Gap(gap2) && Gap(gap3) && Gap(gap4)
      && Word(minute) && Word(day) && Word(month)
      && hour.WellFormed() && weekday.WellFormed()
      // without a zone, the text must not look as if it had one
      && (!zoned ==> !("TZ=" <= minute))
    }

    function Body(): string
      requires WellFormed()
    {
      lead + (minute + (gap1 + (hour.Text() + (gap2 + (day + (gap3 + (month + (gap4 + (weekday.Text() + tail)))))))))
    }

    function Text(): string
      requires WellFormed()
    {
      if zoned then "TZ=" + zone + " " + Body() else Body()
    }
  }

  predicate Gap(s: string) { s != "" && Blank(s) }
  predicate Word(s: string) { s != "" && Solid(s) }

  // ------------------------------------------------------------ numbers

  function Digit(d: nat): char
    requires d < 10
  {
    ('0' as int + d) as char
  }

  function Decimal(n: nat): (s: string)
    ensures s != ""
    ensures forall k :: 0 <= k < |s| ==> IsDigit(s[k])
  {
    if n < 10 then [Digit(n)] else Decimal(n / 10) + [Digit(n % 10)]
  }

  lemma ValueOfDigit(s: string, d: nat)
    requires d < 10 && 0 <= Value(s) * 10 + d < TWO_TO_63
    ensures Value(s + [Digit(d)]) == Value(s) * 10 + d
  {
    assert (s + [Digit(d)])[..|s|] == s;
  }

  /** The digit reader inverts decimal printing on every number Go's `int` can hold. */
  lemma {:induction false} ValueOfDecimal(n: nat)
    requires n < TWO_TO_63
    ensures Value(Decimal(n)) == n
  {
    if n < 10 {
      ValueOfDigit("", n);
      assert "" + [Digit(n)] == [Digit(n)];
    } else {
      ValueOfDecimal(n / 10);
      ValueOfDigit(Decimal(n / 10), n % 10);
    }
  }

  // ------------------------------------------------------------ lists

  function Texts(items: seq<Item>): (r: seq<string>)
    ensures |r| == |items|
  {
    seq(|items|, k requires 0 <= k < |items| => items[k].Text())
  }

  function Join(parts: seq<string>): string
    requires |parts| > 0
  {
    if |parts| == 1 then parts[0] else parts[0] + "," + Join(parts[1..])
  }

  /** Splitting at commas inverts joining with commas. */
  lemma {:induction false} PiecesOfJoin(parts: seq<string>)
    requires |parts| > 0
    requires forall k :: 0 <= k < |parts| ==> ',' !in parts[k]
    ensures Pieces(Join(parts)) == parts
  {
    PiecesStep(parts[0], "");
    if |parts| > 1 {
      PiecesStep(parts[0], Join(parts[1..]));
      PiecesOfJoin(parts[1..]);
      assert parts == [parts[0]] + parts[1..];
    }
  }

  lemma JoinCons(part: string, parts: seq<string>)
    requires |parts| > 0
    ensures Join([part] + parts) == part + "," + Join(parts)
  {
    assert ([part] + parts)[1..] == parts;
  }

  /** ... and joining inverts splitting, on every text: nothing is lost or invented. */
  lemma {:induction false} JoinOfPieces(s: string)
    ensures Join(Pieces(s)) == s
    decreases |s|
  {
    var k := IndexOf(s, ',');
    if k < |s| {
      JoinOfPieces(s[k + 1..]);
      JoinCons(s[..k], Pieces(s[k + 1..]));
      assert s == s[..k] + "," + s[k + 1..];
    }
  }

  lemma ItemChars(item: Item)
    ensures item.Text() != ""
    ensures forall k :: 0 <= k < |item.Text()| ==> IsDigit(item.Text()[k]) || item.Text()[k] == '-'
  {
  }

  lemma ItemMeaning(item: Item, value: int)
    requires item.Fits()
    ensures RangeMatches(item.Text(), value) == item.Denotes(value)
  {
    var s := item.Text();
    match item
    case Single(n) =>
      assert s[..|s|] == s;
      IndexOfAt(s, '-', |s|);
      ValueOfDecimal(n);
    case Range(lo, hi) =>
      var k := |Decimal(lo)|;
      assert s[..k] == Decimal(lo) && s[k + 1..] == Decimal(hi);
      IndexOfAt(s, '-', k);
      ValueOfDecimal(lo);
      ValueOfDecimal(hi);
  }

  lemma FieldMeaning(f: Field, value: int)
    requires f.WellFormed()
    ensures FieldMatches(f.Text(), value) == f.Denotes(value)
  {
    if f.List? {
      var parts := Texts(f.items);
      forall k | 0 <= k < |parts|
        ensures ',' !in parts[k] && RangeMatches(parts[k], value) == f.items[k].Denotes(value)
      {
        ItemChars(f.items[k]);
        ItemMeaning(f.items[k], value);
      }
      PiecesOfJoin(parts);
      JoinChars(f.items);
      assert FieldMatches(f.Text(), value) ==
             exists k :: 0 <= k < |parts| && RangeMatches(parts[k], value);
      if f.Denotes(value) {
        var k :| 0 <= k < |f.items| && f.items[k].Denotes(value);
        assert RangeMatches(parts[k], value);
      }
    }
  }

  /** A printed list is a word of digits, dashes and commas; in particular it is not the star. */
  lemma {:induction false} JoinChars(items: seq<Item>)
    requires |items| > 0
    ensures var s := Join(Texts(items));
      s != "" && forall k :: 0 <= k < |s| ==> IsDigit(s[k]) || s[k] == '-' || s[k] == ','
    decreases |items|
  {
    ItemChars(items[0]);
    if |items| > 1 {
      assert Texts(items)[1..] == Texts(items[1..]);
      JoinChars(items[1..]);
    }
  }

  lemma FieldIsWord(f: Field)
    requires f.WellFormed()
    ensures Word(f.Text())
  {
    if f.List? {
      JoinChars(f.items);
    }
  }

  // ------------------------------------------------------------ layout

  lemma NextWord(gap: string, word: string, rest: string)
    requires Blank(gap) && Word(word) && (rest == "" || IsBlank(rest[0]))
    ensures Words(gap + (word + rest)) == [word] + Words(rest)
  {
    WordsSkip(gap, word + rest);
    WordsStep(word, rest);
  }

  lemma BodyWords(w: Window)
    requires w.WellFormed()
    ensures Words(w.Body()) == [w.minute, w.hour.Text(), w.day, w.month, w.weekday.Text()]
  {
    FieldIsWord(w.hour);
    FieldIsWord(w.weekday);
    var r5 := w.tail;
    var r4 := w.gap4 + (w.weekday.Text() + r5);
    var r3 := w.gap3 + (w.month + r4);
    var r2 := w.gap2 + (w.day + r3);
    var r1 := w.gap1 + (w.hour.Text() + r2);
    WordsSkip(r5, "");
    assert r5 + "" == r5;
    NextWord(w.gap4, w.weekday.Text(), r5);
    NextWord(w.gap3, w.month, r4);
    NextWord(w.gap2, w.day, r3);
    NextWord(w.gap1, w.hour.Text(), r2);
    NextWord(w.lead, w.minute, r1);
  }

  lemma BodyHasNoZone(w: Window)
    requires w.WellFormed() && !w.zoned
    ensures !HasZone(w.Body())
  {
    var s := w.Body();
    FieldIsWord(w.hour);
    if |s| > 3 {
      assert s[..3][0] == s[0] && s[..3][1] == s[1] && s[..3][2] == s[2];
      if w.lead != "" {
        assert s[0] == w.lead[0];
      } else if |w.minute| < 3 {
        assert s[|w.minute|] == w.gap1[0];
      } else {
        assert s[..3] == w.minute[..3];
      }
    }
  }

  lemma ZonePrefix(w: Window)
    requires w.WellFormed() && w.zoned
    ensures HasZone(w.Text())
    ensures w.Text()[3..ZoneEnd(w.Text())] == w.zone
    ensures CronText(w.Text()) == w.Body()
  {
    var s := w.Text();
    assert s[..3] == "TZ=";
    assert s[3..] == w.zone + " " + w.Body();
    assert s[3..][..|w.zone|] == w.zone;
    IndexOfAt(s[3..], ' ', |w.zone|);
    assert s[ZoneEnd(s) + 1..] == w.Body();
  }

  /** The matcher decides the denotation: whatever the layout and whatever the
      minute, day-of-month and month fields say, a printed window is open at
      `t` exactly when the hour and the weekday of its zone lie in the denoted
      sets; a zone the host cannot load is read as UTC. */
  lemma WindowMeaning(w: Window, t: Instant)
    requires w.WellFormed()
    ensures var now := if w.zoned && w.zone in t.zones then t.zones[w.zone] else t.utc;
      WindowMatches(t, w.Text()) <==> w.hour.Denotes(now.hour) && w.weekday.Denotes(now.weekday)
  {
    if w.zoned {
      ZonePrefix(w);
    } else {
      BodyHasNoZone(w);
    }
    BodyWords(w);
    var now := ZonedTime(t, w.Text());
    FieldMeaning(w.hour, now.hour);
    FieldMeaning(w.weekday, now.weekday);
  }

  /** The hour and the weekday that count for the window lie in the sets it denotes. */
  predicate OpenAt(w: Window, t: Instant) {
    var now := if w.zoned && w.zone in t.zones then t.zones[w.zone] else t.utc;
    w.hour.Denotes(now.hour) && w.weekday.Denotes(now.weekday)
  }

  predicate AllWellFormed(ws: seq<Window>) {
    forall k :: 0 <= k < |ws| ==> ws[k].WellFormed()
  }

  function WindowTexts(ws: seq<Window>): (r: seq<string>)
    requires AllWellFormed(ws)
    ensures |r| == |ws| && forall k :: 0 <= k < |ws| ==> r[k] == ws[k].Text()
  {
    seq(|ws|, k requires 0 <= k < |ws| => ws[k].Text())
  }

  /** A list of windows is open exactly when some window of the list is, wherever it stands. */
  lemma WindowsMeaning(ws: seq<Window>, t: Instant)
    requires AllWellFormed(ws)
    ensures InAnyWindow(WindowTexts(ws), t) <==> exists k :: 0 <= k < |ws| && OpenAt(ws[k], t)
  {
    var texts := WindowTexts(ws);
    forall k | 0 <= k < |ws| ensures WindowMatches(t, texts[k]) <==> OpenAt(ws[k], t) {
      WindowMeaning(ws[k], t);
    }
    if k :| 0 <= k < |ws| && OpenAt(ws[k], t) {
      assert WindowMatches(t, texts[k]);
    }
  }

  /** Order and repetition of the windows do not matter, whatever their texts are. */
  lemma WindowsAsSet(a: seq<string>, b: seq<string>, t: Instant)
    requires forall x :: x in a <==> x in b
    ensures InAnyWindow(a, t) == InAnyWindow(b, t)
  {
    if k :| 0 <= k < |a| && WindowMatches(t, a[k]) {
      assert a[k] in b;
    }
    if k :| 0 <= k < |b| && WindowMatches(t, b[k]) {
      assert b[k] in a;
    }
  }

  /** Further windows only ever open the list, exactly when one of them is open. */
  lemma MoreWindows(a: seq<string>, b: seq<string>, t: Instant)
    ensures InAnyWindow(a + b, t) <==> InAnyWindow(a, t) || InAnyWindow(b, t)
    ensures !InAnyWindow([], t)
  {
    if k :| 0 <= k < |a| && WindowMatches(t, a[k]) {
      assert (a + b)[k] == a[k];
    }
    if k :| 0 <= k < |b| && WindowMatches(t, b[k]) {
      assert (a + b)[|a| + k] == b[k];
    }
  }

  /** A text that does not consist of five words is never open. */
  lemma FiveFieldsNeeded(t: Instant, words: seq<string>)
    requires |words| != 5 && forall k :: 0 <= k < |words| ==> Word(words[k]) && !("TZ=" <= words[k])
    ensures !WindowMatches(t, Spaced(words))
  {
    SpacedWords(words);
    if words != [] {
      WordHasNoZone(words[0], Spaced(words[1..]));
    }
  }

  function Spaced(words: seq<string>): string {
    if words == [] then "" else words[0] + (" " + Spaced(words[1..]))
  }

  lemma {:induction false} SpacedWords(words: seq<string>)
    requires forall k :: 0 <= k < |words| ==> Word(words[k])
    ensures Words(Spaced(words)) == words
  {
    if words != [] {
      SpacedWords(words[1..]);
      WordsStep(words[0], " " + Spaced(words[1..]));
      WordsSkip(" ", Spaced(words[1..]));
      assert words == [words[0]] + words[1..];
    }
  }

  lemma WordHasNoZone(first: string, rest: string)
    requires !("TZ=" <= first)
    ensures !HasZone(first + (" " + rest))
  {
    var s := first + (" " + rest);
    if |s| > 3 {
      if |first| >= 3 {
        assert s[..3] == first[..3];
      } else {
        assert s[..3][|first|] == ' ';
      }
    }
  }

  /** A piece is split at its first dash, whatever follows. */
  lemma FirstDashSplits(lo: string, rest: string, value: int)
    requires '-' !in lo
    ensures RangeMatches(lo + "-" + rest, value) <==> Value(lo) <= value <= Value(rest)
  {
    var s := lo + "-" + rest;
    assert s[..|lo|] == lo;
    IndexOfAt(s, '-', |lo|);
    assert s[|lo| + 1..] == rest;
  }

  /** A piece without a dash matches the number it reads as; an empty one, as after a trailing
      comma, reads as zero. */
  lemma PlainPieceMatches(piece: string, value: int)
    requires '-' !in piece
    ensures RangeMatches(piece, value) <==> value == Value(piece)
    ensures Value("") == 0
  {
    assert piece[..|piece|] == piece;
    IndexOfAt(piece, '-', |piece|);
  }

  /** Numbers are read as 64-bit integers. */
  lemma ValueInRange(s: string)
    ensures -0x8000_0000_0000_0000 <= Value(s) < 0x8000_0000_0000_0000
    decreases |s|
  {
    if s != "" {
      ValueInRange(s[..|s| - 1]);
    }
  }

  // Outside the stated grammar: a step field does not step.  "*/n" matches the single
  // value n, so a schedule written to run every n hours runs in one hour of the day.
  lemma StepFieldMatchesOnlyItsStep(n: nat, value: int)
    requires n < TWO_TO_63
    ensures FieldMatches("*/" + Decimal(n), value) <==> value == n
  {
    var s := "*/" + Decimal(n);
    assert ',' !in s && '-' !in s;
    PiecesStep(s, "");
    assert s[..|s|] == s;
    IndexOfAt(s, '-', |s|);
    ValueAfterPrefix("*/", Decimal(n));
    ValueOfDecimal(n);
    assert Pieces(s)[0] == s;
  }

  /** A digit-free prefix does not change the value. */
  lemma {:induction false} ValueAfterPrefix(prefix: string, s: string)
    requires forall k :: 0 <= k < |prefix| ==> !IsDigit(prefix[k])
    ensures Value(prefix + s) == Value(s)
    decreases |prefix| + |s|
  {
    var t := prefix + s;
    if s != "" {
      assert t[..|t| - 1] == prefix + s[..|s| - 1];
      ValueAfterPrefix(prefix, s[..|s| - 1]);
    } else if prefix != "" {
      assert t[..|t| - 1] == prefix[..|prefix| - 1] + "";
      ValueAfterPrefix(prefix[..|prefix| - 1], "");
    }
  }
}
