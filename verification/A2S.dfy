/** The Steam A2S_INFO response parser of the metrics sidecar. */
module A2S {

  newtype byte = x: int | 0 <= x < 256
  type bytes = seq<byte>

  datatype Info = Info(name: bytes, mapName: bytes, players: byte, maxPlayers: byte, version: bytes)

  datatype ParseError = TooShort | BadHeader | BadType | Unterminated
  datatype Parsed = Ok(info: Info) | Err(error: ParseError)

  const HEADER: bytes := [0xFF, 0xFF, 0xFF, 0xFF]
  const INFO_RESPONSE: byte := 0x49
  const CHALLENGE_RESPONSE: byte := 0x41

  // ------------------------------------------------------------ the format, declaratively

  /** The first NUL at or after `from`, or `|data|` when there is none. */
  function NulFrom(data: bytes, from: nat): (k: nat)
    requires from <= |data|
    ensures from <= k <= |data|
    ensures k < |data| ==> data[k] == 0
    decreases |data| - from
  {
    if from == |data| || data[from] == 0 then from else NulFrom(data, from + 1)
  }

  lemma {:induction false} NulFromIsFirst(data: bytes, from: nat)
    requires from <= |data|
    ensures 0 !in data[from..NulFrom(data, from)]
    decreases |data| - from
  {
    var k := NulFrom(data, from);
    if from < k {
      NulFromIsFirst(data, from + 1);
      assert data[from..k] == [data[from]] + data[from + 1..k];
    }
  }

  lemma {:induction false} NulFromAt(data: bytes, from: nat, k: nat)
    requires from <= k <= |data| && 0 !in data[from..k] && (k < |data| ==> data[k] == 0)
    ensures NulFrom(data, from) == k
    decreases k - from
  {
    if from < k {
      assert data[from..k] == [data[from]] + data[from + 1..k];
      assert data[from..k][0] != 0;
      NulFromAt(data, from + 1, k);
    }
  }

  /** How many NULs lie at or after `from`. */
  function NulCount(data: bytes, from: nat): nat
    requires from <= |data|
    decreases |data| - from
  {
    if from == |data| then 0 else (if data[from] == 0 then 1 else 0) + NulCount(data, from + 1)
  }

  /** The NUL found by `NulFrom` is the first one counted. */
  lemma {:induction false} CountAfterNul(data: bytes, from: nat)
    requires from <= |data|
    ensures var k := NulFrom(data, from);
      NulCount(data, from) == if k < |data| then 1 + NulCount(data, k + 1) else 0
    decreases |data| - from
  {
    if from < |data| && data[from] != 0 {
      CountAfterNul(data, from + 1);
    }
  }

  /** Where the `n`-th string of the packet starts: just after the `n`-th NUL from byte 6 on. */
  function StringStart(data: bytes, n: nat): (p: nat)
    requires |data| >= 6
    ensures 6 <= p <= |data| + 1
  {
    if n == 0 then
      6
    else
      var p := StringStart(data, n - 1);
      if p <= |data| then NulFrom(data, p) + 1 else p
  }

  function StringAt(data: bytes, p: nat): bytes
    requires p <= |data|
  {
    data[p..NulFrom(data, p)]
  }

  /** Bytes and strings past the fourth string read as zero and empty when missing. */
  function ByteOrZero(data: bytes, p: nat): byte {
    if p < |data| then data[p] else 0
  }

  function StringOrEmpty(data: bytes, p: nat): bytes {
    if p <= |data| && NulFrom(data, p) < |data| then StringAt(data, p) else []
  }

  /** The packet is an information response with its four leading strings in place. */
  predicate IsInfoResponse(data: bytes) {
    |data| >= 6 && data[..4] == HEADER && data[4] == INFO_RESPONSE && NulCount(data, 6) >= 4
  }

  /** The `n`-th string start exists exactly when `n` NULs do. */
  lemma {:induction false} StartCountsNuls(data: bytes, n: nat)
    requires |data| >= 6
    ensures var p := StringStart(data, n);
      if p <= |data| then NulCount(data, 6) == n + NulCount(data, p) else NulCount(data, 6) < n
  {
    if n > 0 {
      StartCountsNuls(data, n - 1);
      var p := StringStart(data, n - 1);
      if p <= |data| {
        CountAfterNul(data, p);
      }
    }
  }

  /** The information an A2S_INFO response carries. */
  function InfoOf(data: bytes): Info
    requires |data| >= 6
  {
    var p := StringStart(data, 4);
    Info(StringOrEmpty(data, 6), StringOrEmpty(data, StringStart(data, 1)),
         ByteOrZero(data, p + 2), ByteOrZero(data, p + 3), StringOrEmpty(data, p + 9))
  }

  /** What a packet reads as: its information, or the first thing wrong with it. */
  function Reading(data: bytes): Parsed {
    if |data| < 6 then Err(TooShort)
    else if data[..4] != HEADER then Err(BadHeader)
    else if data[4] != INFO_RESPONSE then Err(BadType)
    else if NulCount(data, 6) < 4 then Err(Unterminated)
    else Ok(InfoOf(data))
  }

  // ------------------------------------------------------------ the cursor parser

  /** A cursor over a packet; skipping may leave it past the end. */
  class ByteReader {
    const data: bytes
    var pos: nat

    constructor (data: bytes, pos: nat)
      ensures this.data == data && this.pos == pos
    {
      this.data := data;
      this.pos := pos;
    }

    /** At the end of the packet the cursor stays and the byte reads as zero. */
    method ReadByte() returns (b: byte)
      modifies this
      ensures b == ByteOrZero(data, old(pos))
      ensures pos == old(pos) + (if old(pos) < |data| then 1 else 0)
    {
      if pos >= |data| {
        return 0;
      }
      b := data[pos];
      pos := pos + 1;
    }

    /** Reads up to the next NUL and consumes it; without one it fails and the cursor is at or past the end. */
    method ReadString() returns (ok: bool, s: bytes)
      modifies this
      ensures ok <==> old(pos) <= |data| && NulFrom(data, old(pos)) < |data|
      ensures ok ==> s == StringAt(data, old(pos)) && pos == NulFrom(data, old(pos)) + 1
      ensures !ok ==> s == [] && pos >= |data| && pos >= old(pos)
    {
      var start := pos;
      while pos < |data|
        invariant start <= pos
        invariant pos > |data| ==> pos == start
        invariant pos <= |data| ==> 0 !in data[start..pos]
      {
        if data[pos] == 0 {
          NulFromAt(data, start, pos);
          s := data[start..pos];
          pos := pos + 1;
          return true, s;
        }
        assert data[start..pos + 1] == data[start..pos] + [data[pos]];
        pos := pos + 1;
      }
      if start <= |data| {
        NulFromAt(data, start, pos);
      }
      return false, [];
    }

    method Skip(n: nat)
      modifies this
      ensures pos == old(pos) + n
    {
      pos := pos + n;
    }
  }

  /** Reads the string that starts at `StringStart(data, n)`. */
  method ReadNth(reader: ByteReader, n: nat) returns (ok: bool, s: bytes)
    requires |reader.data| >= 6 && reader.pos == StringStart(reader.data, n) <= |reader.data|
    modifies reader
    ensures ok <==> NulCount(reader.data, 6) > n
    ensures ok ==> s == StringOrEmpty(reader.data, old(reader.pos))
    ensures ok ==> reader.pos == StringStart(reader.data, n + 1) <= |reader.data|
  {
    StartCountsNuls(reader.data, n);
    CountAfterNul(reader.data, reader.pos);
    ok, s := reader.ReadString();
  }

  /** Parses exactly the information responses: it accepts a packet if and only if it has
      the header, the type byte and at least four NULs from byte 6 on, and what it
      returns is what the packet carries.  All reads stay inside the packet. */
  method ParseInfo(data: bytes) returns (r: Parsed)
    ensures r.Ok? <==> IsInfoResponse(data)
    ensures r.Ok? ==> r.info == InfoOf(data)
    ensures r == Reading(data)
  {
    if |data| < 6 {
      return Err(TooShort);
    }
    if data[..4] != HEADER {
      return Err(BadHeader);
    }
    if data[4] != INFO_RESPONSE {
      return Err(BadType);
    }
    r := ParseStrings(data);
  }

  /** The part of the parser after the six leading bytes. */
  method ParseStrings(data: bytes) returns (r: Parsed)
    requires |data| >= 6
    ensures r == if NulCount(data, 6) >= 4 then Ok(InfoOf(data)) else Err(Unterminated)
  {
    var reader := new ByteReader(data, 6);
    var ok, name, mapName := ReadLeading(reader);
    if !ok {
      return Err(Unterminated);
    }
    var players, maxPlayers, version := ReadCounts(reader);
    return Ok(Info(name, mapName, players, maxPlayers, version));
  }

  /** The four leading strings; folder and game are read and dropped. */
  method ReadLeading(reader: ByteReader) returns (ok: bool, name: bytes, mapName: bytes)
    requires |reader.data| >= 6 && reader.pos == 6
    modifies reader
    ensures ok <==> NulCount(reader.data, 6) >= 4
    ensures ok ==> name == StringOrEmpty(reader.data, 6)
    ensures ok ==> mapName == StringOrEmpty(reader.data, StringStart(reader.data, 1))
    ensures ok ==> reader.pos == StringStart(reader.data, 4)
  {
    mapName := [];
    ok, name := ReadNth(reader, 0);
    if !ok { return; }
    ok, mapName := ReadNth(reader, 1);
    if !ok { return; }
    var discarded;
    ok, discarded := ReadNth(reader, 2); // folder
    if !ok { return; }
    ok, discarded := ReadNth(reader, 3); // game
  }

  /** The fixed-width fields and the version that follow the four strings. */
  method ReadCounts(reader: ByteReader) returns (players: byte, maxPlayers: byte, version: bytes)
    modifies reader
    ensures players == ByteOrZero(reader.data, old(reader.pos) + 2)
    ensures maxPlayers == ByteOrZero(reader.data, old(reader.pos) + 3)
    ensures version == StringOrEmpty(reader.data, old(reader.pos) + 9)
  {
    reader.Skip(2); // app id
    players := reader.ReadByte();
    maxPlayers := reader.ReadByte();
    reader.Skip(1); // bots
    reader.Skip(1); // server type
    reader.Skip(1); // environment
    reader.Skip(1); // visibility
    reader.Skip(1); // VAC
    var ok;
    ok, version := reader.ReadString();
  }

  // ------------------------------------------------------------ round trip

  /** What a server may put into a response around the fields the sidecar keeps. */
  datatype Extras = Extras(protocol: byte, folder: bytes, game: bytes, appId: bytes, flags: bytes)

  predicate NulFree(s: bytes) { 0 !in s }

  predicate Encodable(info: Info, x: Extras) {
    && NulFree(info.name) && NulFree(info.mapName) && NulFree(info.version)
    && NulFree(x.folder) && NulFree(x.game)
    && |x.appId| == 2 && |x.flags| == 5
  }

  /** The header, the type and protocol bytes, and the four leading strings. */
  function Leading(info: Info, x: Extras): bytes {
    (HEADER + [INFO_RESPONSE, x.protocol])
    + (info.name + [0]) + (info.mapName + [0]) + (x.folder + [0]) + (x.game + [0])
  }

  /** Application id, player counts and five flag bytes. */
  function Counts(info: Info, x: Extras): bytes {
    x.appId + [info.players, info.maxPlayers] + x.flags
  }

  function Encode(info: Info, x: Extras): bytes {
    Leading(info, x) + (Counts(info, x) + (info.version + [0]))
  }

  /** A NUL-free text followed by a NUL, wherever it stands in the packet, is read back whole. */
  lemma ReadBack(before: bytes, s: bytes, after: bytes)
    requires NulFree(s)
    ensures var data := before + (s + [0]) + after;
      NulFrom(data, |before|) == |before| + |s| < |data| && StringOrEmpty(data, |before|) == s
  {
    var data := before + (s + [0]) + after;
    var k := |before| + |s|;
    assert data[|before|..k] == s;
    NulFromAt(data, |before|, k);
  }

  /** The first `n` strings of a packet end where the encoder put them. */
  lemma NextStart(data: bytes, n: nat, before: bytes, s: bytes, after: bytes)
    requires data == before + (s + [0]) + after && |before| >= 6
    requires NulFree(s) && StringStart(data, n) == |before|
    ensures StringStart(data, n + 1) == |before + (s + [0])| <= |data|
    ensures StringOrEmpty(data, StringStart(data, n)) == s
  {
    ReadBack(before, s, after);
  }

  /** What the parser finds in the leading strings, whatever follows them. */
  lemma LeadingReadBack(info: Info, x: Extras, rest: bytes)
    requires Encodable(info, x)
    ensures
      var data := Leading(info, x) + rest;
      && data[..4] == HEADER && data[4] == INFO_RESPONSE
      && StringOrEmpty(data, 6) == info.name
      && StringOrEmpty(data, StringStart(data, 1)) == info.mapName
      && StringStart(data, 4) == |Leading(info, x)| && NulCount(data, 6) >= 4
  {
    var b0 := HEADER + [INFO_RESPONSE, x.protocol];
    var a3 := (x.game + [0]) + rest;
    var a2 := (x.folder + [0]) + a3;
    var a1 := (info.mapName + [0]) + a2;
    var b1 := b0 + (info.name + [0]);
    var b2 := b1 + (info.mapName + [0]);
    var b3 := b2 + (x.folder + [0]);
    var data := b3 + (x.game + [0]) + rest;
    assert data == b2 + (x.folder + [0]) + a3;
    assert data == b1 + (info.mapName + [0]) + a2;
    assert data == b0 + (info.name + [0]) + a1;
    NextStart(data, 0, b0, info.name, a1);
    NextStart(data, 1, b1, info.mapName, a2);
    NextStart(data, 2, b2, x.folder, a3);
    NextStart(data, 3, b3, x.game, rest);
    StartCountsNuls(data, 4);
  }

  /** What it finds in the counts and the version, whatever precedes and follows them. */
  lemma CountsReadBack(before: bytes, info: Info, x: Extras, trailing: bytes)
    requires Encodable(info, x)
    ensures
      var data := before + (Counts(info, x) + (info.version + [0]) + trailing);
      && ByteOrZero(data, |before| + 2) == info.players
      && ByteOrZero(data, |before| + 3) == info.maxPlayers
      && StringOrEmpty(data, |before| + 9) == info.version
  {
    var data := before + (Counts(info, x) + (info.version + [0]) + trailing);
    assert data == (before + Counts(info, x)) + (info.version + [0]) + trailing;
    ReadBack(before + Counts(info, x), info.version, trailing);
  }

  lemma Reassociate(a: bytes, b: bytes, c: bytes, d: bytes)
    ensures a + (b + c) + d == a + (b + c + d)
  {
  }

  /** Parsing inverts encoding, and bytes after the encoding change nothing. */
  lemma RoundTrip(info: Info, x: Extras, trailing: bytes)
    requires Encodable(info, x)
    ensures IsInfoResponse(Encode(info, x) + trailing)
    ensures InfoOf(Encode(info, x) + trailing) == info
  {
    var rest := Counts(info, x) + (info.version + [0]) + trailing;
    Reassociate(Leading(info, x), Counts(info, x), info.version + [0], trailing);
    LeadingReadBack(info, x, rest);
    CountsReadBack(Leading(info, x), info, x, trailing);
  }

  // ------------------------------------------------------------ what is wrong with a packet

  /** A packet is refused for the first thing that is wrong with it. */
  lemma RefusedFor(data: bytes)
    ensures Reading(data) == Err(TooShort) <==> |data| < 6
    ensures |data| >= 6 ==>
      var header := data[0] == 0xFF && data[1] == 0xFF && data[2] == 0xFF && data[3] == 0xFF;
      && (Reading(data) == Err(BadHeader) <==> !header)
      && (Reading(data) == Err(BadType) <==> header && data[4] != 0x49)
      && (Reading(data) == Err(Unterminated) <==> header && data[4] == 0x49 && NulCount(data, 6) < 4)
  {
    if |data| >= 6 {
      assert data[..4] == [data[0], data[1], data[2], data[3]];
    }
  }

  /** A short response as a server sends it: name "n", map "m", folder "f", game "g", application id
      0x1234, five of sixteen players, five more bytes, version "1". */
  const SAMPLE: bytes := [
    0xFF, 0xFF, 0xFF, 0xFF, 0x49, 0x11, 0x6E, 0, 0x6D, 0, 0x66, 0, 0x67, 0, 0x34, 0x12, 5, 16, 0, 0x64, 0x77, 0, 1, 0x31, 0]

  const SAMPLE_INFO: Info := Info([0x6E], [0x6D], 5, 16, [0x31])
  const SAMPLE_EXTRAS: Extras := Extras(0x11, [0x66], [0x67], [0x34, 0x12], [0, 0x64, 0x77, 0, 1])

  lemma SampleIsEncoded()
    ensures Encodable(SAMPLE_INFO, SAMPLE_EXTRAS) && Encode(SAMPLE_INFO, SAMPLE_EXTRAS) == SAMPLE
  {
  }

  lemma SampleReads()
    ensures Reading(SAMPLE) == Ok(Info([0x6E], [0x6D], 5, 16, [0x31]))
  {
    SampleIsEncoded();
    RoundTrip(SAMPLE_INFO, SAMPLE_EXTRAS, []);
    assert SAMPLE + [] == SAMPLE;
  }
}
