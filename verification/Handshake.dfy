/** The A2S_INFO query of the metrics sidecar: one request, an optional
    challenge answered by a second request, and a parsed reply, over an
    unconnected socket that delivers packets from anybody into one reused buffer. */
module Handshake {
  import opened A2S

  /** What the socket yields next: a datagram, or an error such as the deadline. */
  datatype Event = Datagram(peer: string, payload: bytes) | Failure

  datatype Reply = Answer(result: Parsed) | NoReply

  const BUFFER_SIZE: nat := 4096
  const NO_CHALLENGE: bytes := [0xFF, 0xFF, 0xFF, 0xFF]
  const QUERY: bytes := [
    0x53, 0x6F, 0x75, 0x72, 0x63, 0x65, 0x20, 0x45, 0x6E, 0x67,
    0x69, 0x6E, 0x65, 0x20, 0x51, 0x75, 0x65, 0x72, 0x79, 0x00]

  /** Header, request type 0x54, "Source Engine Query", and the challenge. */
  function Request(challenge: bytes): bytes {
    HEADER + [0x54] + QUERY + challenge
  }

  /** What a receive buffer of the sidecar's size keeps of a datagram. */
  function Received(payload: bytes): bytes {
    if |payload| <= BUFFER_SIZE then payload else payload[..BUFFER_SIZE]
  }

  predicate IsChallenge(data: bytes) {
    |data| >= 9 && data[..4] == HEADER && data[4] == CHALLENGE_RESPONSE
  }

  /** How many events are consumed until `server` answers or the socket fails. */
  function Waiting(events: seq<Event>, server: string): (n: nat)
    ensures n <= |events|
    ensures n < |events| ==> events[n].Failure? || events[n].peer == server
  {
    if events == [] || events[0].Failure? || events[0].peer == server then 0
    else 1 + Waiting(events[1..], server)
  }

  predicate Answers(events: seq<Event>, server: string) {
    var n := Waiting(events, server);
    n < |events| && events[n].Datagram?
  }

  function FirstAnswer(events: seq<Event>, server: string): bytes
    requires Answers(events, server)
  {
    Received(events[Waiting(events, server)].payload)
  }

  function AfterAnswer(events: seq<Event>, server: string): seq<Event>
    requires Answers(events, server)
  {
    events[Waiting(events, server) + 1..]
  }

  /** The outcome of a query whose sends succeed, as a function of what arrives. */
  function Outcome(events: seq<Event>, server: string): Reply {
    if !Answers(events, server) then
      NoReply
    else
      var first := FirstAnswer(events, server);
      var rest := AfterAnswer(events, server);
      if !IsChallenge(first) then Answer(Reading(first))
      else if !Answers(rest, server) then NoReply
      else Answer(Reading(FirstAnswer(rest, server)))
  }

  /** The requests such a query sends. */
  function Requests(events: seq<Event>, server: string): (r: seq<bytes>)
    ensures 1 <= |r| <= 2
  {
    if Answers(events, server) && IsChallenge(FirstAnswer(events, server)) then
      [Request(NO_CHALLENGE), Request(FirstAnswer(events, server)[5..9])]
    else
      [Request(NO_CHALLENGE)]
  }

  /** A window on a buffer.  It does not own its bytes: they change with the buffer. */
  datatype Slice = Slice(base: array<byte>, lo: nat, hi: nat)

  class Socket {
    var incoming: seq<Event>
    var sent: seq<bytes>
    var sendFails: seq<bool>  // outcome of the next sends; the rest succeed

    constructor (incoming: seq<Event>, sendFails: seq<bool>)
      ensures this.incoming == incoming && this.sent == [] && this.sendFails == sendFails
    {
      this.incoming := incoming;
      this.sent := [];
      this.sendFails := sendFails;
    }

    method WriteTo(request: bytes) returns (ok: bool)
      modifies this
      ensures ok == (old(sendFails) == [] || !old(sendFails)[0])
      ensures sendFails == if old(sendFails) == [] then [] else old(sendFails)[1..]
      ensures sent == if ok then old(sent) + [request] else old(sent)
      ensures incoming == old(incoming)
    {
      ok := sendFails == [] || !sendFails[0];
      if ok {
        sent := sent + [request];
      }
      if sendFails != [] {
        sendFails := sendFails[1..];
      }
    }

    /** Delivers the next event; a datagram longer than the buffer is cut. */
    method ReadFrom(buf: array<byte>) returns (ok: bool, n: nat, from: string)
      requires buf.Length == BUFFER_SIZE
      modifies this, buf
      ensures ok <==> old(incoming) != [] && old(incoming)[0].Datagram?
      ensures ok ==> from == old(incoming)[0].peer
      ensures ok ==> n <= buf.Length && buf[..n] == Received(old(incoming)[0].payload)
      ensures ok ==> incoming == old(incoming)[1..]
      ensures sent == old(sent) && sendFails == old(sendFails)
    {
      if incoming == [] || incoming[0].Failure? {
        return false, 0, "";
      }
      var data := Received(incoming[0].payload);
      n := |data|;
      for i := 0 to n
        invariant buf[..i] == data[..i]
        invariant incoming == old(incoming) && sent == old(sent) && sendFails == old(sendFails)
      {
        buf[i] := data[i];
      }
      from := incoming[0].peer;
      incoming := incoming[1..];
      ok := true;
    }
  }

  method BuildRequest(challenge: Slice) returns (req: bytes)
    requires challenge.lo <= challenge.hi <= challenge.base.Length
    ensures req == Request(challenge.base[challenge.lo..challenge.hi])
  {
    req := HEADER;
    req := req + [0x54];
    req := req + QUERY;
    req := req + challenge.base[challenge.lo..challenge.hi];
  }

  /** Sends one request and waits for a datagram from `server`, dropping all others. */
  method RoundTrip(conn: Socket, req: bytes, buf: array<byte>, server: string) returns (ok: bool, n: nat)
    requires buf.Length == BUFFER_SIZE
    modifies conn, buf
    ensures var sends := old(conn.sendFails) == [] || !old(conn.sendFails)[0];
      && conn.sent == (if sends then old(conn.sent) + [req] else old(conn.sent))
      && (ok <==> sends && Answers(old(conn.incoming), server))
    ensures ok ==> n <= buf.Length && buf[..n] == FirstAnswer(old(conn.incoming), server)
    ensures ok ==> conn.incoming == AfterAnswer(old(conn.incoming), server)
    ensures conn.sendFails == if old(conn.sendFails) == [] then [] else old(conn.sendFails)[1..]
  {
    ok := conn.WriteTo(req);
    if !ok {
      return false, 0;
    }
    ghost var all := conn.incoming;
    ghost var skipped := 0;
    while true
      invariant skipped <= |all| && conn.incoming == all[skipped..]
      invariant Waiting(all, server) == skipped + Waiting(all[skipped..], server)
      invariant conn.sent == old(conn.sent) + [req]
      invariant conn.sendFails == if old(conn.sendFails) == [] then [] else old(conn.sendFails)[1..]
      decreases |conn.incoming|
    {
      var from;
      ok, n, from := conn.ReadFrom(buf);
      if !ok {
        return false, 0;
      }
      if from == server {
        return;
      }
      assert all[skipped..][1..] == all[skipped + 1..];
      skipped := skipped + 1;
    }
  }

  /** One query: at most two requests go out, the second carrying exactly the four bytes
      of the challenge although the buffer it came in is reused for the reply; the
      outcome is decided by the packets of `server` alone. */
  method QueryInfo(conn: Socket, server: string) returns (r: Reply)
    requires conn.sent == []
    modifies conn
    ensures old(conn.sendFails) == [] ==>
              r == Outcome(old(conn.incoming), server) && conn.sent == Requests(old(conn.incoming), server)
    ensures conn.sent <= Requests(old(conn.incoming), server)
    ensures r.Answer? ==> r == Outcome(old(conn.incoming), server)
  {
    var buf := new byte[BUFFER_SIZE];
    var placeholder := new byte[4](_ => 0xFF);
    assert placeholder[0..4] == NO_CHALLENGE;
    var req := BuildRequest(Slice(placeholder, 0, 4));
    var ok, n := RoundTrip(conn, req, buf, server);
    if !ok {
      return NoReply;
    }
    ghost var first := buf[..n];
    if n >= 9 && buf[..4] == HEADER && buf[4] == CHALLENGE_RESPONSE {
      assert buf[..4] == first[..4] && buf[5..9] == first[5..9];
      var challenge := Slice(buf, 5, 9);
      req := BuildRequest(challenge);
      ok, n := RoundTrip(conn, req, buf, server);
      if !ok {
        return NoReply;
      }
    } else {
      assert n >= 9 ==> buf[..4] == first[..4];
    }
    var parsed := ParseInfo(buf[..n]);
    return Answer(parsed);
  }

  // ------------------------------------------------------------ interference

  /** The events without the datagrams of strangers. */
  function OnlyFrom(events: seq<Event>, server: string): seq<Event> {
    if events == [] then
      []
    else if events[0].Failure? || events[0].peer == server then
      [events[0]] + OnlyFrom(events[1..], server)
    else
      OnlyFrom(events[1..], server)
  }

  lemma {:induction false} StrangersIgnored(events: seq<Event>, server: string)
    ensures Answers(OnlyFrom(events, server), server) == Answers(events, server)
    ensures Answers(events, server) ==>
      && FirstAnswer(OnlyFrom(events, server), server) == FirstAnswer(events, server)
      && AfterAnswer(OnlyFrom(events, server), server) == OnlyFrom(AfterAnswer(events, server), server)
  {
    if events != [] {
      if events[0].Failure? || events[0].peer == server {
        assert OnlyFrom(events, server)[1..] == OnlyFrom(events[1..], server);
      } else {
        StrangersIgnored(events[1..], server);
        if Answers(events, server) {
          assert events[Waiting(events, server) + 1..] == events[1..][Waiting(events[1..], server) + 1..];
        }
      }
    }
  }

  /** Packets from other sources never affect a query: neither its result nor what it sends. */
  lemma OutcomeIgnoresStrangers(events: seq<Event>, server: string)
    ensures Outcome(OnlyFrom(events, server), server) == Outcome(events, server)
    ensures Requests(OnlyFrom(events, server), server) == Requests(events, server)
  {
    StrangersIgnored(events, server);
    if Answers(events, server) {
      StrangersIgnored(AfterAnswer(events, server), server);
    }
  }

  /** A second challenge is not answered: it is rejected as a packet of the wrong type. */
  lemma SecondChallengeRejected(events: seq<Event>, server: string)
    requires Answers(events, server) && IsChallenge(FirstAnswer(events, server))
    requires Answers(AfterAnswer(events, server), server)
    requires IsChallenge(FirstAnswer(AfterAnswer(events, server), server))
    ensures Outcome(events, server) == Answer(Err(BadType))
  {
  }

  /** A server that answers, directly or after one challenge, is understood whatever
      strangers send in between. */
  lemma QueryReads(events: seq<Event>, server: string, challenged: bool, challenge: bytes, packet: bytes)
    requires |challenge| == 4 && |packet| <= BUFFER_SIZE && !IsChallenge(packet)
    requires OnlyFrom(events, server) ==
      if challenged then [Datagram(server, HEADER + [CHALLENGE_RESPONSE] + challenge), Datagram(server, packet)]
      else [Datagram(server, packet)]
    ensures Outcome(events, server) == Answer(Reading(packet))
    ensures Requests(events, server) ==
      [Request(NO_CHALLENGE)] + if challenged then [Request(challenge)] else []
  {
    OutcomeIgnoresStrangers(events, server);
    var clean := OnlyFrom(events, server);
    if challenged {
      var ask := HEADER + [CHALLENGE_RESPONSE] + challenge;
      assert ask[..4] == HEADER && ask[5..9] == challenge;
      assert clean[1..] == [Datagram(server, packet)];
    }
  }

  /** With the response layout of the A2S_INFO section of Valve's "Server queries"
      specification, such a query recovers exactly the fields the server encoded. */
  lemma QueryRecoversInfo(events: seq<Event>, server: string, challenged: bool, challenge: bytes,
                          info: Info, x: Extras, trailing: bytes)
    requires Encodable(info, x) && |challenge| == 4
    requires |Encode(info, x) + trailing| <= BUFFER_SIZE
    requires var reply := Datagram(server, Encode(info, x) + trailing);
      OnlyFrom(events, server) ==
      if challenged then [Datagram(server, HEADER + [CHALLENGE_RESPONSE] + challenge), reply] else [reply]
    ensures Outcome(events, server) == Answer(Ok(info))
  {
    A2S.RoundTrip(info, x, trailing);
    QueryReads(events, server, challenged, challenge, Encode(info, x) + trailing);
  }

  // ------------------------------------------------------------ on the wire

  /** "Source Engine Query", byte by byte. */
  predicate Spells(q: bytes) {
    && |q| == 20 && q[19] == 0
    && forall k :: 0 <= k < 19 ==> q[k] as int == "Source Engine Query"[k] as int
  }

  /** A request is four bytes 0xFF, the type 0x54, the zero-terminated text and the challenge,
      which in the first request is four bytes 0xFF again. */
  lemma RequestOnTheWire(challenge: bytes)
    ensures var r := Request(challenge);
      && |r| == 25 + |challenge| && r[..4] == [0xFF, 0xFF, 0xFF, 0xFF] && r[4] == 0x54
      && Spells(r[5..25]) && r[25..] == challenge
    ensures NO_CHALLENGE == [0xFF, 0xFF, 0xFF, 0xFF]
  {
    var r := Request(challenge);
    assert r[..4] == HEADER;
    assert r[5..25] == QUERY;
    assert r[25..] == challenge;
  }

  /** Exactly a packet of nine bytes or more that begins FF FF FF FF 41 is a challenge. */
  lemma ChallengeOnTheWire(data: bytes)
    ensures IsChallenge(data) <==>
      |data| >= 9 && data[0] == 0xFF && data[1] == 0xFF && data[2] == 0xFF && data[3] == 0xFF && data[4] == 0x41
  {
    if |data| >= 9 {
      assert data[..4] == [data[0], data[1], data[2], data[3]];
    }
  }

  /** The first request goes out with no challenge; a second one exactly after a challenge, with
      its four bytes. */
  lemma RequestsSent(events: seq<Event>, server: string)
    ensures var r := Requests(events, server);
      && r[0] == Request(NO_CHALLENGE)
      && (|r| == 2 <==> Answers(events, server) && IsChallenge(FirstAnswer(events, server)))
      && (|r| == 2 ==> r[1] == Request(FirstAnswer(events, server)[5..9]))
  {
  }
}
