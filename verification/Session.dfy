/** What one TCP session of the client has seen, and the order section 3.1 and 3.2 impose on it. */
module Session {
  import opened Words
  import opened Packets

  /** A packet put on the session, or a CONNACK with return code 0 found in what it received. */
  datatype Event = Sent(packet: Packet) | ConnackOk(at: nat)

  datatype Record = Record(trace: seq<Event>, wire: seq<byte>, inbound: seq<byte>)

  function SentPackets(t: seq<Event>): seq<Packet> {
    if t == [] then []
    else
      var front, last := SentPackets(t[..|t| - 1]), t[|t| - 1];
      if last.Sent? then front + [last.packet] else front
  }

  /** PUBLISH, SUBSCRIBE and PINGREQ: what only a connected client may send. */
  predicate IsTraffic(e: Event) {
    e.Sent? && (e.packet.Publish? || e.packet.Subscribe? || e.packet.PingReq?)
  }

  predicate IsConnect(e: Event) {
    e.Sent? && e.packet.Connect?
  }

  predicate IsGoodbye(e: Event) {
    e == Sent(Disconnect)
  }

  /** CONNECT, its acceptance, then traffic only. */
  predicate Accepted(t: seq<Event>) {
    && |t| >= 2
    && IsConnect(t[0])
    && t[1].ConnackOk?
    && forall i | 2 <= i < |t| :: IsTraffic(t[i])
  }

  /** Everything a session of this client can look like. */
  predicate Ordered(t: seq<Event>) {
    || t == []
    || (|t| == 1 && (IsConnect(t[0]) || IsGoodbye(t[0])))
    || Accepted(t)
    || (t[|t| - 1] == Sent(Disconnect) && Accepted(t[..|t| - 1]))
  }

  predicate ConnacksReceived(t: seq<Event>, inbound: seq<byte>) {
    forall e | e in t && e.ConnackOk? ::
      && e.at + 4 <= |inbound|
      && inbound[e.at] == 0x20 && inbound[e.at + 1] == 2 && inbound[e.at + 3] == 0
  }

  /** The bytes of the session are exactly its packets, in an order the client may use. */
  ghost predicate Faithful(r: Record) {
    && AllSized(SentPackets(r.trace))
    && r.wire == EncodeAll(SentPackets(r.trace))
    && Ordered(r.trace)
    && ConnacksReceived(r.trace, r.inbound)
  }

  lemma SentSnoc(t: seq<Event>, e: Event)
    ensures SentPackets(t + [e]) == SentPackets(t) + (if e.Sent? then [e.packet] else [])
  {
    assert (t + [e])[..|t|] == t;
  }

  lemma EmptySession(inbound: seq<byte>)
    ensures Faithful(Record([], [], inbound))
  {
    assert Encoded([]) == [];
  }

  /** Putting one more whole packet on a session that may take it. */
  lemma PacketSent(r: Record, p: Packet, inbound: seq<byte>)
    requires Faithful(r) && Sized(p) && Ordered(r.trace + [Sent(p)]) && r.inbound <= inbound
    ensures Faithful(Record(r.trace + [Sent(p)], r.wire + Encode(p), inbound))
  {
    SentSnoc(r.trace, Sent(p));
    EncodeSnoc(SentPackets(r.trace), p);
  }

  lemma MoreArrived(r: Record, inbound: seq<byte>)
    requires Faithful(r) && r.inbound <= inbound
    ensures Faithful(r.(inbound := inbound))
  {
  }

  lemma ConnackFound(r: Record, at: nat)
    requires Faithful(r) && |r.trace| == 1 && IsConnect(r.trace[0])
    requires at + 4 <= |r.inbound| && r.inbound[at] == 0x20 && r.inbound[at + 1] == 2 && r.inbound[at + 3] == 0
    ensures Accepted(r.trace + [ConnackOk(at)])
    ensures Faithful(r.(trace := r.trace + [ConnackOk(at)]))
  {
    SentSnoc(r.trace, ConnackOk(at));
    assert SentPackets(r.trace) + [] == SentPackets(r.trace);
  }

  lemma TrafficAllowed(t: seq<Event>, p: Packet)
    requires Accepted(t) && IsTraffic(Sent(p))
    ensures Accepted(t + [Sent(p)]) && Ordered(t + [Sent(p)])
  {
  }

  lemma GoodbyeAllowed(t: seq<Event>)
    requires t == [] || Accepted(t)
    ensures Ordered(t + [Sent(Disconnect)])
  {
    assert (t + [Sent(Disconnect)])[..|t|] == t;
  }

  /** No PUBLISH, SUBSCRIBE or PINGREQ before the session carried exactly one CONNECT and received
      a CONNACK with return code 0. */
  lemma TrafficNeedsConnack(r: Record, i: nat)
    requires Faithful(r) && i < |r.trace| && IsTraffic(r.trace[i])
    ensures i >= 2 && IsConnect(r.trace[0]) && r.trace[1].ConnackOk?
    ensures forall j | 0 < j < |r.trace| :: !IsConnect(r.trace[j])
    ensures var at := r.trace[1].at;
            && at + 4 <= |r.inbound|
            && r.inbound[at] == 0x20 && r.inbound[at + 1] == 2 && r.inbound[at + 3] == 0
  {
    assert r.trace[1] in r.trace;
    if !Accepted(r.trace) {
      assert r.trace[..|r.trace| - 1][1] == r.trace[1];
    }
  }

  /** Section 3.1.0-1: the first packet on the wire is CONNECT. */
  predicate StartsWithConnect(t: seq<Event>) {
    t != [] ==> IsConnect(t[0])
  }

  /** A goodbye keeps that rule exactly when something was said before; said first, as after a
      failed connect whose socket was left half closed, it breaks it. */
  lemma GoodbyeStartsWithConnectIff(t: seq<Event>)
    requires t == [] || Accepted(t)
    ensures StartsWithConnect(t + [Sent(Disconnect)]) <==> t != []
  {
  }

  /** The wire parses to the packets sent, provided each is legal; else it does not parse. */
  lemma WireParses(r: Record)
    requires Faithful(r)
    ensures ParseStream(r.wire) ==
            if AllLegal(SentPackets(r.trace)) then Some(SentPackets(r.trace)) else None
  {
    StreamRoundTrip(SentPackets(r.trace));
  }

  // ------------------------------------------------------------------------------ counting PUBLISH

  function PublishCount(t: seq<Event>): nat {
    if t == [] then 0
    else
      PublishCount(t[..|t| - 1]) +
      if t[|t| - 1].Sent? && t[|t| - 1].packet.Publish? then 1 else 0
  }

  /** PUBLISH packets on all sessions, those of the past and the current one. */
  function PublishTotal(history: seq<Record>, trace: seq<Event>): nat {
    if history == [] then PublishCount(trace)
    else PublishTotal(history[..|history| - 1], history[|history| - 1].trace) + PublishCount(trace)
  }

  lemma CountSnoc(history: seq<Record>, t: seq<Event>, e: Event)
    ensures PublishTotal(history, t + [e])
            == PublishTotal(history, t) + if e.Sent? && e.packet.Publish? then 1 else 0
  {
    assert (t + [e])[..|t|] == t;
  }

  lemma CountAnew(history: seq<Record>, r: Record)
    ensures PublishTotal(history + [r], []) == PublishTotal(history, r.trace)
  {
    assert (history + [r])[..|history|] == history;
  }
}
