/** What the bytes a client receives mean: the packets of MQTT 3.1.1 in them, cut by their Remaining Length,
    and when the code delivers the PUBLISH packets among them. */
module Meaning {
  import opened Words
  import opened Packets
  import opened Inbound
  import Text
  import Flat

  datatype InPacket =
    | InPublish(qos: nat, topic: seq<byte>, id: u16, payload: seq<byte>)
    | Other(header: byte, body: seq<byte>)

  predicate Dup(header: byte) {
    header / 8 % 2 == 1
  }

  /** Sections 3.3.1 and 3.3.2.1. */
  predicate Allowed(header: byte, topic: seq<byte>) {
    Qos(header) != 3 && (Dup(header) ==> Qos(header) > 0) && Legal(Publish(topic, []))
  }

  function ParseInPublish(header: byte, body: seq<byte>): Option<InPacket> {
    match ParseStr(body)
    case None => None
    case Some((topic, tail)) =>
      if !Allowed(header, topic) then None
      else if Qos(header) == 0 then Some(InPublish(0, topic, 0, tail))
      else if |tail| < 2 || Join(tail[0], tail[1]) == 0 then None
      else Some(InPublish(Qos(header), topic, Join(tail[0], tail[1]), tail[2..]))
  }

  /** One packet from the front of a stream, and the rest of the stream. */
  function ParseIn(bs: seq<byte>): (r: Option<(InPacket, seq<byte>)>)
    ensures r.Some? ==> |r.value.1| < |bs|
  {
    if bs == [] then None
    else
      match ParseVarInt(bs[1..], 4)
      case None => None
      case Some((n, rest)) =>
        if |rest| < n then None
        else if MessageType(bs[0]) != 0x30 then Some((Other(bs[0], rest[..n]), rest[n..]))
        else
          match ParseInPublish(bs[0], rest[..n])
          case None => None
          case Some(p) => Some((p, rest[n..]))
  }

  /** The whole packets at the front of a stream, and what is left. */
  function WholePackets(bs: seq<byte>): (seq<InPacket>, seq<byte>)
    decreases |bs|
  {
    match ParseIn(bs)
    case None => ([], bs)
    case Some((p, rest)) =>
      var (ps, left) := WholePackets(rest);
      ([p] + ps, left)
  }

  function DeliveryOf(p: InPacket): seq<Delivery> {
    if p.InPublish? then [Delivery(p.topic, p.payload)] else []
  }

  function Deliveries(ps: seq<InPacket>): seq<Delivery> {
    if ps == [] then [] else DeliveryOf(ps[0]) + Deliveries(ps[1..])
  }

  /** The deliveries a stream means. */
  function Meant(bs: seq<byte>): seq<Delivery> {
    Deliveries(WholePackets(bs).0)
  }

  /** For packets that a client of this firmware sends too, this is what its own parser says. */
  lemma SameAsOutgoing(bs: seq<byte>)
    requires bs != [] && bs[0] == 0x30
    ensures ParsePacket(bs) == match ParseIn(bs)
                               case None => None
                               case Some((p, rest)) => Some((Publish(p.topic, p.payload), rest))
  {
    hide ParseStr, ParseVarInt;
  }

  // ------------------------------------------------------------- one receive: exactly when it is right

  predicate NoPublish(ps: seq<InPacket>) {
    forall p | p in ps :: p.Other?
  }

  lemma {:induction false} NoPublishIff(ps: seq<InPacket>)
    ensures Deliveries(ps) == [] <==> NoPublish(ps)
  {
    if ps != [] {
      var p, rest := ps[0], ps[1..];
      NoPublishIff(rest);
      assert ps == [p] + rest;
      assert NoPublish(ps) <==> p.Other? && NoPublish(rest);
    }
  }

  /** A receive the code handles as the standard means it: it starts with another packet and no PUBLISH
      follows; or it is exactly one whole PUBLISH, whose topic fits; or it starts with a PUBLISH that is not
      whole, or not allowed, and that the code gives up. */
  predicate Plain(bs: seq<byte>) {
    bs == [] ||
    if MessageType(bs[0]) != 0x30 then NoPublish(WholePackets(bs).0)
    else
      match ParseIn(bs)
      case None => Rejected(bs)
      case Some((p, rest)) => rest == [] && p.InPublish? && Survives(p.topic)
  }

  /** A Remaining Length as the parser reads it ends where the code finds its end. */
  lemma {:induction false} LengthEnds(bs: seq<byte>, pos: nat, left: nat)
    requires pos <= |bs| && ParseVarInt(bs[pos..], left).Some?
    ensures SkipLength(bs, pos).Some?
    ensures ParseVarInt(bs[pos..], left).value == (LengthValue(bs[pos..SkipLength(bs, pos).value]), bs[SkipLength(bs, pos).value..])
    decreases |bs| - pos
  {
    assert bs[pos..][1..] == bs[pos + 1..];
    if bs[pos] >= 128 {
      LengthEnds(bs, pos + 1, left - 1);
      var end := SkipLength(bs, pos).value;
      assert bs[pos..end][1..] == bs[pos + 1..end];
    } else {
      assert bs[pos..pos + 1] == [bs[pos]];
      assert LengthValue([bs[pos]][1..]) == 0;
    }
  }

  /** Of a whole PUBLISH at the front the code delivers the topic, and all that follows as its payload. */
  lemma FrontDelivered(bs: seq<byte>, beyond: seq<byte>)
    requires bs != [] && |bs| < 0x1_0000 && |beyond| == TOPIC_COPY && MessageType(bs[0]) == 0x30 && ParseIn(bs).Some?
    ensures var (p, rest) := ParseIn(bs).value;
            p.InPublish? && Delivers(bs, beyond) == [Delivery(TopicBuffer(p.topic), p.payload + rest)]
  {
    hide SkipLength, LengthValue, Join, TopicBuffer, ReceivedFields, ParseVarInt, Allowed, MessageType;
    LengthEnds(bs, 1, 4);
    var pos := SkipLength(bs, 1).value;
    var (n, after) := ParseVarInt(bs[1..], 4).value;
    var body, rest := after[..n], after[n..];
    var (topic, tail) := ParseStr(body).value;
    assert after == bs[pos..] && after == body + rest;
    FrontFields(bs, pos, body, rest, topic, tail);
    FieldsRead(bs, beyond, pos, topic, tail + rest);
    assert |tail| >= 2 ==> (tail + rest)[2..] == tail[2..] + rest;
  }

  lemma FrontFields(bs: seq<byte>, pos: nat, body: seq<byte>, rest: seq<byte>, topic: seq<byte>, tail: seq<byte>)
    requires pos <= |bs| && bs[pos..] == body + rest && ParseStr(body) == Some((topic, tail))
    ensures pos + 2 + |topic| <= |bs| && Join(bs[pos], bs[pos + 1]) == |topic|
    ensures bs[pos + 2..pos + 2 + |topic|] == topic && bs[pos + 2 + |topic|..] == tail + rest
  {
    hide Join;
    var s, n := bs[pos..], |topic|;
    assert s[0] == body[0] && s[1] == body[1];
    Pieces(body[..2], topic, tail, rest);
    assert body == body[..2] + topic + tail;
    FromWithin(bs, pos, 2, 2 + n);
  }

  lemma Pieces(front: seq<byte>, topic: seq<byte>, tail: seq<byte>, rest: seq<byte>)
    ensures var s := front + topic + tail + rest;
            && s[|front|..|front| + |topic|] == topic && s[|front| + |topic|..] == tail + rest
  {
  }

  lemma FromWithin(s: seq<byte>, pos: nat, i: nat, j: nat)
    requires i <= j && pos + j <= |s|
    ensures s[pos..][i..j] == s[pos + i..pos + j] && s[pos..][j..] == s[pos + j..]
  {
  }

  /** Whatever is received: what is delivered is what is meant exactly for the plain receives. */
  lemma DeliveredAsMeantIff(bs: seq<byte>, beyond: seq<byte>)
    requires |bs| < 0x1_0000 && |beyond| == TOPIC_COPY
    ensures Delivers(bs, beyond) == Meant(bs) <==> Plain(bs)
  {
    hide MessageType, ParseIn, Rejected, DecodeReceived, Survives, NoPublish;
    NoPublishIff(WholePackets(bs).0);
    if bs == [] {
      NothingMeant();
    } else if MessageType(bs[0]) == 0x30 {
      RejectedIff(bs, beyond);
      if ParseIn(bs).Some? {
        var (p, rest) := ParseIn(bs).value;
        FrontDelivered(bs, beyond);
        MeantFront(bs);
        OneIsRightIff(p, rest);
      }
    }
  }

  lemma NothingMeant()
    ensures Meant([]) == []
  {
  }

  lemma MeantFront(bs: seq<byte>)
    requires ParseIn(bs).Some? && ParseIn(bs).value.0.InPublish?
    ensures var (p, rest) := ParseIn(bs).value;
            Meant(bs) == [Delivery(p.topic, p.payload)] + Meant(rest)
  {
    hide ParseIn;
    var (p, rest) := ParseIn(bs).value;
    assert ([p] + WholePackets(rest).0)[1..] == WholePackets(rest).0;
  }

  lemma OneIsRightIff(p: InPacket, rest: seq<byte>)
    requires p.InPublish?
    ensures [Delivery(TopicBuffer(p.topic), p.payload + rest)] == [Delivery(p.topic, p.payload)] + Meant(rest)
            <==> rest == [] && Survives(p.topic)
  {
    hide TopicBuffer, Survives, WholePackets;
    SurvivesIff(p.topic);
    var d, e := Delivery(TopicBuffer(p.topic), p.payload + rest), Delivery(p.topic, p.payload);
    if rest == [] {
      NothingMeant();
      assert p.payload + rest == p.payload;
      assert [e] + Meant(rest) == [e];
    } else {
      assert |p.payload + rest| > |p.payload|;
      assert ([e] + Meant(rest))[0] == e;
    }
  }

  // -------------------------------------------------------------------------- a series of receives

  /** One receive: the table it met, its bytes, and what lay behind them. */
  datatype Receipt = Receipt(subs: seq<Subscription>, bytes: seq<byte>, beyond: seq<byte>)

  predicate Proper(r: Receipt) {
    |r.bytes| < 0x1_0000 && |r.beyond| == TOPIC_COPY
  }

  predicate AllProper(rs: seq<Receipt>) {
    forall r | r in rs :: Proper(r)
  }

  function BytesOf(rs: seq<Receipt>): seq<byte> {
    if rs == [] then [] else BytesOf(rs[..|rs| - 1]) + rs[|rs| - 1].bytes
  }

  /** What the code delivered, in order. */
  function Delivered(rs: seq<Receipt>): seq<Delivery>
    requires AllProper(rs)
  {
    if rs == [] then []
    else
      var r := rs[|rs| - 1];
      assert r in rs;
      Delivered(rs[..|rs| - 1]) + Delivers(r.bytes, r.beyond)
  }

  /** The callbacks it made. */
  function CallsMade(rs: seq<Receipt>): seq<Call>
    requires AllProper(rs)
  {
    if rs == [] then []
    else
      var r := rs[|rs| - 1];
      assert r in rs;
      CallsMade(rs[..|rs| - 1]) + CallsOf(r.subs, Delivers(r.bytes, r.beyond))
  }

  lemma ReceiptsSnoc(rs: seq<Receipt>, r: Receipt)
    requires AllProper(rs) && Proper(r)
    ensures AllProper(rs + [r]) && BytesOf(rs + [r]) == BytesOf(rs) + r.bytes
    ensures CallsMade(rs + [r]) == CallsMade(rs) + CallsOf(r.subs, Delivers(r.bytes, r.beyond))
  {
    assert (rs + [r])[..|rs + [r]| - 1] == rs;
  }

  lemma {:induction false} CallsConcat(subs: seq<Subscription>, a: seq<Delivery>, b: seq<Delivery>)
    ensures CallsOf(subs, a + b) == CallsOf(subs, a) + CallsOf(subs, b)
    decreases |b|
  {
    hide Invoked;
    if b == [] {
      assert a + b == a && CallsOf(subs, a) + [] == CallsOf(subs, a);
    } else {
      CallsConcat(subs, a, b[..|b| - 1]);
      assert (a + b)[..|a + b| - 1] == a + b[..|b| - 1];
    }
  }

  /** With one table throughout, the callbacks are those of the deliveries. */
  lemma {:induction false} SameTable(subs: seq<Subscription>, rs: seq<Receipt>)
    requires AllProper(rs) && forall r | r in rs :: r.subs == subs
    ensures CallsMade(rs) == CallsOf(subs, Delivered(rs))
  {
    hide Delivers, CallsOf;
    if rs == [] {
      NoCalls(subs);
    } else {
      var front, r := rs[..|rs| - 1], rs[|rs| - 1];
      assert r in rs;
      SameTable(subs, front);
      CallsConcat(subs, Delivered(front), Delivers(r.bytes, r.beyond));
    }
  }

  lemma NoCalls(subs: seq<Subscription>)
    ensures CallsOf(subs, []) == []
  {
  }

  /** The stream was received cut between packets. */
  predicate CutBetweenPackets(rs: seq<Receipt>) {
    forall r | r in rs :: WholePackets(r.bytes).1 == []
  }

  predicate AllPlain(rs: seq<Receipt>) {
    forall r | r in rs :: Plain(r.bytes)
  }

  lemma {:induction false} VarIntFront(a: seq<byte>, b: seq<byte>, left: nat)
    requires ParseVarInt(a, left).Some?
    ensures var (n, rest) := ParseVarInt(a, left).value;
            ParseVarInt(a + b, left) == Some((n, rest + b))
    decreases left
  {
    assert (a + b)[1..] == a[1..] + b;
    if a[0] >= 128 {
      VarIntFront(a[1..], b, left - 1);
    }
  }

  lemma FrontPacket(a: seq<byte>, b: seq<byte>)
    requires ParseIn(a).Some?
    ensures var (p, rest) := ParseIn(a).value;
            ParseIn(a + b) == Some((p, rest + b))
  {
    hide ParseVarInt, ParseInPublish;
    VarIntFront(a[1..], b, 4);
    assert (a + b)[1..] == a[1..] + b;
    var (n, after) := ParseVarInt(a[1..], 4).value;
    assert (after + b)[..n] == after[..n] && (after + b)[n..] == after[n..] + b;
  }

  lemma {:induction false} WholeConcat(a: seq<byte>, b: seq<byte>)
    requires WholePackets(a).1 == []
    ensures WholePackets(a + b) == (WholePackets(a).0 + WholePackets(b).0, WholePackets(b).1)
    decreases |a|
  {
    hide ParseIn;
    if ParseIn(a).Some? {
      var (p, rest) := ParseIn(a).value;
      FrontPacket(a, b);
      WholeConcat(rest, b);
      Flat.Associative([p], WholePackets(rest).0, WholePackets(b).0);
    } else {
      assert a == [] && a + b == b;
      assert [] + WholePackets(b).0 == WholePackets(b).0;
    }
  }

  lemma {:induction false} DeliveriesConcat(p: seq<InPacket>, q: seq<InPacket>)
    ensures Deliveries(p + q) == Deliveries(p) + Deliveries(q)
  {
    hide DeliveryOf;
    if p == [] {
      assert p + q == q;
      assert [] + Deliveries(q) == Deliveries(q);
    } else {
      DeliveriesConcat(p[1..], q);
      assert (p + q)[1..] == p[1..] + q;
      Flat.Associative(DeliveryOf(p[0]), Deliveries(p[1..]), Deliveries(q));
    }
  }

  /** Bytes made of whole packets: nothing is delivered that they do not mean in number. */
  lemma NoneInvented(bs: seq<byte>, beyond: seq<byte>)
    requires |bs| < 0x1_0000 && |beyond| == TOPIC_COPY && WholePackets(bs).1 == []
    ensures |Delivers(bs, beyond)| <= |Meant(bs)|
  {
    hide ParseIn, DecodeReceived, MessageType;
    if bs != [] && MessageType(bs[0]) == 0x30 {
      FrontDelivered(bs, beyond);
      MeantFront(bs);
    }
  }

  lemma WholeSeries(rs: seq<Receipt>)
    requires CutBetweenPackets(rs)
    ensures WholePackets(BytesOf(rs)).1 == []
  {
    if rs != [] {
      var front, r := rs[..|rs| - 1], rs[|rs| - 1];
      WholeSeries(front);
      assert r in rs;
      WholeConcat(BytesOf(front), r.bytes);
    } else {
      assert WholePackets([]) == ([], []);
    }
  }

  lemma MeantConcat(a: seq<byte>, b: seq<byte>)
    requires WholePackets(a).1 == []
    ensures Meant(a + b) == Meant(a) + Meant(b)
  {
    WholeConcat(a, b);
    DeliveriesConcat(WholePackets(a).0, WholePackets(b).0);
  }

  lemma {:induction false} SeriesCount(rs: seq<Receipt>)
    requires AllProper(rs) && CutBetweenPackets(rs)
    ensures |Delivered(rs)| <= |Meant(BytesOf(rs))|
  {
    hide WholePackets, Meant, Delivers;
    if rs != [] {
      var front, r := rs[..|rs| - 1], rs[|rs| - 1];
      assert r in rs;
      SeriesCount(front);
      WholeSeries(front);
      MeantConcat(BytesOf(front), r.bytes);
      NoneInvented(r.bytes, r.beyond);
    }
  }

  /** However a stream of whole packets is spread over receives, as long as none is cut: the deliveries are
      those of the PUBLISH packets in the stream, in order, exactly if every receive is a plain one. */
  lemma {:induction false} SeriesIff(rs: seq<Receipt>)
    requires AllProper(rs) && CutBetweenPackets(rs)
    ensures Delivered(rs) == Meant(BytesOf(rs)) <==> AllPlain(rs)
  {
    hide WholePackets, Meant, Delivers, Plain;
    if rs == [] {
      NothingMeant();
    } else {
      var front, r := rs[..|rs| - 1], rs[|rs| - 1];
      assert r in rs && rs == front + [r];
      SeriesIff(front);
      SeriesCount(front);
      WholeSeries(front);
      MeantConcat(BytesOf(front), r.bytes);
      NoneInvented(r.bytes, r.beyond);
      DeliveredAsMeantIff(r.bytes, r.beyond);
      SplitSums(Delivered(front), Delivers(r.bytes, r.beyond), Meant(BytesOf(front)), Meant(r.bytes));
      assert AllPlain(rs) <==> AllPlain(front) && Plain(r.bytes);
    }
  }

  lemma SplitSums<T>(a: seq<T>, b: seq<T>, c: seq<T>, d: seq<T>)
    requires |a| <= |c| && |b| <= |d|
    ensures a + b == c + d <==> a == c && b == d
  {
    if a + b == c + d {
      assert |a| == |c|;
      assert (a + b)[..|a|] == a && (c + d)[..|c|] == c;
      assert (a + b)[|a|..] == b && (c + d)[|c|..] == d;
    }
  }

  // ---------------------------------------------------------------------- packets of section 3.3

  predicate MayBeSent(dup: bool, qos: nat, topic: seq<byte>, id: u16) {
    (dup ==> qos > 0) && Legal(Publish(topic, [])) && (qos > 0 ==> id != 0)
  }

  /** A PUBLISH laid out as in section 3.3 is, in front of any bytes, read back as itself if the standard
      allows it, else not at all. */
  lemma FrameParses(dup: bool, qos: nat, retain: bool, topic: seq<byte>, id: u16, payload: seq<byte>, rest: seq<byte>)
    requires qos <= 2 && Short(topic) && |payload| < 0x100_0000
    ensures ParseIn(PublishFrame(dup, qos, retain, topic, id, payload) + rest) ==
            if MayBeSent(dup, qos, topic, id) then Some((InPublish(qos, topic, if qos == 0 then 0 else id, payload), rest))
            else None
  {
    hide VarInt, Str, ParseStr, ParseVarInt, ParseInPublish, MessageType, MayBeSent;
    var header, tail := PublishHeader(dup, qos, retain), PacketId(qos, id) + payload;
    var body := Str(topic) + tail;
    var bs := PublishFrame(dup, qos, retain, topic, id, payload) + rest;
    BodyParses(dup, qos, retain, topic, id, payload);
    FewDigits(|body|);
    VarIntRoundTrip(|body|, body + rest, 4);
    assert bs[1..] == VarInt(|body|) + (body + rest);
    assert (body + rest)[..|body|] == body && (body + rest)[|body|..] == rest;
    HeaderQos(dup, qos, retain);
  }

  lemma BodyParses(dup: bool, qos: nat, retain: bool, topic: seq<byte>, id: u16, payload: seq<byte>)
    requires qos <= 2 && Short(topic) && |payload| < 0x100_0000
    ensures |Str(topic) + (PacketId(qos, id) + payload)| < 0x1000_0000
    ensures ParseInPublish(PublishHeader(dup, qos, retain), Str(topic) + (PacketId(qos, id) + payload)) ==
            if MayBeSent(dup, qos, topic, id) then Some(InPublish(qos, topic, if qos == 0 then 0 else id, payload)) else None
  {
    hide Legal, ParseStr, Join, Hi, Lo, PublishHeader, Dup, Qos;
    StrRoundTrip(topic, PacketId(qos, id) + payload);
    HeaderQos(dup, qos, retain);
    HeaderDup(dup, qos, retain);
    JoinHiLo(id);
    IdField(qos, id, payload);
  }

  lemma HeaderDup(dup: bool, qos: nat, retain: bool)
    requires qos <= 2
    ensures Dup(PublishHeader(dup, qos, retain)) <==> dup
  {
  }

  // ------------------------------------------------------------------- inputs at which it is not right

  /** No PUBLISH packet, delivered all the same because the topic's length wraps around in 16 bits. */
  const WRAPPING: seq<byte> := [0x30, 4, 0xFF, 0xFC, 0x61, 0]
  /** A PUBLISH to "a" without payload, followed in the same receive by a PINGRESP. */
  const TRAILED: seq<byte> := [0x30, 3, 0, 1, 0x61, 0xD0, 0]
  /** The beginning of a PUBLISH of 102 bytes. */
  const CUT: seq<byte> := [0x30, 100, 0, 1, 0x61, 7]
  /** A SUBACK and, in the same receive, a PUBLISH to "a". */
  const COALESCED: seq<byte> := [0x90, 3, 0, 1, 0, 0x30, 3, 0, 1, 0x61]

  lemma WrappingExample(beyond: seq<byte>)
    requires |beyond| == TOPIC_COPY
    ensures !Plain(WRAPPING) && Meant(WRAPPING) == []
    ensures Delivers(WRAPPING, beyond) == [Delivery([0x61], WRAPPING)]
  {
    hide Plain, Meant, Text.CStr;
    WrappedLength();
    WrappingTopic(beyond);
    assert WRAPPING[0..] == WRAPPING;
    DeliveredAsMeantIff(WRAPPING, beyond);
  }

  lemma WrappedLength()
    ensures Meant(WRAPPING) == [] && SkipLength(WRAPPING, 1) == Some(2)
    ensures Join(WRAPPING[2], WRAPPING[3]) == 65532 && MessageType(WRAPPING[0]) == 0x30 && Qos(WRAPPING[0]) == 0
  {
    assert ParseVarInt(WRAPPING[1..], 4) == Some((4, WRAPPING[2..]));
    assert ParseIn(WRAPPING) == None;
  }

  lemma WrappingTopic(beyond: seq<byte>)
    requires |beyond| == TOPIC_COPY
    ensures Text.CStr((WRAPPING + beyond)[4..4 + TOPIC_COPY]) == [0x61]
  {
    var raw := (WRAPPING + beyond)[4..4 + TOPIC_COPY];
    assert raw[0] == 0x61 && raw[1] == 0;
    assert Text.CStr(raw[1..]) == [];
  }

  const TO_A: seq<byte> := [0x30, 3, 0, 1, 0x61]

  lemma ToA(rest: seq<byte>)
    ensures ParseIn(TO_A + rest) == Some((InPublish(0, [0x61], 0, []), rest))
    ensures Survives([0x61])
  {
    hide ParseIn, PublishFrame;
    FrameParses(false, 0, false, [0x61], 0, [], rest);
    FrameOfA();
  }

  lemma FrameOfA()
    ensures PublishFrame(false, 0, false, [0x61], 0, []) == TO_A
  {
    var a: seq<byte>, none: seq<byte> := [0x61], [];
    assert PacketId(0, 0) + none == none;
    assert Str(a) == [0, 1, 0x61];
    assert Str(a) + none == Str(a);
    assert VarInt(3) == [3];
    assert PublishHeader(false, 0, false) == 0x30;
  }

  lemma TrailedExample(beyond: seq<byte>)
    requires |beyond| == TOPIC_COPY
    ensures !Plain(TRAILED) && Meant(TRAILED) == [Delivery([0x61], [])]
    ensures Delivers(TRAILED, beyond) == [Delivery([0x61], [0xD0, 0])]
  {
    hide WholePackets, ParseIn, Delivers, Meant, Plain, TopicBuffer, MessageType, Survives;
    var pong: seq<byte> := [0xD0, 0];
    ToA(pong);
    assert TO_A + pong == TRAILED;
    Pong();
    PublishFirst();
    MeantFront(TRAILED);
    FrontDelivered(TRAILED, beyond);
    SurvivesIff([0x61]);
    DeliveredAsMeantIff(TRAILED, beyond);
    assert [Delivery([0x61], [])] + Meant(pong) == [Delivery([0x61], [])];
    assert [] + pong == pong;
  }

  lemma PublishFirst()
    ensures MessageType(TRAILED[0]) == 0x30
  {
  }

  lemma Pong()
    ensures Meant([0xD0, 0]) == []
  {
    var pong: seq<byte> := [0xD0, 0];
    assert ParseVarInt(pong[1..], 4) == Some((0, []));
    assert ParseIn(pong) == Some((Other(0xD0, []), []));
    assert WholePackets([]) == ([], []);
    assert WholePackets(pong).0 == [Other(0xD0, [])];
    NoPublishIff([Other(0xD0, [])]);
  }

  lemma CutShort()
    ensures Meant(CUT) == [] && SkipLength(CUT, 1) == Some(2)
  {
    assert ParseVarInt(CUT[1..], 4) == Some((100, CUT[2..]));
    assert ParseIn(CUT) == None;
  }

  lemma CutExample(beyond: seq<byte>)
    requires |beyond| == TOPIC_COPY
    ensures !Plain(CUT) && Meant(CUT) == []
    ensures Delivers(CUT, beyond) == [Delivery([0x61], [7])]
  {
    hide ReceivedFields, TopicBuffer, Meant, Plain;
    CutShort();
    FieldsRead(CUT, beyond, 2, [0x61], [7]);
    SurvivesIff([0x61]);
    DeliveredAsMeantIff(CUT, beyond);
  }

  lemma CoalescedExample(beyond: seq<byte>)
    requires |beyond| == TOPIC_COPY
    ensures !Plain(COALESCED) && Meant(COALESCED) == [Delivery([0x61], [])]
    ensures Delivers(COALESCED, beyond) == []
  {
    Suback();
    ToA([]);
    assert TO_A + [] == TO_A;
    hide ParseIn;
    NothingMeant();
    MeantFront(TO_A);
    assert ([Other(0x90, [0, 1, 0])] + WholePackets(TO_A).0)[1..] == WholePackets(TO_A).0;
    NoPublishIff(WholePackets(COALESCED).0);
  }

  lemma Suback()
    ensures ParseIn(COALESCED) == Some((Other(0x90, [0, 1, 0]), TO_A))
  {
    assert ParseVarInt(COALESCED[1..], 4) == Some((3, COALESCED[2..]));
    assert COALESCED[2..][..3] == [0, 1, 0] && COALESCED[2..][3..] == TO_A;
  }
}
