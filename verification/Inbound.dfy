/** What the client makes of a received PUBLISH (MinimalMQTT::process_incoming_packet). */
module Inbound {
  import opened Words
  import opened Packets
  import Flat
  import Text
  import Ring

  const MAX_TOPIC_LENGTH := 32

  datatype Delivery = Delivery(topic: seq<byte>, payload: seq<byte>)

  /** The position behind a Remaining Length that starts at pos, if it ends within bs. */
  function SkipLength(bs: seq<byte>, pos: nat): (r: Option<nat>)
    requires pos <= |bs|
    ensures r.Some? ==> pos < r.value <= |bs|
    decreases |bs| - pos
  {
    if pos == |bs| then None
    else if bs[pos] < 128 then Some(pos + 1)
    else SkipLength(bs, pos + 1)
  }

  /** The number a run of length bytes stands for. */
  function LengthValue(ds: seq<byte>): nat {
    if ds == [] then 0 else ds[0] % 128 + 128 * LengthValue(ds[1..])
  }

  function Power128(k: nat): nat {
    if k == 0 then 1 else 128 * Power128(k - 1)
  }

  lemma {:induction false} LengthValueSnoc(ds: seq<byte>, d: byte)
    ensures LengthValue(ds + [d]) == LengthValue(ds) + d % 128 * Power128(|ds|)
  {
    if ds == [] {
      assert [] + [d] == [d];
      assert [d][1..] == [];
    } else {
      var low, rest := ds[0] % 128, ds[1..];
      assert (ds + [d])[1..] == rest + [d];
      LengthValueSnoc(rest, d);
      assert Power128(|ds|) == 128 * Power128(|rest|);
      assert 128 * (d % 128 * Power128(|rest|)) == d % 128 * Power128(|ds|);
    }
  }

  lemma {:induction false} LengthValueOfVarInt(n: nat)
    ensures LengthValue(VarInt(n)) == n
  {
    if n < 128 {
      assert VarInt(n)[1..] == [];
    } else {
      LengthValueOfVarInt(n / 128);
      assert VarInt(n)[1..] == VarInt(n / 128);
    }
  }

  lemma {:induction false} SkipVarInt(front: seq<byte>, n: nat, rest: seq<byte>)
    ensures SkipLength(front + (VarInt(n) + rest), |front|) == Some(|front| + |VarInt(n)|)
    decreases n
  {
    var bs := front + (VarInt(n) + rest);
    assert bs[|front|] == VarInt(n)[0];
    if n >= 128 {
      var d := [n % 128 + 128];
      SkipVarInt(front + d, n / 128, rest);
      assert bs == front + d + (VarInt(n / 128) + rest);
    }
  }

  /** Encoding a length and decoding it again consumes exactly the encoded bytes and gives it back. */
  lemma LengthRoundTrip(n: nat, header: byte, rest: seq<byte>)
    ensures var bs := [header] + (VarInt(n) + rest);
            && SkipLength(bs, 1) == Some(1 + |VarInt(n)|)
            && LengthValue(bs[1..1 + |VarInt(n)|]) == n
  {
    var bs := [header] + (VarInt(n) + rest);
    SkipVarInt([header], n, rest);
    LengthValueOfVarInt(n);
    assert bs[1..1 + |VarInt(n)|] == VarInt(n);
  }

  lemma WrappedSum(x: nat, d: nat, p: nat)
    ensures (x % U32_RANGE + d * (p % U32_RANGE)) % U32_RANGE == (x + d * p) % U32_RANGE
  {
    var m := U32_RANGE;
    var lost := x / m + d * (p / m);
    var low := x % m + d * (p % m);
    assert x == x / m * m + x % m && p == p / m * m + p % m;
    assert d * p == d * (p / m * m) + d * (p % m);
    assert d * (p / m * m) == d * (p / m) * m;
    assert x + d * p == low + lost * m;
    Ring.AddMultiple(low, lost, m);
  }

  /** The decoder loop, in uint32_t arithmetic: it stops within the received bytes. */
  method DecodeLength(buf: array<byte>, len: nat) returns (ok: bool, pos: nat, value: u32)
    requires 1 <= len <= buf.Length
    ensures SkipLength(buf[..len], 1) == if ok then Some(pos) else None
    ensures ok ==> 1 < pos <= len && value == LengthValue(buf[1..pos]) % U32_RANGE
  {
    ghost var bs := buf[..len];
    var multiplier: u32 := 1;
    pos, value := 1, 0;
    assert buf[1..1] == [];
    while true
      invariant 1 <= pos <= len && buf[..len] == bs
      invariant SkipLength(bs, 1) == SkipLength(bs, pos)
      invariant value == LengthValue(buf[1..pos]) % U32_RANGE
      invariant multiplier == Power128(pos - 1) % U32_RANGE
      decreases len - pos
    {
      if pos >= len {
        return false, pos, value;
      }
      var encoded := buf[pos];
      assert buf[1..pos + 1] == buf[1..pos] + [encoded];
      LengthValueSnoc(buf[1..pos], encoded);
      WrappedSum(LengthValue(buf[1..pos]), encoded % 128, Power128(pos - 1));
      WrappedSum(0, 128, Power128(pos - 1));
      pos := pos + 1;
      value := (value + encoded % 128 * multiplier) % U32_RANGE;
      multiplier := multiplier * 128 % U32_RANGE;
      if encoded < 128 {
        break;
      }
    }
    ok := true;
  }

  function Qos(header: byte): nat {
    header / 2 % 4
  }

  function MessageType(header: byte): byte {
    header / 16 * 16
  }

  /** What the 32-byte topic buffer holds, as a C string, after a topic is copied into it. */
  function TopicBuffer(topic: seq<byte>): seq<byte> {
    Text.CStr(topic[..Min(|topic|, MAX_TOPIC_LENGTH - 1)])
  }

  // ----------------------------------------------------------------------- what the code delivers

  const TOPIC_COPY := MAX_TOPIC_LENGTH - 1

  /** Topic and payload of a received PUBLISH, None where the code gives up. The value of the Remaining
      Length is not used, the position behind the topic is computed in 16 bits, and the topic is copied from
      memory in which the bytes `beyond` follow the received ones. */
  function DecodeReceived(bs: seq<byte>, beyond: seq<byte>): Option<Delivery>
    requires bs != [] && |beyond| == TOPIC_COPY
  {
    var skipped := SkipLength(bs, 1);
    if skipped.None? then None else ReceivedFields(bs, beyond, skipped.value)
  }

  function ReceivedFields(bs: seq<byte>, beyond: seq<byte>, pos: nat): Option<Delivery>
    requires 0 < pos <= |bs| && |beyond| == TOPIC_COPY
  {
    if pos + 2 > |bs| then None
    else
      var topicLen := Join(bs[pos], bs[pos + 1]);
      var to := (pos + 2 + topicLen) % 0x1_0000;
      if to > |bs| then None
      else
        var topic := Text.CStr((bs + beyond)[pos + 2..pos + 2 + Min(topicLen, TOPIC_COPY)]);
        if Qos(bs[0]) == 0 then Some(Delivery(topic, bs[to..]))
        else if to + 2 > |bs| then None
        else Some(Delivery(topic, bs[to + 2..]))
  }

  /** What one receive leads to: one delivery or none. */
  function Delivers(bs: seq<byte>, beyond: seq<byte>): (r: seq<Delivery>)
    requires |beyond| == TOPIC_COPY
    ensures |r| <= 1
  {
    if bs == [] || MessageType(bs[0]) != 0x30 then []
    else
      match DecodeReceived(bs, beyond)
      case None => []
      case Some(d) => [d]
  }

  /** The guards at which the code gives a PUBLISH up. */
  predicate Rejected(bs: seq<byte>)
    requires bs != []
  {
    var skipped := SkipLength(bs, 1);
    skipped.None? || RejectedAt(bs, skipped.value)
  }

  predicate RejectedAt(bs: seq<byte>, pos: nat)
    requires 0 < pos <= |bs|
  {
    || pos + 2 > |bs|
    || (var to := (pos + 2 + Join(bs[pos], bs[pos + 1])) % 0x1_0000;
        to > |bs| || (Qos(bs[0]) > 0 && to + 2 > |bs|))
  }

  lemma RejectedIff(bs: seq<byte>, beyond: seq<byte>)
    requires bs != [] && |beyond| == TOPIC_COPY
    ensures DecodeReceived(bs, beyond) == None <==> Rejected(bs)
  {
    hide SkipLength, Qos, Join, Text.CStr;
  }

  /** Fields that fit are read as they are, the topic as what fits its buffer; all bytes behind them are
      taken for the payload. */
  lemma FieldsRead(bs: seq<byte>, beyond: seq<byte>, pos: nat, topic: seq<byte>, tail: seq<byte>)
    requires 0 < pos && pos + 2 + |topic| <= |bs| < 0x1_0000 && |beyond| == TOPIC_COPY
    requires Join(bs[pos], bs[pos + 1]) == |topic| && bs[pos + 2..pos + 2 + |topic|] == topic
    requires tail == bs[pos + 2 + |topic|..]
    ensures ReceivedFields(bs, beyond, pos) ==
            if Qos(bs[0]) == 0 then Some(Delivery(TopicBuffer(topic), tail))
            else if |tail| < 2 then None
            else Some(Delivery(TopicBuffer(topic), tail[2..]))
  {
    hide Qos, Join, Text.CStr, TopicBuffer;
    SameTopic(bs, beyond, pos + 2, |topic|);
    SameTail(bs, pos + 2 + |topic|);
  }

  lemma SameTopic(bs: seq<byte>, beyond: seq<byte>, at: nat, topicLen: u16)
    requires at + topicLen <= |bs| && |beyond| == TOPIC_COPY
    ensures Text.CStr((bs + beyond)[at..at + Min(topicLen, TOPIC_COPY)]) == TopicBuffer(bs[at..at + topicLen])
  {
    hide Text.CStr;
    var n := Min(topicLen, TOPIC_COPY);
    InFront(bs, beyond, at, n);
    FirstOf(bs, at, topicLen, n);
  }

  lemma InFront(a: seq<byte>, b: seq<byte>, i: nat, n: nat)
    requires i + n <= |a|
    ensures (a + b)[i..i + n] == a[i..i + n]
  {
  }

  lemma FirstOf(a: seq<byte>, i: nat, k: nat, n: nat)
    requires n <= k && i + k <= |a|
    ensures a[i..i + k][..n] == a[i..i + n]
  {
  }

  lemma SameTail(bs: seq<byte>, to: nat)
    requires to <= |bs|
    ensures to + 2 <= |bs| ==> bs[to..][2..] == bs[to + 2..]
  {
  }

  // ------------------------------------------------------------------- packets of section 3.3

  function PacketId(qos: nat, id: u16): seq<byte> {
    if qos == 0 then [] else [Hi(id), Lo(id)]
  }

  function PublishHeader(dup: bool, qos: nat, retain: bool): byte
    requires qos <= 2
  {
    0x30 + (if dup then 8 else 0) + 2 * qos + (if retain then 1 else 0)
  }

  function PublishFrame(dup: bool, qos: nat, retain: bool, topic: seq<byte>, id: u16, payload: seq<byte>): seq<byte>
    requires qos <= 2 && Short(topic)
  {
    var body := Str(topic) + (PacketId(qos, id) + payload);
    [PublishHeader(dup, qos, retain)] + (VarInt(|body|) + body)
  }

  lemma FrameOfPublish(topic: seq<byte>, payload: seq<byte>)
    requires Short(topic) && Short(payload)
    ensures Encode(Publish(topic, payload)) == PublishFrame(false, 0, false, topic, 0, payload)
  {
    assert [] + payload == payload;
  }

  lemma StringField(front: seq<byte>, s: seq<byte>, tail: seq<byte>)
    requires Short(s)
    ensures var bs, pos := front + (Str(s) + tail), |front|;
            && pos + 2 + |s| <= |bs|
            && Join(bs[pos], bs[pos + 1]) == |s|
            && bs[pos + 2..pos + 2 + |s|] == s
            && bs[pos + 2 + |s|..] == tail
  {
    var bs, pos := front + (Str(s) + tail), |front|;
    assert bs[pos] == Str(s)[0] && bs[pos + 1] == Str(s)[1];
  }

  lemma IdField(qos: nat, id: u16, payload: seq<byte>)
    ensures var tail := PacketId(qos, id) + payload;
            if qos > 0 then |tail| >= 2 && tail[2..] == payload else tail == payload
  {
  }

  /** Any single PUBLISH laid out as in section 3.3 is decoded to its payload and to its topic as a C
      string of at most 31 bytes. */
  lemma DecodeFrame(dup: bool, qos: nat, retain: bool, topic: seq<byte>, id: u16, payload: seq<byte>, beyond: seq<byte>)
    requires qos <= 2 && Short(topic) && |beyond| == TOPIC_COPY
    requires |PublishFrame(dup, qos, retain, topic, id, payload)| < 0x1_0000
    ensures Delivers(PublishFrame(dup, qos, retain, topic, id, payload), beyond) == [Delivery(TopicBuffer(topic), payload)]
  {
    hide TopicBuffer, VarInt, Str, Join, PacketId, SkipLength, Qos, PublishHeader, LengthValue, ReceivedFields, MessageType;
    var header := PublishHeader(dup, qos, retain);
    var tail := PacketId(qos, id) + payload;
    var body := Str(topic) + tail;
    var front := [header] + VarInt(|body|);
    Flat.Associative([header], VarInt(|body|), body);
    LengthRoundTrip(|body|, header, body);
    StringField(front, topic, tail);
    IdField(qos, id, payload);
    HeaderQos(dup, qos, retain);
    FieldsRead(front + body, beyond, |front|, topic, tail);
  }

  lemma HeaderQos(dup: bool, qos: nat, retain: bool)
    requires qos <= 2
    ensures Qos(PublishHeader(dup, qos, retain)) == qos
    ensures MessageType(PublishHeader(dup, qos, retain)) == 0x30
  {
  }

  /** A topic fits the buffer and is a C string. */
  predicate Survives(topic: seq<byte>) {
    |topic| < MAX_TOPIC_LENGTH && 0 !in topic
  }

  lemma SurvivesIff(topic: seq<byte>)
    ensures TopicBuffer(topic) == topic <==> Survives(topic)
  {
    if Survives(topic) {
      assert topic[..Min(|topic|, MAX_TOPIC_LENGTH - 1)] == topic;
    }
  }

  /** The topic survives exactly when it is at most 31 bytes long and free of NUL. */
  lemma TopicSurvivesIff(dup: bool, qos: nat, retain: bool, topic: seq<byte>, id: u16, payload: seq<byte>, beyond: seq<byte>)
    requires qos <= 2 && Short(topic) && |beyond| == TOPIC_COPY
    requires |PublishFrame(dup, qos, retain, topic, id, payload)| < 0x1_0000
    ensures Delivers(PublishFrame(dup, qos, retain, topic, id, payload), beyond) == [Delivery(topic, payload)]
            <==> Survives(topic)
  {
    hide PublishFrame, Delivers, TopicBuffer, Survives;
    DecodeFrame(dup, qos, retain, topic, id, payload, beyond);
    SurvivesIff(topic);
  }

  // -------------------------------------------------------------------------------- subscriptions

  datatype Callback = NoCallback | Handler(id: nat)

  datatype Subscription = Subscription(topic: seq<byte>, callback: Callback, active: bool)

  datatype Call = Call(slot: nat, handler: nat, topic: seq<byte>, payload: seq<byte>)

  predicate Matches(s: Subscription, topic: seq<byte>): (r: bool)
    ensures r ==> s.callback.Handler?
  {
    s.active && s.topic == topic && s.callback.Handler?
  }

  /** The callbacks a delivery invokes among the first n slots, in order. */
  function Invoked(subs: seq<Subscription>, n: nat, d: Delivery): seq<Call>
    requires n <= |subs|
  {
    if n == 0 then []
    else
      Invoked(subs, n - 1, d) +
      (if Matches(subs[n - 1], d.topic) then [Call(n - 1, subs[n - 1].callback.id, d.topic, d.payload)] else [])
  }

  /** The callbacks of a series of deliveries. */
  function CallsOf(subs: seq<Subscription>, ds: seq<Delivery>): seq<Call> {
    if ds == [] then []
    else CallsOf(subs, ds[..|ds| - 1]) + Invoked(subs, |subs|, ds[|ds| - 1])
  }

  lemma CallsOfOne(subs: seq<Subscription>, d: Delivery)
    ensures CallsOf(subs, [d]) == Invoked(subs, |subs|, d)
  {
    assert [d][..0] == [];
    assert [] + Invoked(subs, |subs|, d) == Invoked(subs, |subs|, d);
  }

  /** Among the first n slots every matching one is called once, in order, with the delivery; no other is. */
  predicate CalledOnce(subs: seq<Subscription>, n: nat, d: Delivery, calls: seq<Call>)
    requires n <= |subs|
  {
    && (forall c | c in calls ::
          && c.slot < n && Matches(subs[c.slot], d.topic)
          && c == Call(c.slot, subs[c.slot].callback.id, d.topic, d.payload))
    && (forall i, j | 0 <= i < j < |calls| :: calls[i].slot < calls[j].slot)
    && (forall i | 0 <= i < n && Matches(subs[i], d.topic) ::
          Call(i, subs[i].callback.id, d.topic, d.payload) in calls)
  }

  lemma {:induction false} InvokedExactly(subs: seq<Subscription>, n: nat, d: Delivery)
    requires n <= |subs|
    ensures CalledOnce(subs, n, d, Invoked(subs, n, d))
  {
    hide CalledOnce, Matches;
    if n > 0 {
      InvokedExactly(subs, n - 1, d);
      OneSlotMore(subs, n, d, Invoked(subs, n - 1, d));
    } else {
      NoSlot(subs, d);
    }
  }

  lemma NoSlot(subs: seq<Subscription>, d: Delivery)
    ensures CalledOnce(subs, 0, d, [])
  {
  }

  lemma OneSlotMore(subs: seq<Subscription>, n: nat, d: Delivery, before: seq<Call>)
    requires 0 < n <= |subs| && CalledOnce(subs, n - 1, d, before)
    ensures var last := Call(n - 1, if Matches(subs[n - 1], d.topic) then subs[n - 1].callback.id else 0, d.topic, d.payload);
            CalledOnce(subs, n, d, before + if Matches(subs[n - 1], d.topic) then [last] else [])
  {
    hide Matches;
    forall i | 0 <= i < |before|
      ensures before[i].slot < n - 1
    {
      assert before[i] in before;
    }
  }
}
