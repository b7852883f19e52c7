/** What the application makes of its configuration and of the messages it receives. */
module Messages {
  import opened Words
  import opened Text
  import opened Chimes
  import P = Packets
  import I = Inbound
  import C = Client
  import E = Settings

  const KEEPALIVE_S: u16 := 60
  const MAX_CLIENT_ID := 24
  const PAYLOAD: seq<byte> := [0x31]

  // ------------------------------------------------------------------------------ remote commands

  /** The chime a topic addresses by its last two characters. */
  function TargetOf(topic: seq<byte>): Option<Which> {
    var n := |topic|;
    if n < 2 || topic[n - 2] != 0x2F then None
    else if topic[n - 1] == 0x31 then Some(0)
    else if topic[n - 1] == 0x32 then Some(1)
    else None
  }

  /** A topic addresses a chime exactly if it ends in a slash and the chime's number. */
  lemma TargetIff(topic: seq<byte>, i: Which)
    ensures TargetOf(topic) == Some(i) <==> |topic| >= 2 && topic[|topic| - 2..] == E.Ascii(if i == 0 then "/1" else "/2")
  {
    assert E.Ascii("/1") == [0x2F, 0x31] && E.Ascii("/2") == [0x2F, 0x32];
    if |topic| >= 2 {
      assert topic[|topic| - 2..] == [topic[|topic| - 2], topic[|topic| - 1]];
    }
  }

  function CommandOf(payload: seq<byte>): Option<Chimes.Command> {
    if E.Ascii("ON") <= payload then Some(On)
    else if E.Ascii("OFF") <= payload then Some(Off)
    else if E.Ascii("RING") <= payload then Some(Ring)
    else None
  }

  function SubTopic(base: seq<byte>, i: Which): seq<byte> {
    base[..Min(|base|, I.MAX_TOPIC_LENGTH - 3)] + [0x2F, 0x31 + i]
  }

  /** What a message does to the chimes, if anything. */
  function MessageEvent(topic: seq<byte>, payload: seq<byte>): Option<Event> {
    var target, command := TargetOf(topic), CommandOf(payload);
    if target.Some? && command.Some? then Some(Received(target.value, command.value)) else None
  }

  /** The events a series of callbacks amounts to, in order. */
  function MessageEvents(calls: seq<I.Call>): seq<Event> {
    if calls == [] then []
    else
      MessageEvents(calls[..|calls| - 1]) +
      match MessageEvent(calls[|calls| - 1].topic, calls[|calls| - 1].payload)
      case Some(e) => [e]
      case None => []
  }

  lemma OneMore(calls: seq<I.Call>, from: nat, k: nat)
    requires from <= k < |calls|
    ensures MessageEvents(calls[from..k + 1]) ==
            MessageEvents(calls[from..k]) + match MessageEvent(calls[k].topic, calls[k].payload)
                                            case Some(e) => [e]
                                            case None => []
  {
    var some := calls[from..k + 1];
    assert some[..|some| - 1] == calls[from..k];
  }

  // ----------------------------------------------------------------------- configuration to packets

  function MqttConfig(c: E.SmartBellConfig): C.Config {
    var id := CStr(c.clientId);
    C.Config(c.brokerIp, c.brokerPort, id[..Min(|id|, MAX_CLIENT_ID - 1)], P.Anonymous, KEEPALIVE_S)
  }

  predicate HasBroker(c: E.SmartBellConfig) {
    c.brokerIp[0] != 0 || c.brokerIp[1] != 0 || c.brokerIp[2] != 0 || c.brokerIp[3] != 0
  }

  function PubTopic(c: E.SmartBellConfig, i: Which): seq<byte> {
    CStr(if i == 0 then c.input1Topic else c.input2Topic)
  }

  /** A terminated array holds a text shorter than itself. */
  lemma {:induction false} TextIsShorter(s: seq<byte>)
    requires 0 in s
    ensures |CStr(s)| < |s|
  {
    if s[0] != 0 {
      TextIsShorter(s[1..]);
    }
  }

  /** Every packet the application ever sends fits the 64-byte send buffer. */
  lemma PacketsFit(c: E.SmartBellConfig, i: Which)
    requires E.Sound(c)
    ensures C.ConfigOk(MqttConfig(c))
    ensures 7 + |SubTopic(CStr(c.gongBaseTopic), i)| <= 33
    ensures 4 + |PubTopic(c, i)| + |PAYLOAD| <= 29
    ensures 0 !in SubTopic(CStr(c.gongBaseTopic), i) && 0 !in PubTopic(c, i)
  {
    hide CStr, SubTopic;
    TextIsShorter(c.clientId);
    TextIsShorter(c.gongBaseTopic);
    TextIsShorter(c.input1Topic);
    TextIsShorter(c.input2Topic);
    SubTopicFits(CStr(c.gongBaseTopic), i);
  }

  lemma SubTopicFits(base: seq<byte>, i: Which)
    requires |base| <= E.MAX_TOPIC && 0 !in base
    ensures |SubTopic(base, i)| == |base| + 2 && 0 !in SubTopic(base, i)
  {
    assert base[..|base|] == base;
  }

  // ------------------------------------------------------------------------------- subscriptions

  const ON_MESSAGE := I.Handler(0)

  /** The table after both topics of a base have been subscribed on a fresh connection. */
  function BothSubscribed(base: seq<byte>): seq<I.Subscription> {
    [I.Subscription(SubTopic(base, 0), ON_MESSAGE, true), I.Subscription(SubTopic(base, 1), ON_MESSAGE, true)]
  }

  /** The table after trying both topics of a base on a table with two free slots. */
  function Subscribed(slots: seq<I.Subscription>, base: seq<byte>, first: bool, second: bool): seq<I.Subscription>
    requires |slots| == 2
  {
    if first && second then BothSubscribed(base)
    else if first then slots[0 := BothSubscribed(base)[0]]
    else if second then slots[0 := BothSubscribed(base)[1]]
    else slots
  }

  lemma SubscribedIff(slots: seq<I.Subscription>, base: seq<byte>, first: bool, second: bool)
    requires |slots| == 2 && !slots[1].active
    ensures Subscribed(slots, base, first, second) == BothSubscribed(base) <==> first && second
  {
    assert BothSubscribed(base)[1].active;
    assert !(first && second) ==> Subscribed(slots, base, first, second)[1] == slots[1];
  }

  /** A PUBLISH to the base topic plus "/1" or "/2" invokes the handler once, with its payload, and
      addresses exactly that chime. */
  lemma CommandReaches(base: seq<byte>, i: Which, dup: bool, qos: nat, retain: bool, id: u16, payload: seq<byte>,
                       beyond: seq<byte>)
    requires 0 !in base && qos <= 2 && |beyond| == I.TOPIC_COPY
    requires |I.PublishFrame(dup, qos, retain, SubTopic(base, i), id, payload)| < 0x1_0000
    ensures var topic := SubTopic(base, i);
            && C.Heard(BothSubscribed(base), I.PublishFrame(dup, qos, retain, topic, id, payload), beyond)
               == [I.Call(i, 0, topic, payload)]
            && TargetOf(topic) == Some(i)
            && topic == base[..Min(|base|, 29)] + E.Ascii(if i == 0 then "/1" else "/2")
  {
    hide I.PublishFrame, C.Heard;
    var topic, subs := SubTopic(base, i), BothSubscribed(base);
    assert E.Ascii("/1") == [0x2F, 0x31] && E.Ascii("/2") == [0x2F, 0x32];
    DistinctTopics(base);
    var calls := C.Delivered(subs, dup, qos, retain, topic, id, payload, beyond);
    assert I.Matches(subs[i], topic);
    OnlyCall(calls, I.Call(i, 0, topic, payload));
  }

  /** What a payload asks for, by its first letters: ON, OFF or RING. */
  function Asked(payload: seq<byte>): Option<Chimes.Command> {
    if |payload| >= 2 && payload[0] == 79 && payload[1] == 78 then Some(On)
    else if |payload| >= 3 && payload[0] == 79 && payload[1] == 70 && payload[2] == 70 then Some(Off)
    else if |payload| >= 4 && payload[0] == 82 && payload[1] == 73 && payload[2] == 78 && payload[3] == 71 then Some(Ring)
    else None
  }

  lemma AskedIs(payload: seq<byte>)
    ensures CommandOf(payload) == Asked(payload)
  {
    var on, off, ring := E.Ascii("ON"), E.Ascii("OFF"), E.Ascii("RING");
    assert on == [79, 78] && off == [79, 70, 70] && ring == [82, 73, 78, 71];
    hide E.Ascii;
  }

  /** A PUBLISH to the base topic plus "/1" or "/2" is one command for exactly that chime, the one its payload
      asks for, or none. */
  lemma MessageMeans(base: seq<byte>, i: Which, dup: bool, qos: nat, retain: bool, id: u16, payload: seq<byte>,
                     beyond: seq<byte>)
    requires 0 !in base && qos <= 2 && |beyond| == I.TOPIC_COPY
    requires |I.PublishFrame(dup, qos, retain, SubTopic(base, i), id, payload)| < 0x1_0000
    ensures MessageEvents(C.Heard(BothSubscribed(base), I.PublishFrame(dup, qos, retain, SubTopic(base, i), id, payload), beyond))
            == match Asked(payload)
               case Some(command) => [Received(i, command)]
               case None => []
  {
    hide I.PublishFrame, C.Heard, BothSubscribed, SubTopic, CommandOf, TargetOf, Asked;
    CommandReaches(base, i, dup, qos, retain, id, payload, beyond);
    AskedIs(payload);
    var call := I.Call(i, 0, SubTopic(base, i), payload);
    NoMessage();
    OneMessage(call);
  }

  lemma NoMessage()
    ensures MessageEvents([]) == []
  {
  }

  lemma OneMessage(call: I.Call)
    ensures MessageEvents([call]) == match MessageEvent(call.topic, call.payload)
                                     case Some(e) => [e]
                                     case None => []
  {
    hide MessageEvent;
    assert [call][..0] == [];
  }

  lemma OnlyCall(calls: seq<I.Call>, only: I.Call)
    requires only in calls && forall c | c in calls :: c == only
    requires forall i, j | 0 <= i < j < |calls| :: calls[i].slot < calls[j].slot
    ensures calls == [only]
  {
    var last := calls[|calls| - 1];
    assert calls[0] in calls && last in calls;
  }

  lemma DistinctTopics(base: seq<byte>)
    ensures SubTopic(base, 0) != SubTopic(base, 1)
  {
    var n := Min(|base|, I.MAX_TOPIC_LENGTH - 3);
    assert SubTopic(base, 0)[n + 1] != SubTopic(base, 1)[n + 1];
  }

  /** A press is announced in a packet a standard parser accepts exactly when its topic has been set
      and holds no wildcard. */
  lemma PressParsesIff(c: E.SmartBellConfig, i: Which, rest: seq<byte>)
    requires E.Sound(c)
    ensures var topic := PubTopic(c, i);
            P.Short(topic) &&
            (P.ParsePacket(P.Encode(P.Publish(topic, PAYLOAD)) + rest) == Some((P.Publish(topic, PAYLOAD), rest))
             <==> topic != [] && P.WILDCARD_MULTI !in topic && P.WILDCARD_SINGLE !in topic)
  {
    hide E.Sound, CStr, P.Encode, P.ParsePacket;
    PacketsFit(c, i);
    P.PacketRoundTrip(P.Publish(PubTopic(c, i), PAYLOAD), rest);
  }

  /** The two subscriptions are accepted by a standard parser exactly when the packet id has not
      wrapped around to 0. */
  lemma SubscriptionParsesIff(c: E.SmartBellConfig, i: Which, id: u16, rest: seq<byte>)
    requires E.Sound(c)
    ensures var topic := SubTopic(CStr(c.gongBaseTopic), i);
            P.Short(topic) &&
            (P.ParsePacket(P.Encode(P.Subscribe(id, topic)) + rest) == Some((P.Subscribe(id, topic), rest))
             <==> id != 0)
  {
    hide E.Sound, CStr, P.Encode, P.ParsePacket;
    PacketsFit(c, i);
    P.PacketRoundTrip(P.Subscribe(id, SubTopic(CStr(c.gongBaseTopic), i)), rest);
  }
}
