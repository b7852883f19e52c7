/** The MQTT 3.1.1 control packets a client of this firmware sends, as bytes and as values. */
module Packets {
  import opened Words
  import Flat

  datatype Login = Anonymous | Credentials(user: seq<byte>, password: seq<byte>)

  datatype Packet =
    | Connect(clientId: seq<byte>, login: Login, keepAlive: u16)
    | Publish(topic: seq<byte>, payload: seq<byte>)
    | Subscribe(id: u16, topic: seq<byte>)
    | PingReq
    | Disconnect

  const PROTOCOL_NAME: seq<byte> := [0, 4, 0x4D, 0x51, 0x54, 0x54]
  const PROTOCOL_LEVEL: byte := 4
  const WILDCARD_MULTI: byte := 0x23
  const WILDCARD_SINGLE: byte := 0x2B

  predicate Short(s: seq<byte>) {
    |s| < 0x1_0000
  }

  /** Every string has a two-byte length. */
  predicate Sized(p: Packet) {
    match p
    case Connect(id, login, _) =>
      Short(id) && (login.Credentials? ==> Short(login.user) && Short(login.password))
    case Publish(topic, payload) => Short(topic) && Short(payload)
    case Subscribe(_, topic) => Short(topic)
    case _ => true
  }

  /** What else sections 2.3.1, 3.3.2 and 4.7 ask of a packet. */
  predicate Legal(p: Packet) {
    match p
    case Publish(topic, _) => topic != [] && WILDCARD_MULTI !in topic && WILDCARD_SINGLE !in topic
    case Subscribe(id, topic) => id != 0 && topic != []
    case _ => true
  }

  // ------------------------------------------------------------------------------------- encoding

  /** Section 2.2.3. */
  function VarInt(n: nat): (r: seq<byte>)
    ensures |r| > 0
  {
    if n < 128 then [n] else [n % 128 + 128] + VarInt(n / 128)
  }

  /** Section 1.5.3. */
  function Str(s: seq<byte>): seq<byte>
    requires Short(s)
  {
    [Hi(|s|), Lo(|s|)] + s
  }

  function TypeByte(p: Packet): byte {
    match p
    case Connect(_, _, _) => 0x10
    case Publish(_, _) => 0x30
    case Subscribe(_, _) => 0x82
    case PingReq => 0xC0
    case Disconnect => 0xE0
  }

  function ConnectFlags(login: Login): byte {
    if login.Credentials? then 0xC2 else 0x02
  }

  function LoginBytes(login: Login): seq<byte>
    requires login.Credentials? ==> Short(login.user) && Short(login.password)
  {
    match login
    case Anonymous => []
    case Credentials(user, password) => Str(user) + Str(password)
  }

  /** Variable header and payload: sections 3.1, 3.3 and 3.8. */
  function Body(p: Packet): seq<byte>
    requires Sized(p)
  {
    match p
    case Connect(id, login, keepAlive) =>
      PROTOCOL_NAME + [PROTOCOL_LEVEL, ConnectFlags(login), Hi(keepAlive), Lo(keepAlive)]
      + (Str(id) + LoginBytes(login))
    case Publish(topic, payload) => Str(topic) + payload
    case Subscribe(id, topic) => [Hi(id), Lo(id)] + (Str(topic) + [0])
    case PingReq => []
    case Disconnect => []
  }

  function Encode(p: Packet): seq<byte>
    requires Sized(p)
  {
    [TypeByte(p)] + (VarInt(|Body(p)|) + Body(p))
  }

  /** The bytes themselves: PUBLISH of "1" to "t", SUBSCRIBE to "t" with identifier 1, PINGREQ, DISCONNECT. */
  lemma WireFormat(topic: seq<byte>, payload: seq<byte>)
    requires topic == [0x74] && payload == [0x31]
    ensures Encode(Publish(topic, payload)) == [0x30, 4, 0, 1, 0x74, 0x31]
    ensures Encode(Subscribe(1, topic)) == [0x82, 6, 0, 1, 0, 1, 0x74, 0]
    ensures Encode(PingReq) == [0xC0, 0] && Encode(Disconnect) == [0xE0, 0]
  {
    assert Str(topic) == [0, 1, 0x74];
    assert VarInt(4) == [4] && VarInt(6) == [6] && VarInt(0) == [0];
    hide VarInt, Str;
  }

  /** CONNECT of a client "a" with a keep-alive of 60 s, without a login, */
  lemma ConnectFormat(id: seq<byte>)
    requires id == [0x61]
    ensures Encode(Connect(id, Anonymous, 60)) == [0x10, 13, 0, 4, 0x4D, 0x51, 0x54, 0x54, 4, 2, 0, 60, 0, 1, 0x61]
  {
    assert Str(id) == [0, 1, 0x61] && VarInt(13) == [13];
    hide VarInt, Str;
    assert Body(Connect(id, Anonymous, 60)) == [0, 4, 0x4D, 0x51, 0x54, 0x54, 4, 2, 0, 60, 0, 1, 0x61];
  }

  /** and with user "u" and password "p". */
  lemma LoginFormat(id: seq<byte>, user: seq<byte>, password: seq<byte>)
    requires id == [0x61] && user == [0x75] && password == [0x70]
    ensures Encode(Connect(id, Credentials(user, password), 60))
            == [0x10, 19] + [0, 4, 0x4D, 0x51, 0x54, 0x54, 4, 0xC2, 0, 60, 0, 1, 0x61, 0, 1, 0x75, 0, 1, 0x70]
  {
    var c := Connect(id, Credentials(user, password), 60);
    var b := [0, 4, 0x4D, 0x51, 0x54, 0x54, 4, 0xC2, 0, 60, 0, 1, 0x61, 0, 1, 0x75, 0, 1, 0x70];
    LoginBody(id, user, password);
    ShortPacket(c, b);
    hide Encode;
  }

  lemma ShortPacket(p: Packet, body: seq<byte>)
    requires Sized(p) && Body(p) == body && |body| < 128
    ensures Encode(p) == [TypeByte(p), |body| as byte] + body
  {
    hide Body;
    assert VarInt(|body|) == [|body| as byte];
  }

  lemma LoginBody(id: seq<byte>, user: seq<byte>, password: seq<byte>)
    requires id == [0x61] && user == [0x75] && password == [0x70]
    ensures Body(Connect(id, Credentials(user, password), 60))
            == [0, 4, 0x4D, 0x51, 0x54, 0x54, 4, 0xC2, 0, 60, 0, 1, 0x61, 0, 1, 0x75, 0, 1, 0x70]
  {
    LoginFields(id, user, password);
    hide Str, LoginBytes;
  }

  lemma LoginFields(id: seq<byte>, user: seq<byte>, password: seq<byte>)
    requires id == [0x61] && user == [0x75] && password == [0x70]
    ensures Str(id) == [0, 1, 0x61] && LoginBytes(Credentials(user, password)) == [0, 1, 0x75, 0, 1, 0x70]
  {
  }

  predicate AllSized(ps: seq<Packet>) {
    forall p | p in ps :: Sized(p)
  }

  predicate AllLegal(ps: seq<Packet>) {
    forall p | p in ps :: Legal(p)
  }

  function Encoded(ps: seq<Packet>): seq<seq<byte>>
    requires AllSized(ps)
  {
    seq(|ps|, i requires 0 <= i < |ps| => Encode(ps[i]))
  }

  function EncodeAll(ps: seq<Packet>): seq<byte>
    requires AllSized(ps)
  {
    Flat.Flatten(Encoded(ps))
  }

  lemma EncodeSnoc(ps: seq<Packet>, p: Packet)
    requires AllSized(ps) && Sized(p)
    ensures AllSized(ps + [p])
    ensures EncodeAll(ps + [p]) == EncodeAll(ps) + Encode(p)
  {
    assert Encoded(ps + [p]) == Encoded(ps) + [Encode(p)];
    Flat.FlattenSnoc(Encoded(ps), Encode(p));
  }

  // -------------------------------------------------------------------------------------- parsing

  /** A Remaining Length of at most `left` bytes, and what follows it. */
  function ParseVarInt(bs: seq<byte>, left: nat): (r: Option<(nat, seq<byte>)>)
    ensures r.Some? ==> |r.value.1| < |bs|
  {
    if bs == [] || left == 0 then None
    else if bs[0] < 128 then Some((bs[0] as nat, bs[1..]))
    else
      match ParseVarInt(bs[1..], left - 1)
      case None => None
      case Some((v, rest)) => Some((bs[0] - 128 + 128 * v, rest))
  }

  function ParseStr(bs: seq<byte>): Option<(seq<byte>, seq<byte>)> {
    if |bs| < 2 then None
    else
      var n := Join(bs[0], bs[1]);
      if |bs| < 2 + n then None else Some((bs[2..2 + n], bs[2 + n..]))
  }

  function ParseLogin(flags: byte, bs: seq<byte>): Option<Login> {
    if flags == 0x02 then
      if bs == [] then Some(Anonymous) else None
    else if flags != 0xC2 then None
    else
      match ParseStr(bs)
      case None => None
      case Some((user, bs')) =>
        match ParseStr(bs')
        case None => None
        case Some((password, bs'')) => if bs'' == [] then Some(Credentials(user, password)) else None
  }

  function ParseConnect(body: seq<byte>): Option<Packet> {
    if |body| < 10 || body[..6] != PROTOCOL_NAME || body[6] != PROTOCOL_LEVEL then None
    else
      match ParseStr(body[10..])
      case None => None
      case Some((id, rest)) =>
        match ParseLogin(body[7], rest)
        case None => None
        case Some(login) => Some(Connect(id, login, Join(body[8], body[9])))
  }

  function ParsePublish(body: seq<byte>): Option<Packet> {
    match ParseStr(body)
    case None => None
    case Some((topic, payload)) => Some(Publish(topic, payload))
  }

  function ParseSubscribe(body: seq<byte>): Option<Packet> {
    if |body| < 2 then None
    else
      match ParseStr(body[2..])
      case None => None
      case Some((topic, rest)) => if rest == [0] then Some(Subscribe(Join(body[0], body[1]), topic)) else None
  }

  function ParseBody(kind: byte, body: seq<byte>): Option<Packet> {
    if kind == 0x10 then ParseConnect(body)
    else if kind == 0x30 then ParsePublish(body)
    else if kind == 0x82 then ParseSubscribe(body)
    else if kind == 0xC0 && body == [] then Some(PingReq)
    else if kind == 0xE0 && body == [] then Some(Disconnect)
    else None
  }

  /** One packet from the front of a byte stream, and the rest of the stream. */
  function ParsePacket(bs: seq<byte>): (r: Option<(Packet, seq<byte>)>)
    ensures r.Some? ==> |r.value.1| < |bs|
  {
    if bs == [] then None
    else
      match ParseVarInt(bs[1..], 4)
      case None => None
      case Some((n, rest)) =>
        if |rest| < n then None
        else
          match ParseBody(bs[0], rest[..n])
          case None => None
          case Some(p) => if Legal(p) then Some((p, rest[n..])) else None
  }

  function ParseStream(bs: seq<byte>): Option<seq<Packet>>
    decreases |bs|
  {
    if bs == [] then Some([])
    else
      match ParsePacket(bs)
      case None => None
      case Some((p, rest)) =>
        match ParseStream(rest)
        case None => None
        case Some(ps) => Some([p] + ps)
  }

  // ---------------------------------------------------------------------------------- round trips

  function Digits(n: nat): nat {
    if n < 128 then 1 else 1 + Digits(n / 128)
  }

  lemma {:induction false} VarIntRoundTrip(n: nat, rest: seq<byte>, left: nat)
    requires Digits(n) <= left
    ensures ParseVarInt(VarInt(n) + rest, left) == Some((n, rest))
  {
    if n < 128 {
      assert (VarInt(n) + rest)[1..] == rest;
    } else {
      VarIntRoundTrip(n / 128, rest, left - 1);
      assert (VarInt(n) + rest)[1..] == VarInt(n / 128) + rest;
    }
  }

  lemma StrRoundTrip(s: seq<byte>, rest: seq<byte>)
    requires Short(s)
    ensures ParseStr(Str(s) + rest) == Some((s, rest))
  {
    var bs := Str(s) + rest;
    assert bs[2..2 + |s|] == s && bs[2 + |s|..] == rest;
  }

  lemma LoginRoundTrip(login: Login)
    requires login.Credentials? ==> Short(login.user) && Short(login.password)
    ensures ParseLogin(ConnectFlags(login), LoginBytes(login)) == Some(login)
  {
    if login.Credentials? {
      StrRoundTrip(login.user, Str(login.password));
      StrRoundTrip(login.password, []);
      assert Str(login.password) + [] == Str(login.password);
    }
  }

  lemma ConnectRoundTrip(id: seq<byte>, login: Login, keepAlive: u16)
    requires Sized(Connect(id, login, keepAlive))
    ensures ParseConnect(Body(Connect(id, login, keepAlive))) == Some(Connect(id, login, keepAlive))
  {
    hide Str, ParseStr, ParseLogin, LoginBytes, ConnectFlags, Hi, Lo, Join;
    var body := Body(Connect(id, login, keepAlive));
    var tail := Str(id) + LoginBytes(login);
    var fixed := [PROTOCOL_LEVEL, ConnectFlags(login), Hi(keepAlive), Lo(keepAlive)];
    assert body == PROTOCOL_NAME + (fixed + tail);
    assert body[..6] == PROTOCOL_NAME && body[10..] == tail;
    assert body[6] == fixed[0] && body[7] == fixed[1] && body[8] == fixed[2] && body[9] == fixed[3];
    JoinHiLo(keepAlive);
    StrRoundTrip(id, LoginBytes(login));
    LoginRoundTrip(login);
  }

  lemma SubscribeRoundTrip(id: u16, topic: seq<byte>)
    requires Short(topic)
    ensures ParseSubscribe(Body(Subscribe(id, topic))) == Some(Subscribe(id, topic))
  {
    hide Str, ParseStr, Hi, Lo, Join;
    var body := Body(Subscribe(id, topic));
    assert body[2..] == Str(topic) + [0] && body[0] == Hi(id) && body[1] == Lo(id);
    JoinHiLo(id);
    StrRoundTrip(topic, [0]);
  }

  lemma BodyRoundTrip(p: Packet)
    requires Sized(p)
    ensures ParseBody(TypeByte(p), Body(p)) == Some(p)
  {
    hide Str, ParseStr, ParseConnect, ParseSubscribe;
    match p
    case Connect(id, login, keepAlive) => ConnectRoundTrip(id, login, keepAlive);
    case Publish(topic, payload) => StrRoundTrip(topic, payload);
    case Subscribe(id, topic) => SubscribeRoundTrip(id, topic);
    case _ =>
  }

  lemma FewDigits(n: nat)
    requires n < 0x1000_0000
    ensures Digits(n) <= 4
  {
    var a := n / 128;
    var b := a / 128;
    var c := b / 128;
    assert a < 0x20_0000 && b < 0x4000 && c < 128;
    assert Digits(c) == 1;
    assert Digits(b) <= 1 + Digits(c);
    assert Digits(a) <= 1 + Digits(b);
  }

  lemma BodyFits(p: Packet)
    requires Sized(p)
    ensures |Body(p)| < 0x1000_0000
  {
  }

  /** A packet in front of any bytes parses back to itself and those bytes, if the standard allows
      it at all; otherwise it does not parse. */
  lemma PacketRoundTrip(p: Packet, rest: seq<byte>)
    requires Sized(p)
    ensures ParsePacket(Encode(p) + rest) == if Legal(p) then Some((p, rest)) else None
  {
    hide Body, VarInt, ParseVarInt, ParseBody, Legal, Digits;
    var bs, body := Encode(p) + rest, Body(p);
    BodyFits(p);
    FewDigits(|body|);
    assert bs[1..] == VarInt(|body|) + (body + rest);
    VarIntRoundTrip(|body|, body + rest, 4);
    assert (body + rest)[..|body|] == body && (body + rest)[|body|..] == rest;
    BodyRoundTrip(p);
  }

  /** A stream of whole packets parses to exactly those packets, or, if one of them is not legal,
      not at all. */
  lemma {:induction false} StreamRoundTrip(ps: seq<Packet>)
    requires AllSized(ps)
    ensures ParseStream(EncodeAll(ps)) == if AllLegal(ps) then Some(ps) else None
  {
    hide Encode;
    if ps != [] {
      var p, rest := ps[0], ps[1..];
      assert ps == [p] + rest;
      assert p in ps && forall q | q in rest :: q in ps;
      assert Encoded(ps) == [Encode(p)] + Encoded(rest);
      Flat.FlattenConcat([Encode(p)], Encoded(rest));
      Flat.FlattenSnoc([], Encode(p));
      assert [] + [Encode(p)] == [Encode(p)];
      assert EncodeAll(ps) == Encode(p) + EncodeAll(rest);
      NotEmpty(p);
      PacketRoundTrip(p, EncodeAll(rest));
      StreamRoundTrip(rest);
    } else {
      assert Encoded(ps) == [];
    }
  }

  lemma NotEmpty(p: Packet)
    requires Sized(p)
    ensures |Encode(p)| > 0
  {
  }
}
