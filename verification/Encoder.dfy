/** The packet encoders of MinimalMQTT, which fill a fixed send buffer byte by byte. */
module Encoder {
  import opened Words
  import opened Packets

  const SEND_BUFFER_SIZE := 64
  const RECV_BUFFER_SIZE := 64

  // send_buffer_[pos++] = b
  method Put(buf: array<byte>, at: nat, b: byte) returns (pos: nat)
    requires at < buf.Length
    modifies buf
    ensures pos == at + 1
    ensures buf[..pos] == old(buf[..at]) + [b]
  {
    buf[at] := b;
    pos := at + 1;
  }

  // memcpy(&send_buffer_[pos], s, length); pos += length
  method PutAll(buf: array<byte>, at: nat, s: seq<byte>) returns (pos: nat)
    requires at + |s| <= buf.Length
    modifies buf
    ensures pos == at + |s|
    ensures buf[..pos] == old(buf[..at]) + s
  {
    forall i | 0 <= i < |s| {
      buf[at + i] := s[i];
    }
    pos := at + |s|;
  }

  method PutU16(buf: array<byte>, at: nat, v: u16) returns (pos: nat)
    requires at + 2 <= buf.Length
    modifies buf
    ensures pos == at + 2
    ensures buf[..pos] == old(buf[..at]) + [Hi(v), Lo(v)]
  {
    pos := Put(buf, at, v / 256 % 256);
    pos := Put(buf, pos, v % 256);
  }

  method PutStr(buf: array<byte>, at: nat, s: seq<byte>) returns (pos: nat)
    requires Short(s) && at + 2 + |s| <= buf.Length
    modifies buf
    ensures pos == at + 2 + |s|
    ensures buf[..pos] == old(buf[..at]) + Str(s)
  {
    pos := PutU16(buf, at, |s|);
    pos := PutAll(buf, pos, s);
  }

  /** The one- or two-byte Remaining Length. */
  method PutRemaining(buf: array<byte>, at: nat, remaining: u16) returns (pos: nat)
    requires remaining < 16384 && at + 2 <= buf.Length
    modifies buf
    ensures pos == at + |VarInt(remaining)| <= at + 2
    ensures buf[..pos] == old(buf[..at]) + VarInt(remaining)
    ensures remaining < 128 ==> pos == at + 1
  {
    if remaining < 128 {
      pos := Put(buf, at, remaining % 128);
    } else {
      pos := Put(buf, at, remaining % 128 + 128);
      pos := Put(buf, pos, remaining / 128 % 128);
      assert VarInt(remaining / 128) == [remaining / 128];
    }
  }

  lemma OneByteLength(n: nat)
    requires n < 128
    ensures VarInt(n) == [n]
  {
  }

  function ConnectSize(id: seq<byte>, login: Login): nat {
    14 + |id| + match login
                case Anonymous => 0
                case Credentials(user, password) => 4 + |user| + |password|
  }

  function ConnectHead(remaining: byte, login: Login, keepAlive: u16): seq<byte> {
    [0x10, remaining] + (PROTOCOL_NAME + [PROTOCOL_LEVEL, ConnectFlags(login), Hi(keepAlive), Lo(keepAlive)])
  }

  method PutProtocol(buf: array<byte>, at: nat) returns (pos: nat)
    requires at + 7 <= buf.Length
    modifies buf
    ensures pos == at + 7
    ensures buf[..pos] == old(buf[..at]) + (PROTOCOL_NAME + [PROTOCOL_LEVEL])
  {
    pos := PutU16(buf, at, 4);
    pos := Put(buf, pos, 0x4D);
    pos := Put(buf, pos, 0x51);
    pos := Put(buf, pos, 0x54);
    pos := Put(buf, pos, 0x54);
    pos := Put(buf, pos, PROTOCOL_LEVEL);
  }

  method PutConnectHead(buf: array<byte>, remaining: byte, login: Login, keepAlive: u16) returns (pos: nat)
    requires 12 <= buf.Length
    modifies buf
    ensures pos == 12
    ensures buf[..pos] == ConnectHead(remaining, login, keepAlive)
  {
    pos := Put(buf, 0, 0x10);
    pos := Put(buf, pos, remaining);
    pos := PutProtocol(buf, pos);
    pos := Put(buf, pos, ConnectFlags(login));
    pos := PutU16(buf, pos, keepAlive);
  }

  // send_connect_packet
  method BuildConnect(buf: array<byte>, id: seq<byte>, login: Login, keepAlive: u16) returns (pos: nat)
    requires buf.Length == SEND_BUFFER_SIZE && ConnectSize(id, login) <= SEND_BUFFER_SIZE
    modifies buf
    ensures Sized(Connect(id, login, keepAlive))
    ensures pos == ConnectSize(id, login)
    ensures buf[..pos] == Encode(Connect(id, login, keepAlive))
  {
    hide Encode, Body, VarInt, Str, ConnectHead;
    var remaining := ConnectSize(id, login) - 2;
    pos := PutConnectHead(buf, remaining % 128, login, keepAlive);
    ghost var head := buf[..pos];
    pos := PutStr(buf, pos, id);
    match login {
      case Anonymous =>
      case Credentials(user, password) =>
        pos := PutStr(buf, pos, user);
        pos := PutStr(buf, pos, password);
    }
    assert buf[..pos] == head + (Str(id) + LoginBytes(login));
    ConnectLayout(id, login, keepAlive);
  }

  lemma ConnectLayout(id: seq<byte>, login: Login, keepAlive: u16)
    requires ConnectSize(id, login) <= SEND_BUFFER_SIZE
    ensures Sized(Connect(id, login, keepAlive))
    ensures var remaining := ConnectSize(id, login) - 2;
            Encode(Connect(id, login, keepAlive)) ==
            ConnectHead(remaining, login, keepAlive) + (Str(id) + LoginBytes(login))
  {
    var p := Connect(id, login, keepAlive);
    OneByteLength(|Body(p)|);
  }

  // publish
  method BuildPublish(buf: array<byte>, topic: seq<byte>, payload: seq<byte>) returns (pos: nat)
    requires buf.Length == SEND_BUFFER_SIZE && 4 + |topic| + |payload| <= SEND_BUFFER_SIZE
    modifies buf
    ensures pos == 4 + |topic| + |payload|
    ensures buf[..pos] == Encode(Publish(topic, payload))
  {
    hide VarInt, Str;
    var remaining := 2 + |topic| + |payload|;
    pos := Put(buf, 0, 0x30);
    pos := PutRemaining(buf, pos, remaining);
    pos := PutStr(buf, pos, topic);
    pos := PutAll(buf, pos, payload);
    assert buf[..pos] == [0x30] + (VarInt(remaining) + (Str(topic) + payload));
    StrSize(topic);
  }

  lemma StrSize(s: seq<byte>)
    requires Short(s)
    ensures |Str(s)| == 2 + |s|
  {
  }

  // subscribe
  method BuildSubscribe(buf: array<byte>, id: u16, topic: seq<byte>) returns (pos: nat)
    requires buf.Length == SEND_BUFFER_SIZE && 7 + |topic| <= SEND_BUFFER_SIZE
    modifies buf
    ensures pos == 7 + |topic|
    ensures buf[..pos] == Encode(Subscribe(id, topic))
  {
    hide VarInt, Str;
    var remaining := 2 + 2 + |topic| + 1;
    pos := Put(buf, 0, 0x82);
    pos := PutRemaining(buf, pos, remaining);
    pos := PutU16(buf, pos, id);
    pos := PutStr(buf, pos, topic);
    pos := Put(buf, pos, 0);
    assert buf[..pos] == [0x82] + (VarInt(remaining) + ([Hi(id), Lo(id)] + (Str(topic) + [0])));
    StrSize(topic);
  }

  /** PINGREQ and DISCONNECT. */
  method BuildBare(buf: array<byte>, p: Packet)
    requires buf.Length == SEND_BUFFER_SIZE && (p.PingReq? || p.Disconnect?)
    modifies buf
    ensures buf[..2] == Encode(p)
  {
    buf[0] := TypeByte(p);
    buf[1] := 0;
    OneByteLength(0);
  }
}
