/** What callers of the MQTT client see: that a welcome leads to a connection, when a goodbye breaks the rule
    that CONNECT comes first, and when the second of two subscriptions is refused. */
module ClientRuns {
  import opened Words
  import opened W5500
  import opened Sockets
  import opened Packets
  import opened Session
  import opened Inbound
  import opened Encoder
  import opened Client

  /** With a peer that accepts and answers CONNECT with a CONNACK at once, connect() ends CONNECTED exactly if the
      code is 0, with CONNECT and nothing else on the wire. */
  method Welcomed(client: MqttClient, cfg: Config) returns (ok: bool)
    requires client.Valid() && ConfigOk(cfg) && Dialable(client.sock, cfg)
    requires Answers(client.sock.net.mood) && client.timer.held
    modifies client, client.sock, client.timer, client.sendBuffer, client.recvBuffer, client.subs
    ensures client.Valid()
    ensures ok <==> client.sock.net.mood.answer[3] == 0
    ensures client.state == if ok then CONNECTED else ERROR
    ensures ok ==> SentPackets(client.trace) == [Hello(cfg)] && client.sock.chip.wire == Encode(Hello(cfg))
  {
    hide CanSpeak, ConfigOk, FreeSize, Consistent, Dialable, Encode, Answers, Outcome, NotSent, HalfClosed;
    ok := client.Connect(cfg);
    if ok {
      OnlyHello(client);
    }
  }

  lemma OnlyHello(client: MqttClient)
    requires client.Valid() && |client.trace| == 2 && Accepted(client.trace) && client.trace[0] == Sent(Hello(client.config))
    ensures SentPackets(client.trace) == [Hello(client.config)] && client.sock.chip.wire == Encode(Hello(client.config))
  {
    var none: seq<Event>, nothing: seq<Packet>, p := [], [], Hello(client.config);
    assert none + [Sent(p)] + [client.trace[1]] == client.trace;
    SentSnoc(none, Sent(p));
    SentSnoc(none + [Sent(p)], client.trace[1]);
    assert nothing + [p] == [p];
    EncodeSnoc(nothing, p);
    assert Encoded(nothing) == [];
    assert EncodeAll(nothing) + Encode(p) == Encode(p);
  }

  /** After a failed connect(), disconnect() tries the goodbye, on record as the newest call of the socket.
      The rule that CONNECT comes first is broken iff it goes out; it does not on a socket that cannot send,
      and it does on one that can and stays up. */
  method FailedConnectThenDisconnect(client: MqttClient, cfg: Config) returns (ok: bool)
    requires client.Valid() && ConfigOk(cfg) && StartsWithConnect(client.trace)
    modifies client, client.sock, client.timer, client.sendBuffer, client.recvBuffer, client.subs
    ensures client.Valid() && client.config == cfg
    ensures ok ==> client.state == CONNECTED
    ensures !ok ==> client.state == DISCONNECTED && client.sock.chip.status == Closed
    ensures !ok ==>
              && old(client.sock.ios) < client.sock.ios
              && (var was := client.sock.ios[..|client.sock.ios| - 1];
                  var bye := client.sock.ios[|client.sock.ios| - 1];
                  var out := bye.result == |Encode(Packet.Disconnect)|;
                  && Tried(client.sock.net.mood, was, client.sock.ios, Packet.Disconnect, bye.before, bye.after, out)
                  && Later(bye.after.chip, client.sock.chip) && client.sock.chip.wire == bye.after.chip.wire
                  && (StartsWithConnect(client.trace) <==> !out)
                  && (out ==> client.trace == [Sent(Packet.Disconnect)] && CanSpeak(bye.before.chip))
                  && (!out && CanSpeak(bye.before.chip) ==> client.trace == [] && !Up(bye.after.chip)))
  {
    hide CanSpeak, ConfigOk, Calm, HalfClosed, FreeSize, Faithful, Recorded, Consistent, Accepted, IoMeets, Later, Up, Encode;
    ok := client.Connect(cfg);
    if !ok {
      ghost var said := client.sock.ios;
      client.Disconnect();
      assert client.sock.ios == said + [client.sock.ios[|said|]];
    }
  }

  /** It does happen: with a peer that accepts the connection and closes it at once, connect() fails and
      disconnect() puts a lone DISCONNECT on the wire. */
  method GoodbyeFirst(client: MqttClient, cfg: Config)
    requires client.Valid() && ConfigOk(cfg) && Dialable(client.sock, cfg) && client.sock.net.mood == Brisk
    modifies client, client.sock, client.timer, client.sendBuffer, client.recvBuffer, client.subs
    ensures client.Valid() && client.state == DISCONNECTED
    ensures client.trace == [Sent(Packet.Disconnect)] && !StartsWithConnect(client.trace)
    ensures client.sock.chip.wire == Encode(Packet.Disconnect)
  {
    hide CanSpeak, ConfigOk, FreeSize, Consistent, Accepted, Dialable, Encode;
    var ok := client.Connect(cfg);
    RoomFor(client);
    GoodbyeStartsWithConnectIff(client.trace);
    client.Disconnect();
    OnlyGoodbye(client);
  }

  lemma RoomFor(client: MqttClient)
    requires client.Valid()
    ensures |client.sock.chip.txMem| >= 1024
  {
    client.SizesOfSocket();
  }

  lemma OnlyGoodbye(client: MqttClient)
    requires client.Valid() && client.trace == [Sent(Packet.Disconnect)]
    ensures client.sock.chip.wire == Encode(Packet.Disconnect)
  {
    var none: seq<Event>, nothing: seq<Packet> := [], [];
    assert none + [Sent(Packet.Disconnect)] == client.trace;
    SentSnoc(none, Sent(Packet.Disconnect));
    assert nothing + [Packet.Disconnect] == [Packet.Disconnect];
    EncodeSnoc(nothing, Packet.Disconnect);
    assert Encoded(nothing) == [];
    assert EncodeAll(nothing) + Encode(Packet.Disconnect) == Encode(Packet.Disconnect);
  }

  /** Two subscriptions in a row, while the chip has not yet confirmed the SEND of the first: the second
      is refused although a slot is free. */
  method SecondRefused(client: MqttClient, topic1: seq<byte>, topic2: seq<byte>, callback: Callback)
    requires client.Valid() && client.state == CONNECTED && callback.Handler?
    requires !client.subs[0].active && !client.subs[1].active
    requires 0 !in topic1 && |topic1| < MAX_TOPIC_LENGTH && 0 !in topic2 && |topic2| < MAX_TOPIC_LENGTH
    requires Up(client.sock.chip) && !client.sock.Unconfirmed() && FreeSize(client.sock.chip) >= SEND_BUFFER_SIZE
    requires client.sock.net.mood == Quiet && !client.sock.chip.timeout
    modifies client, client.sock, client.timer, client.sendBuffer, client.subs
    ensures client.Valid() && client.state == CONNECTED && Up(client.sock.chip)
    ensures client.subs[..] == [Subscription(topic1, callback, true), old(client.subs[1])]
    ensures client.trace == old(client.trace) + [Sent(Packet.Subscribe(old(client.packetId), topic1))]
  {
    hide CanSpeak, ConfigOk, FreeSize, Consistent, Accepted, Faithful, Recorded;
    var first := client.Subscribe(topic1, callback);
    assert topic1[..|topic1|] == topic1;
    var second := client.Subscribe(topic2, callback);
  }
}
