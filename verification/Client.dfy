/** The MQTT client (MinimalMQTT.cpp) on top of the socket driver and the millisecond clock. */
module Client {
  import opened Words
  import opened Datagrams
  import opened W5500
  import opened Sockets
  import opened Timer
  import opened Packets
  import opened Session
  import opened Inbound
  import opened Encoder
  import M = Meaning
  import Text

  const MQTT_SOCKET := 2
  const MAX_SUBSCRIPTIONS := 2
  const CONNACK_TIMEOUT := 5000

  datatype State = DISCONNECTED | CONNECTING | CONNECTED | ERROR

  // The character arrays are given by the C strings they hold.
  datatype Config = Config(brokerIp: seq<byte>, brokerPort: u16, clientId: seq<byte>, login: Login, keepalive: u16)

  predicate ConfigOk(c: Config) {
    && |c.brokerIp| == 4
    && ConnectSize(c.clientId, c.login) <= SEND_BUFFER_SIZE
  }

  const FREE_SLOT := Subscription([], NoCallback, false)

  /** Active slots come first, and each has a callback and a topic that fits. */
  predicate SlotsOk(subs: seq<Subscription>) {
    && |subs| == MAX_SUBSCRIPTIONS
    && (forall i, j | 0 <= i < j < |subs| :: subs[j].active ==> subs[i].active)
    && (forall i | 0 <= i < |subs| ::
          subs[i].active ==> subs[i].callback.Handler? && |subs[i].topic| < MAX_TOPIC_LENGTH && 0 !in subs[i].topic)
  }

  // ------------------------------------------------------------------------------ sessions so far

  /** Every session of the socket, past and present, is faithfully recorded. */
  ghost predicate Recorded(c: Chip, trace: seq<Event>, history: seq<Record>) {
    && Faithful(Record(trace, c.wire, c.inbound))
    && |history| == |c.past|
    && (forall i | 0 <= i < |history| :: history[i].wire == c.past[i] && Faithful(history[i]))
  }

  /** The chip may still transmit for the driver. */
  predicate CanSpeak(c: Chip) {
    c.mode == Tcp && (Live(c.status) || c.status == SynSent)
  }

  predicate MaySpeak(c: Chip, trace: seq<Event>) {
    CanSpeak(c) ==> trace == [] || Accepted(trace)
  }

  lemma RecordedLater(c: Chip, d: Chip, trace: seq<Event>, history: seq<Record>)
    requires Recorded(c, trace, history) && Later(c, d) && d.wire == c.wire
    ensures Recorded(d, trace, history)
  {
    hide Faithful;
    MoreArrived(Record(trace, c.wire, c.inbound), d.inbound);
  }

  lemma SilenceLasts(c: Chip, d: Chip, trace: seq<Event>)
    requires Later(c, d)
    ensures CanSpeak(d) ==> CanSpeak(c)
    ensures MaySpeak(c, trace) ==> MaySpeak(d, trace)
  {
  }

  lemma RecordedSent(c: Chip, d: Chip, trace: seq<Event>, history: seq<Record>, p: Packet)
    requires Recorded(c, trace, history) && Later(c, d)
    requires Sized(p) && d.wire == c.wire + Encode(p) && Ordered(trace + [Sent(p)])
    ensures Recorded(d, trace + [Sent(p)], history)
  {
    hide Faithful, Encode, Ordered;
    PacketSent(Record(trace, c.wire, c.inbound), p, d.inbound);
  }

  lemma RecordedAnew(c: Chip, d: Chip, trace: seq<Event>, history: seq<Record>)
    requires Recorded(c, trace, history)
    requires d.wire == [] && d.past == c.past + [c.wire]
    ensures Recorded(d, [], history + [Record(trace, c.wire, c.inbound)])
  {
    hide Faithful;
    EmptySession(d.inbound);
  }

  lemma RecordedConnack(c: Chip, trace: seq<Event>, history: seq<Record>, at: nat)
    requires Recorded(c, trace, history) && |trace| == 1 && IsConnect(trace[0])
    requires at + 4 <= |c.inbound| && c.inbound[at] == 0x20 && c.inbound[at + 1] == 2 && c.inbound[at + 3] == 0
    ensures Accepted(trace + [ConnackOk(at)])
    ensures Recorded(c, trace + [ConnackOk(at)], history)
  {
    hide Faithful, Accepted;
    ConnackFound(Record(trace, c.wire, c.inbound), at);
  }

  /** The calls one receive is meant to lead to: those of the PUBLISH packets in it. */
  function Handled(subs: seq<Subscription>, bs: seq<byte>): seq<Call> {
    CallsOf(subs, M.Meant(bs))
  }

  /** The calls it does lead to, with the bytes `beyond` behind the received ones in memory. */
  function Heard(subs: seq<Subscription>, bs: seq<byte>, beyond: seq<byte>): seq<Call>
    requires |beyond| == TOPIC_COPY
  {
    CallsOf(subs, Delivers(bs, beyond))
  }

  /** They are the calls meant whenever the receive is a plain one. */
  lemma HeardAsMeant(subs: seq<Subscription>, bs: seq<byte>, beyond: seq<byte>)
    requires |bs| < 0x1_0000 && |beyond| == TOPIC_COPY && M.Plain(bs)
    ensures Heard(subs, bs, beyond) == Handled(subs, bs)
  {
    hide CallsOf, M.Meant, M.Plain, Delivers;
    M.DeliveredAsMeantIff(bs, beyond);
  }

  /** Otherwise they need not be: with a subscription to "a", no PUBLISH packet and yet a call; and a
      PUBLISH packet behind another one, and no call. */
  lemma NotAsMeant(beyond: seq<byte>)
    requires |beyond| == TOPIC_COPY
    ensures var subs := [Subscription([0x61], Handler(0), true), FREE_SLOT];
            && Handled(subs, M.WRAPPING) == []
            && Heard(subs, M.WRAPPING, beyond) == [Call(0, 0, [0x61], M.WRAPPING)]
            && Handled(subs, M.COALESCED) == [Call(0, 0, [0x61], [])]
            && Heard(subs, M.COALESCED, beyond) == []
  {
    hide M.Meant, Delivers, Invoked;
    M.WrappingExample(beyond);
    M.CoalescedExample(beyond);
    var s := Subscription([0x61], Handler(0), true);
    OnlyFirst(s, Delivery([0x61], M.WRAPPING));
    OnlyFirst(s, Delivery([0x61], []));
    CallsOfOne([s, FREE_SLOT], Delivery([0x61], M.WRAPPING));
    CallsOfOne([s, FREE_SLOT], Delivery([0x61], []));
  }

  lemma OnlyFirst(s: Subscription, d: Delivery)
    requires Matches(s, d.topic)
    ensures Invoked([s, FREE_SLOT], 2, d) == [Call(0, s.callback.id, d.topic, d.payload)]
  {
    assert Invoked([s, FREE_SLOT], 1, d) == [] + [Call(0, s.callback.id, d.topic, d.payload)];
  }

  /** A single PUBLISH of any quality of service, as section 3.3 lays it out, leads to exactly one
      call per active slot with its topic, carrying its topic and payload, and to no other call. */
  lemma Delivered(subs: seq<Subscription>, dup: bool, qos: nat, retain: bool, topic: seq<byte>, id: u16, payload: seq<byte>,
                  beyond: seq<byte>)
    returns (calls: seq<Call>)
    requires qos <= 2 && |topic| < MAX_TOPIC_LENGTH && 0 !in topic && |beyond| == TOPIC_COPY
    requires |PublishFrame(dup, qos, retain, topic, id, payload)| < 0x1_0000
    ensures calls == Heard(subs, PublishFrame(dup, qos, retain, topic, id, payload), beyond)
    ensures CalledOnce(subs, |subs|, Delivery(topic, payload), calls)
  {
    hide PublishFrame, Delivers, Invoked, CallsOf, CalledOnce;
    TopicSurvivesIff(dup, qos, retain, topic, id, payload, beyond);
    calls := Invoked(subs, |subs|, Delivery(topic, payload));
    CallsOfOne(subs, Delivery(topic, payload));
    InvokedExactly(subs, |subs|, Delivery(topic, payload));
  }

  /** In particular what publish() puts on the wire is delivered so to a client of this firmware. */
  lemma PublishDelivered(subs: seq<Subscription>, topic: seq<byte>, payload: seq<byte>, beyond: seq<byte>)
    returns (calls: seq<Call>)
    requires |topic| < MAX_TOPIC_LENGTH && 0 !in topic && Short(payload) && |beyond| == TOPIC_COPY
    requires |Encode(Packet.Publish(topic, payload))| < 0x1_0000
    ensures calls == Heard(subs, Encode(Packet.Publish(topic, payload)), beyond)
    ensures CalledOnce(subs, |subs|, Delivery(topic, payload), calls)
  {
    hide PublishFrame, Heard, CalledOnce, Encode;
    FrameOfPublish(topic, payload);
    calls := Delivered(subs, false, 0, false, topic, 0, payload, beyond);
  }

  /** The connection is up. */
  predicate Up(c: Chip) {
    c.mode == Tcp && Live(c.status)
  }

  /** A whole packet given to send(), on record as the newest of the socket's calls; `ok` tells whether it
      went out. */
  predicate Tried(m: Mood, was: seq<Io>, ios: seq<Io>, p: Packet, a: Snap, b: Snap, ok: bool) {
    && |ios| == |was| + 1 && ios[..|was|] == was && Sized(p)
    && (var io := ios[|was|];
        && io.request == Sending(Encode(p)) && io.before == a && io.after == b && IoMeets(m, io)
        && (ok <==> io.result == |Encode(p)|))
  }

  predicate IsConnack(bytes: seq<byte>) {
    |bytes| >= 4 && bytes[0] == 0x20 && bytes[1] == 2
  }

  predicate NoConnack(ios: seq<Io>) {
    forall io | io in ios :: !IsConnack(io.bytes)
  }

  /** How a wait for the CONNACK comes out, by the receives it made and the time it took: the first receive
      that begins with a CONNACK decides, and without one it lasts for the timeout. */
  predicate Verdict(got: seq<Io>, ok: bool, spent: int) {
    if got != [] && IsConnack(got[|got| - 1].bytes) then
      NoConnack(got[..|got| - 1]) && (ok <==> got[|got| - 1].bytes[3] == 0)
    else !ok && NoConnack(got) && spent >= CONNACK_TIMEOUT
  }

  /** How connect() comes out once CONNECT has been sent. */
  predicate Outcome(m: Mood, was: seq<Io>, ios: seq<Io>, p: Packet, ok: bool, spent: int) {
    && |was| < |ios| && ios[..|was|] == was && Sized(p)
    && (var io := ios[|was|];
        io.request == Sending(Encode(p)) && io.result == |Encode(p)| && IoMeets(m, io))
    && Verdict(ios[|was| + 1..], ok, spent)
  }

  /** How connect() came out, and why: no new session, CONNECT not sent on it, or what the wait for the CONNACK
      came to. */
  predicate Connects(m: Mood, a: View, was: seq<Io>, b: View, ios: seq<Io>, c: Config) {
    var ok := b.state == CONNECTED;
    && b.config == c && was <= ios && |b.subs| == MAX_SUBSCRIPTIONS && !b.subs[0].active && !b.subs[1].active
    && b.packetId == a.packetId && a.history <= b.history
    && (if ok then |b.trace| == 2 && b.trace[0] == Sent(Hello(c))
        else b.state == ERROR && (b.trace == [] || b.sock.chip.status == Closed))
    && (b.history == a.history ==> !ok && b.trace == a.trace && ios == was)
    && (b.history != a.history && b.trace == [] ==> !ok && (ios == was || NotSent(m, was, ios, Hello(c))))
    && (b.history != a.history && b.trace != [] ==> Outcome(m, was, ios, Hello(c), ok, b.ms - a.ms))
  }

  function Hello(c: Config): Packet {
    Packet.Connect(c.clientId, c.login, c.keepalive)
  }

  /** A packet was tried and did not go out: the connection is gone. */
  predicate NotSent(m: Mood, was: seq<Io>, ios: seq<Io>, p: Packet) {
    |was| < |ios| && var io := ios[|was|]; Tried(m, was, ios, p, io.before, io.after, false) && !Up(io.after.chip)
  }

  lemma OutcomeOf(m: Mood, was: seq<Io>, said: seq<Io>, ios: seq<Io>, p: Packet, a: Snap, b: Snap, ok: bool, spent: int)
    requires Tried(m, was, said, p, a, b, true) && said <= ios && Verdict(ios[|said|..], ok, spent)
    ensures Outcome(m, was, ios, p, ok, spent)
  {
    hide IoMeets, Verdict, Sized, Encode;
    assert ios[..|was|] == said[..|was|] && ios[|was|] == said[|was|];
  }

  lemma MoreTime(m: Mood, was: seq<Io>, ios: seq<Io>, p: Packet, ok: bool, spent: int, more: int)
    requires Outcome(m, was, ios, p, ok, spent) && spent <= more
    ensures Outcome(m, was, ios, p, ok, more)
  {
    hide IoMeets, Encode, Sized, IsConnack, NoConnack;
  }

  lemma TriedGrows(m: Mood, was: seq<Io>, ios: seq<Io>, p: Packet, a: Snap, b: Snap, ok: bool)
    requires Tried(m, was, ios, p, a, b, ok)
    ensures was <= ios && was != ios
    ensures !ok && !Up(b.chip) ==> NotSent(m, was, ios, p)
  {
    hide IoMeets, Encode;
  }

  /** At most one receive more, and whether it began with a CONNACK, and with one of code 0. */
  predicate Looked(was: seq<Io>, ios: seq<Io>, heard: bool, ok: bool) {
    if ios == was then !heard && !ok
    else
      && |ios| == |was| + 1 && ios[..|was|] == was && ios[|was|].request.Receiving?
      && (heard <==> IsConnack(ios[|was|].bytes))
      && (ok <==> heard && ios[|was|].bytes[3] == 0)
  }

  lemma LookedOn(was: seq<Io>, said: seq<Io>, ios: seq<Io>, heard: bool, ok: bool, spent: int)
    requires was <= said && NoConnack(said[|was|..]) && Looked(said, ios, heard, ok)
    ensures was <= ios
    ensures if heard then Verdict(ios[|was|..], ok, spent) else NoConnack(ios[|was|..])
  {
    hide IsConnack;
    if ios != said {
      var got := ios[|was|..];
      assert got == said[|was|..] + [ios[|said|]];
      assert got[..|got| - 1] == said[|was|..];
    }
  }

  /** A receive, on record as the newest of the socket's calls, and its bytes. */
  predicate Heeded(m: Mood, was: seq<Io>, ios: seq<Io>, bytes: seq<byte>) {
    && |ios| == |was| + 1 && ios[..|was|] == was
    && (var io := ios[|was|]; io.request.Receiving? && io.bytes == bytes && IoMeets(m, io))
  }

  /** What send() promises, for data that fits the transmit buffer of a blocking socket. */
  lemma SendOutcome(m: Mood, a: Snap, data: seq<byte>, r: int, b: Snap)
    requires SendMeets(m, a, data, r, b) && !a.nonblocking && 0 < |data| <= |b.chip.txMem|
    ensures Later(a.chip, b.chip) && Taken(b.chip) == Taken(a.chip) && !b.nonblocking
    ensures b.chip.wire == if r == |data| then a.chip.wire + data else a.chip.wire
    ensures r == |data| ==> CanSpeak(a.chip)
    ensures r != |data| ==> Blocked(a) || !Up(b.chip)
    ensures a.log <= b.log
    ensures Calm(m, a.chip) && !a.sending && Up(a.chip) && |data| <= FreeSize(a.chip) ==> AnsweredBy(m, a.chip, b.chip)
    ensures Calm(m, a.chip) && Blocked(a) ==> r != |data| && (!a.chip.timeout ==> b.chip == a.chip)
    ensures Calm(m, a.chip) && !Blocked(a) && Up(a.chip) && |data| <= FreeSize(a.chip) ==>
              r == |data| && Up(b.chip) && b.chip.timeout == a.chip.timeout && Blocked(b)
  {
    hide Taken, Calm, FreeSize, Later;
    LaterMode(a.chip, b.chip);
    assert data[..|data|] == data && a.chip.wire + [] == a.chip.wire;
  }

  /** What recv() promises, for a positive length and a blocking TCP socket. */
  lemma RecvOutcome(m: Mood, a: Snap, len: u16, r: int, bytes: seq<byte>, b: Snap)
    requires RecvMeets(m, a, len, r, bytes, b) && !a.nonblocking && len > 0
    ensures Later(a.chip, b.chip) && b.chip.wire == a.chip.wire && !b.nonblocking
    ensures |bytes| == (if r > 0 then r else 0) <= len
    ensures Taken(b.chip) == Taken(a.chip) + |bytes| <= |b.chip.inbound|
    ensures 0 <= Taken(a.chip) && bytes == b.chip.inbound[Taken(a.chip)..Taken(b.chip)]
    ensures r > 0 ==> b.log == a.log && (r == len || r >= Stored(a.chip))
    ensures r <= 0 ==> if a.chip.mode == Tcp then Left(a, b) else b.log == a.log
    ensures Blocked(b) ==> Blocked(a)
    ensures Calm(m, a.chip) && Up(a.chip) && Stored(a.chip) > 0 ==> r == Min(len, Stored(a.chip))
  {
    hide Taken, Stored, Later, NothingWaited, Calm, Deserted;
  }

  /** The next thing the driver did was to close a connection that was over. */
  predicate Left(a: Snap, b: Snap) {
    && |a.log| < |b.log| && b.log[..|a.log|] == a.log && b.log[|a.log|].Hangup?
    && Deserted(a.chip, b.log[|a.log|].at)
  }

  lemma LeftFrom(a: Snap, b: Snap, c: Snap, d: Snap)
    requires Left(b, c) && b.log == a.log && Later(a.chip, b.chip) && Stored(a.chip) <= Stored(b.chip) && c.log <= d.log
    ensures Left(a, d)
  {
    hide Stored, FreeSize;
    assert d.log[..|a.log|] == c.log[..|a.log|];
  }

  /** socket() and ::connect() have nothing to refuse about the broker's address. */
  predicate Dialable(sock: Socket, c: Config) {
    sock.sourceIp != 0 && c.brokerIp != [255, 255, 255, 255] && c.brokerIp != [0, 0, 0, 0] && c.brokerPort != 0
  }

  /** An established session on which nothing has been said. */
  predicate Opened(sock: Socket)
    reads sock
  {
    && sock.chip.mode == Tcp && sock.chip.status == Established && sock.chip.wire == [] && sock.chip.inbound == []
    && !sock.sending && FreeSize(sock.chip) == |sock.chip.txMem|
  }

  /** The peer accepts, and answers CONNECT with these bytes, which begin with a CONNACK. */
  predicate Answers(m: Mood) {
    m.Answering? && IsConnack(m.answer) && |m.answer| <= 1024
  }

  /** A session on which nothing has been said, on a socket that can still send: the peer has closed. */
  predicate HalfClosed(sock: Socket, trace: seq<Event>)
    reads sock
  {
    && trace == [] && sock.chip.mode == Tcp && sock.chip.status == CloseWait
    && !sock.sending && FreeSize(sock.chip) == |sock.chip.txMem|
  }

  /** A client at one moment. */
  datatype View = View(state: State, config: Config, sock: Snap, pingAt: nat, activityAt: nat, ms: nat, packetId: u16,
                       subs: seq<Subscription>, trace: seq<Event>, history: seq<Record>, calls: seq<Call>)

  /** A call of loop(): the client before and after it; whether it got as far as the keep-alive, and the true
      time at which it then sampled the clock; what it received, and what lay behind that in memory. */
  datatype Turn = Turn(before: View, after: View, polled: bool, now: nat, received: seq<byte>, beyond: seq<byte>)

  predicate LoopMeets(t: Turn) {
    && |t.beyond| == TOPIC_COPY
    && TurnReceives(t.before, t.received, t.beyond, t.after)
    && t.after.config == t.before.config && t.after.history == t.before.history && t.after.packetId == t.before.packetId
    && t.after.subs == t.before.subs
    && (t.before.state != CONNECTED ==> t.after == t.before)
    && (if t.polled then PollMeets(t.before, t.now, t.after) && Drained(t.before.sock, t.received, t.after.sock)
        else
          && t.received == [] && t.after.trace == t.before.trace && t.after.pingAt == t.before.pingAt
          && (t.before.state == CONNECTED ==> t.after.state == ERROR && t.after.sock.chip.status != Established))
  }

  /** The bytes received are the next of the session, no call is made but for them. */
  predicate TurnReceives(a: View, received: seq<byte>, beyond: seq<byte>, b: View)
    requires |beyond| == TOPIC_COPY
  {
    var c, d := a.sock.chip, b.sock.chip;
    && Later(c, d)
    && 0 <= Taken(c) && Taken(d) == Taken(c) + |received| <= |d.inbound| && received == d.inbound[Taken(c)..Taken(d)]
    && (received == [] || |received| == RECV_BUFFER_SIZE || Stored(c) <= |received| <= RECV_BUFFER_SIZE)
    && b.calls == a.calls + Heard(a.subs, received, beyond)
    && a.ms <= b.ms
    && (if received == [] then b.activityAt == a.activityAt else a.ms <= b.activityAt)
  }

  /** Nothing is received only if nothing was waiting, or more came in while that was looked up, or the
      connection was found over. */
  predicate Drained(a: Snap, received: seq<byte>, b: Snap) {
    received == [] ==> a.chip.mode != Tcp || NothingWaited(a.chip, b.chip) || Left(a, b)
  }

  lemma DrainedBetween(a: Snap, b: Snap, received: seq<byte>, c: Snap, d: Snap)
    requires Drained(b, received, c) && Later(a.chip, b.chip) && Taken(a.chip) == Taken(b.chip) && b.log == a.log
    requires Later(c.chip, d.chip) && Taken(c.chip) == Taken(d.chip) && c.log <= d.log
    ensures Drained(a, received, d)
  {
    hide Taken, Stored, Left;
    LaterMode(a.chip, b.chip);
    StoredUntaken(a.chip, b.chip);
    StoredUntaken(c.chip, d.chip);
    if received == [] && Left(b, c) {
      LeftFrom(a, b, c, d);
    }
  }

  /** A ping goes out if one is due, unless the SENDOK of an earlier packet is still down or the connection
      goes; and the connection is given up if the counter says that nothing came for too long. */
  predicate PollMeets(a: View, now: nat, b: View) {
    && a.state == CONNECTED && a.ms <= now <= b.ms && b.activityAt <= now
    && (if b.trace == a.trace then
          b.pingAt == a.pingAt && (KeepAliveDue(a.config, now, a.pingAt) ==> Blocked(a.sock) || !Up(b.sock.chip))
        else b.trace == a.trace + [Sent(PingReq)] && now <= b.pingAt <= b.ms && KeepAliveDue(a.config, now, a.pingAt))
    && b.state == (if KeepAliveLost(a.config, now, b.activityAt) then ERROR else CONNECTED)
  }

  class MqttClient {
    const sock: Socket
    const timer: TimerService
    const sendBuffer: array<byte>
    const recvBuffer: array<byte>
    const subs: array<Subscription>
    var state: State
    var config: Config
    var lastActivity: u32
    var lastPing: u32
    var packetId: u16
    var calls: seq<Call>             // callbacks invoked so far, in order
    ghost var trace: seq<Event>      // of the current TCP session
    ghost var history: seq<Record>   // of the sessions before it
    ghost var activityAt: nat        // true times behind the two stamps
    ghost var pingAt: nat
    ghost var turns: seq<Turn>       // every call of loop(), in order

    ghost function Look(): View
      reads this, sock, timer, subs
    {
      View(state, config, sock.Now(), pingAt, activityAt, timer.ms, packetId, subs[..], trace, history, calls)
    }

    ghost predicate Core()
      reads this, sock, timer, sendBuffer, recvBuffer, subs
    {
      && sock.Valid() && sock.sn == MQTT_SOCKET && !sock.nonblocking && timer.Valid()
      && sendBuffer.Length == SEND_BUFFER_SIZE && recvBuffer.Length == RECV_BUFFER_SIZE
      && sendBuffer != recvBuffer
      && subs.Length == MAX_SUBSCRIPTIONS && SlotsOk(subs[..])
      && ConfigOk(config)
      && lastActivity == Stamp(activityAt) && activityAt <= timer.ms
      && lastPing == Stamp(pingAt) && pingAt <= timer.ms
      && Recorded(sock.chip, trace, history)
    }

    ghost predicate Valid()
      reads this, sock, timer, sendBuffer, recvBuffer, subs
    {
      && Core()
      && MaySpeak(sock.chip, trace)
      && state != CONNECTING
      && (state == CONNECTED ==> Accepted(trace))
    }

    constructor (sock: Socket, timer: TimerService)
      requires sock.Valid() && sock.sn == MQTT_SOCKET && !sock.nonblocking && timer.Valid()
      requires sock.chip.status == Closed && sock.chip.wire == [] && sock.chip.past == []
      ensures Valid() && fresh(sendBuffer) && fresh(recvBuffer) && fresh(subs)
      ensures this.sock == sock && this.timer == timer
      ensures state == DISCONNECTED && trace == [] && history == [] && calls == [] && packetId == 1
      ensures subs[..] == [FREE_SLOT, FREE_SLOT]
    {
      hide Consistent, Faithful;
      this.sock, this.timer := sock, timer;
      sendBuffer := new byte[SEND_BUFFER_SIZE](_ => 0);
      recvBuffer := new byte[RECV_BUFFER_SIZE](_ => 0);
      subs := new Subscription[MAX_SUBSCRIPTIONS](_ => FREE_SLOT);
      state, config := DISCONNECTED, Config([0, 0, 0, 0], 0, [], Anonymous, 0);
      lastActivity, lastPing, packetId, calls := 0, 0, 1, [];
      trace, history, activityAt, pingAt, turns := [], [], 0, 0, [];
      EmptySession(sock.chip.inbound);
    }

    // ---------------------------------------------------------------------------------- socket_*

    /** socket_send: all of the packet, or nothing. */
    method SocketSend(len: nat, ghost p: Packet) returns (ok: bool)
      requires Core() && 0 < len <= SEND_BUFFER_SIZE
      requires Sized(p) && sendBuffer[..len] == Encode(p)
      requires CanSpeak(sock.chip) ==> Ordered(trace + [Sent(p)])
      modifies sock, this`trace
      ensures Core()
      ensures Tried(sock.net.mood, old(sock.ios), sock.ios, p, old(sock.Now()), sock.Now(), ok)
      ensures Later(old(sock.chip), sock.chip) && Taken(sock.chip) == Taken(old(sock.chip))
      ensures trace == if ok then old(trace) + [Sent(p)] else old(trace)
      ensures sock.chip.wire == if ok then old(sock.chip.wire) + Encode(p) else old(sock.chip.wire)
      ensures ok ==> CanSpeak(old(sock.chip))
      ensures old(sock.log) <= sock.log
      ensures Calm(sock.net.mood, old(sock.chip)) && !old(sock.sending) && Up(old(sock.chip)) && len <= old(FreeSize(sock.chip)) ==>
                AnsweredBy(sock.net.mood, old(sock.chip), sock.chip)
      // Refused only while the SENDOK of an earlier packet is down, or with the connection gone; exactly
      // then, as long as the chip does nothing of its own.
      ensures !ok ==> old(sock.Unconfirmed()) || !Up(sock.chip)
      ensures Calm(sock.net.mood, old(sock.chip)) && old(sock.Unconfirmed()) ==>
                !ok && (!old(sock.chip.timeout) ==> sock.chip == old(sock.chip))
      ensures Calm(sock.net.mood, old(sock.chip)) && !old(sock.Unconfirmed()) && Up(old(sock.chip)) && len <= old(FreeSize(sock.chip)) ==>
                ok && Up(sock.chip) && sock.chip.timeout == old(sock.chip.timeout) && sock.Unconfirmed()
    {
      hide Consistent, Faithful, Ordered, Encode, Later, SlotsOk, ConfigOk, FreeSize, Calm, Recorded, SendMeets, Taken,
        CanSpeak, Up, Live, AnsweredBy;
      ghost var a := sock.Now();
      var sent := sock.Send(sendBuffer, len);
      SizesOfSocket();
      SendOutcome(sock.net.mood, a, Encode(p), sent, sock.Now());
      ok := sent == len;
      if ok {
        RecordedSent(a.chip, sock.chip, trace, history, p);
        trace := trace + [Sent(p)];
      } else {
        RecordedLater(a.chip, sock.chip, trace, history);
      }
    }

    lemma SizesOfSocket()
      requires sock.Valid()
      ensures |sock.chip.txMem| >= 1024 && |sock.chip.rxMem| >= 1024
    {
      SizesOf(sock.chip);
    }

    /** socket_recv: the next bytes of the session, as many as are there and fit. */
    method SocketRecv() returns (n: nat, ghost at: nat)
      requires Core()
      modifies sock, recvBuffer
      ensures Core() && n <= RECV_BUFFER_SIZE
      ensures Later(old(sock.chip), sock.chip) && sock.chip.wire == old(sock.chip.wire)
      ensures at == Taken(old(sock.chip)) && Taken(sock.chip) == at + n
      ensures at + n <= |sock.chip.inbound| && recvBuffer[..n] == sock.chip.inbound[at..at + n]
      ensures n == 0 || n == RECV_BUFFER_SIZE || n >= Stored(old(sock.chip))
      ensures Drained(old(sock.Now()), recvBuffer[..n], sock.Now())
      ensures Calm(sock.net.mood, old(sock.chip)) && Up(old(sock.chip)) && old(Stored(sock.chip)) > 0 ==>
                n == Min(RECV_BUFFER_SIZE, old(Stored(sock.chip)))
      ensures sock.Unconfirmed() ==> old(sock.Unconfirmed())
      ensures if n == 0 && sock.ios == old(sock.ios) then true else Heeded(sock.net.mood, old(sock.ios), sock.ios, recvBuffer[..n])
    {
      hide Consistent, Faithful, Ordered, Later, SlotsOk, ConfigOk, Recorded, Taken, Stored, RecvMeets, Left, Calm,
        NothingWaited;
      ghost var was := sock.Now();
      ghost var a := sock.chip;
      WindowOfSocket();
      n, at := 0, Taken(a);
      var available := sock.Available();
      ghost var b := sock.Now();
      RecordedLater(a, b.chip, trace, history);
      LaterMode(a, b.chip);
      assert recvBuffer[..0] == [];
      if available == 0 {
        return;
      }
      var wanted := Min(available, RECV_BUFFER_SIZE);
      var r := sock.Recv(recvBuffer, wanted);
      RecvOutcome(sock.net.mood, b, wanted, r, recvBuffer[..if r > 0 then r else 0], sock.Now());
      StoredUntaken(a, b.chip);
      if r <= 0 && a.mode == Tcp {
        LeftFrom(was, b, sock.Now(), sock.Now());
      }
      LaterAgain(a, b.chip, sock.chip);
      LaterMode(a, sock.chip);
      RecordedLater(a, sock.chip, trace, history);
      if r > 0 {
        n := r;
      }
    }

    lemma WindowOfSocket()
      requires sock.Valid()
      ensures 0 <= Taken(sock.chip) <= |sock.chip.inbound|
    {
    }

    method SocketDisconnect()
      requires Core()
      modifies sock
      ensures Core() && sock.ios == old(sock.ios)
      ensures Later(old(sock.chip), sock.chip) && sock.chip.wire == old(sock.chip.wire)
      ensures sock.chip.status == Closed
    {
      hide Consistent, Faithful, Ordered, Later, SlotsOk, ConfigOk, Recorded;
      ghost var a := sock.chip;
      var _ := sock.Disconnect();
      ghost var b := sock.chip;
      CloseSocket();
      LaterAgain(a, b, sock.chip);
      RecordedLater(a, sock.chip, trace, history);
    }

    method CloseSocket()
      requires sock.Valid()
      modifies sock
      ensures sock.Valid() && sock.ios == old(sock.ios)
      ensures Later(old(sock.chip), sock.chip) && sock.chip.wire == old(sock.chip.wire)
      ensures sock.chip.status == Closed && !sock.nonblocking && !sock.sending
    {
      hide Consistent, Later;
      ClosableSocket();
      var _, _ := sock.Close();
    }

    lemma ClosableSocket()
      requires sock.Valid()
      ensures sock.Sound()
    {
    }

    /** socket_connect: a new TCP session, or none. */
    method SocketConnect() returns (ok: bool)
      requires Core()
      modifies sock, this`trace, this`history
      ensures Core() && sock.ios == old(sock.ios)
      ensures ok ==> trace == [] && sock.chip.mode == Tcp
      ensures trace == [] || (trace == old(trace) && history == old(history) && sock.chip.status == Closed)
      ensures old(history) <= history
      ensures history == old(history) ==> !ok && trace == old(trace)
      ensures PublishTotal(history, trace) == old(PublishTotal(history, trace))
      ensures !sock.sending
      ensures sock.net.mood == Brisk && Dialable(sock, config) ==> !ok && HalfClosed(sock, trace)
      ensures sock.net.mood.Answering? && Dialable(sock, config) ==> ok && Opened(sock)
    {
      hide Consistent, Faithful, Ordered, Later, SlotsOk, ConfigOk, Recorded, PublishTotal, FreeSize, Predicted;
      ghost var a := sock.chip;
      CloseSocket();
      RecordedLater(a, sock.chip, trace, history);
      ghost var b := sock.chip;
      LaterMode(a, b);
      var link: bool := *;
      if !link && sock.net.mood == Any {
        return false;
      }
      var r := sock.Open(Tcp, 0);
      if r != MQTT_SOCKET {
        return false;
      }
      RecordedAnew(b, sock.chip, trace, history);
      CountAnew(history, Record(trace, b.wire, b.inbound));
      history := history + [Record(trace, b.wire, b.inbound)];
      trace := [];
      ok := Dial();
    }

    /** The second half of socket_connect: connect to the broker and watch the status. */
    method Dial() returns (ok: bool)
      requires Core() && trace == [] && sock.chip.mode == Tcp && sock.chip.status == Init && !sock.sending
      modifies sock
      ensures Core() && sock.chip.mode == Tcp && !sock.sending && sock.ios == old(sock.ios)
      ensures sock.net.mood == Brisk && Dialable(sock, config) ==> !ok && HalfClosed(sock, trace)
      ensures sock.net.mood.Answering? && Dialable(sock, config) ==> ok && Opened(sock)
    {
      hide Consistent, Faithful, Ordered, Later, SlotsOk, Recorded, FreeSize;
      ghost var a := sock.chip;
      var r, _ := sock.Connect(config.brokerIp, config.brokerPort);
      ghost var b := sock.chip;
      AnyStatus(a, b, trace, history);
      if r != SOCK_OK {
        CloseSocket();
        LaterMode(b, sock.chip);
        RecordedLater(b, sock.chip, trace, history);
        return false;
      }
      for i := 0 to 50
        invariant Core() && sock.chip.mode == Tcp && !sock.sending && sock.ios == old(sock.ios)
        invariant Welcoming(sock.net.mood) && Dialable(sock, config) ==> i == 0 && Opened(sock)
      {
        ghost var c := sock.chip;
        var s := sock.Status();
        LaterMode(c, sock.chip);
        RecordedLater(c, sock.chip, trace, history);
        if s == Established {
          return true;
        }
        if s == Closed || s == CloseWait {
          return false;
        }
      }
      ok := false;
    }

    // ------------------------------------------------------------------------------ CONNECT, CONNACK

    method SendConnectPacket() returns (ok: bool)
      requires Core() && trace == []
      modifies sock, sendBuffer, this`trace
      ensures Core()
      ensures Later(old(sock.chip), sock.chip)
      ensures Tried(sock.net.mood, old(sock.ios), sock.ios, Packet.Connect(config.clientId, config.login, config.keepalive),
                    old(sock.Now()), sock.Now(), ok)
      ensures !ok ==> old(sock.Unconfirmed()) || !Up(sock.chip)
      ensures Answers(sock.net.mood) && old(Opened(sock)) ==>
                ok && Calm(sock.net.mood, sock.chip) && Up(sock.chip) && Waiting() == sock.net.mood.answer
      ensures trace == if ok then [Sent(Packet.Connect(config.clientId, config.login, config.keepalive))] else []
    {
      hide Consistent, Faithful, Later, SlotsOk, Recorded, Encode, Tried, FreeSize, Taken, Calm;
      ghost var a, p := sock.chip, Packet.Connect(config.clientId, config.login, config.keepalive);
      SizesOfSocket();
      WindowOfSocket();
      var pos := BuildConnect(sendBuffer, config.clientId, config.login, config.keepalive);
      OpenedIsCalm(sock.net.mood, a);
      ok := SocketSend(pos, p);
      LaterMode(a, sock.chip);
    }

    method WaitForConnack() returns (ok: bool)
      requires Core() && |trace| == 1 && IsConnect(trace[0])
      modifies sock, timer, recvBuffer, this`trace
      ensures Core() && old(sock.ios) <= sock.ios
      ensures ok ==> |trace| == 2 && Accepted(trace) && trace[0] == old(trace)[0]
      ensures !ok ==> trace == old(trace)
      ensures PublishTotal(history, trace) == old(PublishTotal(history, trace))
      ensures timer.ms >= old(timer.ms)
      ensures Verdict(sock.ios[|old(sock.ios)|..], ok, timer.ms - old(timer.ms))
      // A CONNACK that is there decides, as long as neither the chip nor the clock moves.
      ensures Calm(sock.net.mood, old(sock.chip)) && Up(old(sock.chip)) && timer.held && IsConnack(old(Waiting())) ==>
                (ok <==> old(Waiting())[3] == 0)
    {
      hide Consistent, Faithful, Later, SlotsOk, Recorded, Accepted, ConfigOk, Calm, Verdict, NoConnack, Looked, Elapsed,
        PublishTotal, IsConnect, IsConnack, CanSpeak;
      ghost var ios, calm, waiting := sock.ios, CalmHere() && IsConnack(Waiting()), Waiting();
      NothingYet(ios);
      var start := timer.Millis();
      ghost var ms := timer.ms;
      var patience: nat :| patience > 0;
      while true
        invariant Core() && trace == old(trace) && timer.ms >= ms && ios <= sock.ios
        invariant NoConnack(sock.ios[|ios|..])
        invariant calm ==> patience > 0 && CalmHere() && Waiting() == waiting && timer.ms == ms
        decreases patience
      {
        var now;
        if patience > 0 {
          now := timer.Millis();
        } else {
          now := timer.MillisPast(start, CONNACK_TIMEOUT);
        }
        ElapsedIsLow(timer.ms, ms);
        if Elapsed(now, start) >= CONNACK_TIMEOUT {
          TimedOut(sock.ios[|ios|..], timer.ms - old(timer.ms));
          return false;
        }
        ghost var said := sock.ios;
        var heard;
        heard, ok := LookForConnack();
        LookedOn(ios, said, sock.ios, heard, ok, timer.ms - old(timer.ms));
        if heard {
          return;
        }
        patience := patience - 1;
      }
    }

    /** One look for the CONNACK. */
    method LookForConnack() returns (heard: bool, ok: bool)
      requires Core() && |trace| == 1 && IsConnect(trace[0])
      modifies sock, recvBuffer, this`trace
      ensures Core() && Looked(old(sock.ios), sock.ios, heard, ok)
      ensures ok ==> heard && |trace| == 2 && Accepted(trace) && trace[0] == old(trace)[0]
      ensures !ok ==> trace == old(trace)
      ensures PublishTotal(history, trace) == old(PublishTotal(history, trace))
      ensures old(CalmHere()) && IsConnack(old(Waiting())) ==> heard && (ok <==> old(Waiting())[3] == 0)
    {
      hide Consistent, Faithful, Later, SlotsOk, Recorded, Accepted, ConfigOk, Calm, Taken, Stored, PublishTotal,
        IsConnect, Drained,
        CanSpeak, IoMeets;
      WindowOfSocket();
      ghost var was := sock.chip;
      CountWaiting(was);
      var n, at := SocketRecv();
      if old(CalmHere()) && IsConnack(old(Waiting())) {
        LaterMode(was, sock.chip);
        FirstFour(was, sock.chip, n, recvBuffer[..n]);
      }
      heard, ok := false, false;
      if n >= 4 && recvBuffer[0] == 0x20 && recvBuffer[1] == 2 {
        heard := true;
        if recvBuffer[3] == 0 {
          FoundAt(sock.chip.inbound, at, recvBuffer[..n]);
          RecordedConnack(sock.chip, trace, history, at);
          CountSnoc(history, trace, ConnackOk(at));
          trace := trace + [ConnackOk(at)];
          ok := true;
        }
      }
    }

    /** The received bytes not yet taken from the chip. */
    ghost function Waiting(): seq<byte>
      reads sock
    {
      if 0 <= Taken(sock.chip) <= |sock.chip.inbound| then sock.chip.inbound[Taken(sock.chip)..] else []
    }

    /** Neither the chip nor the clock moves, and the connection is up. */
    ghost predicate CalmHere()
      reads sock, sock.net
    {
      Calm(sock.net.mood, sock.chip) && Up(sock.chip) && timer.held
    }

    // ------------------------------------------------------------------------------------ public API

    method ClearSubscriptions()
      requires subs.Length == MAX_SUBSCRIPTIONS
      modifies subs
      ensures forall j | 0 <= j < MAX_SUBSCRIPTIONS :: subs[j] == old(subs[j]).(active := false, callback := NoCallback)
      ensures SlotsOk(subs[..])
    {
      for i := 0 to MAX_SUBSCRIPTIONS
        invariant forall j | 0 <= j < MAX_SUBSCRIPTIONS ::
                    subs[j] == if j < i then old(subs[j]).(active := false, callback := NoCallback) else old(subs[j])
      {
        subs[i] := subs[i].(active := false, callback := NoCallback);
      }
    }

    method Connect(cfg: Config) returns (ok: bool)
      requires Valid() && ConfigOk(cfg)
      modifies this, sock, timer, sendBuffer, recvBuffer, subs
      ensures Valid() && turns == old(turns) && old(sock.ios) <= sock.ios
      ensures config == cfg && !subs[0].active && !subs[1].active
      ensures ok ==> state == CONNECTED && |trace| == 2 && trace[0] == Sent(Packet.Connect(cfg.clientId, cfg.login, cfg.keepalive))
      ensures !ok ==> state == ERROR && (trace == [] || sock.chip.status == Closed)
      // Failure means no new session, or one that was not accepted.
      ensures !ok ==> (trace == old(trace) && history == old(history)) || !Accepted(trace)
      ensures !ok && CanSpeak(sock.chip) ==> trace == [] && !sock.sending
      ensures trace == old(trace) || StartsWithConnect(trace)
      ensures sock.net.mood == Brisk && Dialable(sock, config) ==> !ok && HalfClosed(sock, trace)
      ensures ok ==> activityAt == pingAt >= old(timer.ms)
      ensures calls == old(calls) && packetId == old(packetId)
      ensures old(history) <= history
      ensures PublishTotal(history, trace) == old(PublishTotal(history, trace))
      ensures timer.ms >= old(timer.ms)
      // Why: no new session, CONNECT not sent on it, or what the wait for the CONNACK came to.
      ensures history == old(history) ==> !ok && trace == old(trace) && sock.ios == old(sock.ios)
      ensures history != old(history) && trace == [] ==>
                !ok && (sock.ios == old(sock.ios) || NotSent(sock.net.mood, old(sock.ios), sock.ios, Hello(config)))
      ensures history != old(history) && trace != [] ==>
                Outcome(sock.net.mood, old(sock.ios), sock.ios, Hello(config), ok, timer.ms - old(timer.ms))
      ensures Answers(sock.net.mood) && Dialable(sock, config) && timer.held ==> (ok <==> sock.net.mood.answer[3] == 0)
    {
      hide Consistent, Faithful, Later, SlotsOk, Recorded, Accepted, ConfigOk, PublishTotal, Stamp, CanSpeak, MaySpeak, Outcome,
        Verdict, NotSent, Dialable;
      BeginConnect(cfg);
      ok := Establish();
      if !ok {
        state := ERROR;
        return;
      }
      ghost var spent := timer.ms - old(timer.ms);
      NowConnected();
      MoreTime(sock.net.mood, old(sock.ios), sock.ios, Hello(config), ok, spent, timer.ms - old(timer.ms));
    }

    method BeginConnect(cfg: Config)
      requires Core() && ConfigOk(cfg)
      modifies this`config, this`state, subs
      ensures Core() && config == cfg && state == CONNECTING
      ensures !subs[0].active && !subs[1].active
    {
      hide Consistent, Faithful, Later, SlotsOk, Recorded, ConfigOk, Stamp;
      ClearSubscriptions();
      config := cfg;
      state := CONNECTING;
    }

    method NowConnected()
      requires Core() && MaySpeak(sock.chip, trace) && Accepted(trace)
      modifies timer, this`state, this`lastActivity, this`activityAt, this`lastPing, this`pingAt
      ensures Valid() && state == CONNECTED && timer.ms >= old(timer.ms)
      ensures activityAt == pingAt >= old(timer.ms)
    {
      hide Consistent, Faithful, Later, SlotsOk, Recorded, Accepted, ConfigOk, Stamp, CanSpeak, MaySpeak;
      state := CONNECTED;
      lastActivity := timer.Millis();
      activityAt := timer.ms;
      lastPing := lastActivity;
      pingAt := activityAt;
    }

    /** connect()'s three stages: TCP session, CONNECT, CONNACK. */
    method Establish() returns (ok: bool)
      requires Core()
      modifies sock, timer, sendBuffer, recvBuffer, this`trace, this`history
      ensures Core() && MaySpeak(sock.chip, trace) && old(sock.ios) <= sock.ios
      ensures ok ==> |trace| == 2 && Accepted(trace) && trace[0] == Sent(Packet.Connect(config.clientId, config.login, config.keepalive))
      ensures !ok ==> trace == [] || sock.chip.status == Closed
      ensures !ok ==> (trace == old(trace) && history == old(history)) || !Accepted(trace)
      ensures !ok && CanSpeak(sock.chip) ==> trace == [] && !sock.sending
      ensures trace == old(trace) || StartsWithConnect(trace)
      ensures sock.net.mood == Brisk && Dialable(sock, config) ==> !ok && HalfClosed(sock, trace)
      ensures old(history) <= history
      ensures PublishTotal(history, trace) == old(PublishTotal(history, trace))
      ensures timer.ms >= old(timer.ms)
      // Why: no new session, CONNECT not sent on it, or what the wait for the CONNACK came to.
      ensures history == old(history) ==> !ok && trace == old(trace) && sock.ios == old(sock.ios)
      ensures history != old(history) && trace == [] ==>
                !ok && (sock.ios == old(sock.ios) || NotSent(sock.net.mood, old(sock.ios), sock.ios, Hello(config)))
      ensures history != old(history) && trace != [] ==>
                Outcome(sock.net.mood, old(sock.ios), sock.ios, Hello(config), ok, timer.ms - old(timer.ms))
      ensures Answers(sock.net.mood) && Dialable(sock, config) && timer.held ==> (ok <==> sock.net.mood.answer[3] == 0)
    {
      hide Consistent, Faithful, Later, SlotsOk, Recorded, Accepted, ConfigOk, PublishTotal, Tried, Outcome, Verdict, Calm,
        FreeSize, Up, Encode, Dialable;
      ghost var was, ms := sock.ios, timer.ms;
      ok := SocketConnect();
      NotAccepted([]);
      if !ok {
        return;
      }
      CountSnoc(history, [], Sent(Hello(config)));
      assert [] + [Sent(Hello(config))] == [Sent(Hello(config))];
      ghost var before := sock.Now();
      ok := SendConnectPacket();
      ghost var said, after := sock.ios, sock.Now();
      TriedGrows(sock.net.mood, was, said, Hello(config), before, after, ok);
      if !ok {
        SocketDisconnect();
        return;
      }
      NotAccepted(trace);
      ok := WaitForConnack();
      OutcomeOf(sock.net.mood, was, said, sock.ios, Hello(config), before, after, ok, timer.ms - ms);
      if !ok {
        SocketDisconnect();
      }
    }

    /** Unless already disconnected: DISCONNECT is tried, then the socket is closed. */
    method Disconnect()
      requires Valid()
      modifies this, sock, timer, sendBuffer, subs
      ensures Valid() && state == DISCONNECTED && turns == old(turns)
      ensures old(state) == DISCONNECTED ==>
                trace == old(trace) && subs[..] == old(subs[..]) && sock.Now() == old(sock.Now()) && sock.ios == old(sock.ios)
      ensures old(state) != DISCONNECTED ==>
                && !subs[0].active && !subs[1].active && sock.chip.status == Closed
                && (trace == old(trace) || trace == old(trace) + [Sent(Packet.Disconnect)])
                && |sock.ios| == |old(sock.ios)| + 1
                && (var spoken := sock.ios[|old(sock.ios)|].after;
                    && Tried(sock.net.mood, old(sock.ios), sock.ios, Packet.Disconnect, old(sock.Now()), spoken, trace != old(trace))
                    && Later(spoken.chip, sock.chip) && sock.chip.wire == spoken.chip.wire
                    && (trace == old(trace) ==> old(sock.Unconfirmed()) || !Up(spoken.chip)))
      ensures !CanSpeak(old(sock.chip)) ==> trace == old(trace)
      ensures old(state) != DISCONNECTED && Calm(sock.net.mood, old(sock.chip)) && Up(old(sock.chip)) &&
              !old(sock.Unconfirmed()) && 2 <= old(FreeSize(sock.chip)) ==>
                trace == old(trace) + [Sent(Packet.Disconnect)]
      ensures old(state) == CONNECTED ==> trace != [] && StartsWithConnect(trace)
      ensures old(StartsWithConnect(trace)) ==>
                (StartsWithConnect(trace) <==> old(trace) != [] || trace == [])
      ensures history == old(history) && calls == old(calls) && config == old(config) && packetId == old(packetId)
    {
      hide Consistent, Faithful, Later, SlotsOk, Recorded, Accepted, ConfigOk, Ordered, Encode, StartsWithConnect, CanSpeak,
        FreeSize, Predicted, IoMeets;
      if state == DISCONNECTED {
        GoodbyeEffect(trace, trace);
        return;
      }
      ghost var ok := SayGoodbye();
      GoodbyeEffect(old(trace), trace);
      SocketDisconnect();
      ClosedIsSilent(sock.chip);
      state := DISCONNECTED;
      ClearSubscriptions();
    }

    method SayGoodbye() returns (ghost ok: bool)
      requires Valid()
      modifies sock, sendBuffer, this`trace
      ensures Core()
      ensures Tried(sock.net.mood, old(sock.ios), sock.ios, Packet.Disconnect, old(sock.Now()), sock.Now(), ok)
      ensures Later(old(sock.chip), sock.chip)
      ensures trace == if ok then old(trace) + [Sent(Packet.Disconnect)] else old(trace)
      ensures !CanSpeak(old(sock.chip)) ==> !ok
      ensures !ok ==> old(sock.Unconfirmed()) || !Up(sock.chip)
      ensures Calm(sock.net.mood, old(sock.chip)) && Up(old(sock.chip)) && !old(sock.Unconfirmed()) && 2 <= old(FreeSize(sock.chip)) ==>
                ok
    {
      hide Consistent, Faithful, Later, SlotsOk, Recorded, Accepted, ConfigOk, Ordered, Encode, CanSpeak, FreeSize, Predicted,
        Tried;
      BuildBare(sendBuffer, Packet.Disconnect);
      if CanSpeak(sock.chip) {
        GoodbyeAllowed(trace);
      }
      var sent := SocketSend(2, Packet.Disconnect);
      ok := sent;
    }

    method Publish(topic: seq<byte>, payload: seq<byte>) returns (ok: bool)
      requires Valid() && 0 !in topic && 4 + |topic| + |payload| < 0x1_0000
      modifies this, sock, timer, sendBuffer
      ensures Valid() && state == old(state) && turns == old(turns)
      ensures Later(old(sock.chip), sock.chip) && Taken(sock.chip) == Taken(old(sock.chip))
      ensures if old(state) == CONNECTED && 4 + |topic| + |payload| <= SEND_BUFFER_SIZE
              then Tried(sock.net.mood, old(sock.ios), sock.ios, Packet.Publish(topic, payload), old(sock.Now()), sock.Now(), ok)
              else sock.ios == old(sock.ios) && sock.Now() == old(sock.Now())
      ensures ok ==> old(state) == CONNECTED && 4 + |topic| + |payload| <= SEND_BUFFER_SIZE
      ensures !ok && old(state) == CONNECTED && 4 + |topic| + |payload| <= SEND_BUFFER_SIZE ==>
                old(sock.Unconfirmed()) || !Up(sock.chip)
      ensures trace == if ok then old(trace) + [Sent(Packet.Publish(topic, payload))] else old(trace)
      ensures sock.chip.wire == if ok then old(sock.chip.wire) + Encode(Packet.Publish(topic, payload)) else old(sock.chip.wire)
      ensures if ok then activityAt >= old(timer.ms) else activityAt == old(activityAt)
      ensures pingAt == old(pingAt) && history == old(history) && calls == old(calls)
      ensures config == old(config) && packetId == old(packetId) && timer.ms >= old(timer.ms)
    {
      hide Consistent, Faithful, Later, SlotsOk, Recorded, Accepted, ConfigOk, Ordered, Encode, Calm, FreeSize, Tried, Taken;
      LaterItself(sock.chip);
      if state != CONNECTED {
        return false;
      }
      var remaining := 2 + |topic| + |payload|;
      if remaining + 2 > SEND_BUFFER_SIZE {
        return false;
      }
      ghost var p := Packet.Publish(topic, payload);
      var pos := BuildPublish(sendBuffer, topic, payload);
      TrafficAllowed(trace, p);
      ghost var a := sock.chip;
      ok := SocketSend(pos, p);
      SilenceLasts(a, sock.chip, old(trace));
      if ok {
        lastActivity := timer.Millis();
        activityAt := timer.ms;
      }
    }

    method FindFreeSlot() returns (slot: nat)
      requires subs.Length == MAX_SUBSCRIPTIONS
      ensures slot <= MAX_SUBSCRIPTIONS
      ensures forall i | 0 <= i < slot :: subs[i].active
      ensures slot < MAX_SUBSCRIPTIONS ==> !subs[slot].active
    {
      for i := 0 to MAX_SUBSCRIPTIONS
        invariant forall j | 0 <= j < i :: subs[j].active
      {
        if !subs[i].active {
          return i;
        }
      }
      slot := MAX_SUBSCRIPTIONS;
    }

    method Subscribe(topic: seq<byte>, callback: Callback) returns (ok: bool)
      requires subs.Length == MAX_SUBSCRIPTIONS && 0 !in topic && 7 + |topic| <= SEND_BUFFER_SIZE
      requires Valid()
      modifies this, sock, timer, sendBuffer, subs
      ensures state == old(state) && turns == old(turns)
      ensures Later(old(sock.chip), sock.chip) && Taken(sock.chip) == Taken(old(sock.chip))
      // With a connection, a callback and a free slot it is tried, under the next packet identifier.
      ensures if old(state) == CONNECTED && callback.Handler? && !old(subs[1].active)
              then
                && Tried(sock.net.mood, old(sock.ios), sock.ios, Packet.Subscribe(old(packetId), topic), old(sock.Now()), sock.Now(), ok)
                && packetId == (old(packetId) + 1) % 0x1_0000
              else sock.ios == old(sock.ios) && sock.Now() == old(sock.Now()) && packetId == old(packetId) && !ok
      ensures !ok && old(state) == CONNECTED && callback.Handler? && !old(subs[1].active) ==>
                old(sock.Unconfirmed()) || !Up(sock.chip)
      ensures Calm(sock.net.mood, old(sock.chip)) && old(sock.Unconfirmed()) ==>
                !ok && (!old(sock.chip.timeout) ==> sock.chip == old(sock.chip))
      ensures Calm(sock.net.mood, old(sock.chip)) && !old(sock.Unconfirmed()) && Up(old(sock.chip)) &&
              7 + |topic| <= old(FreeSize(sock.chip)) && old(state) == CONNECTED && callback.Handler? && !old(subs[1].active) ==>
                ok && Up(sock.chip) && sock.chip.timeout == old(sock.chip.timeout) && sock.Unconfirmed()
      ensures trace == if ok then old(trace) + [Sent(Packet.Subscribe(old(packetId), topic))] else old(trace)
      ensures ok ==>
                var slot := if old(subs[0].active) then 1 else 0;
                subs[..] == old(subs[..])[slot := Subscription(topic[..Min(|topic|, MAX_TOPIC_LENGTH - 1)], callback, true)]
      ensures !ok ==> subs[..] == old(subs[..])
      ensures if ok then activityAt >= old(timer.ms) else activityAt == old(activityAt)
      ensures pingAt == old(pingAt) && history == old(history) && calls == old(calls) && config == old(config)
      ensures timer.ms >= old(timer.ms)
      ensures Valid()
    {
      hide Consistent, Faithful, Later, Recorded, Accepted, ConfigOk, Ordered, Encode, Tried, Taken, FreeSize, Calm,
        Stamp, CanSpeak, Up;
      LaterItself(sock.chip);
      if state != CONNECTED || callback.NoCallback? {
        return false;
      }
      var slot := FindFreeSlot();
      if slot >= MAX_SUBSCRIPTIONS {
        return false;
      }
      ok := SendSubscribe(topic);
      if ok {
        Occupy(slot, topic, callback);
      }
    }

    method Occupy(slot: nat, topic: seq<byte>, callback: Callback)
      requires slot < MAX_SUBSCRIPTIONS == subs.Length && 0 !in topic && callback.Handler? && (slot == 1 ==> subs[0].active)
      requires Valid()
      modifies timer, subs, this`lastActivity, this`activityAt
      ensures timer.ms >= old(timer.ms) && activityAt >= old(timer.ms)
      ensures subs[..] == old(subs[..])[slot := Subscription(topic[..Min(|topic|, MAX_TOPIC_LENGTH - 1)], callback, true)]
      ensures Valid()
    {
      hide Consistent, Faithful, Later, Recorded, Accepted, ConfigOk, Stamp, CanSpeak;
      subs[slot] := Subscription(topic[..Min(|topic|, MAX_TOPIC_LENGTH - 1)], callback, true);
      lastActivity := timer.Millis();
      activityAt := timer.ms;
    }

    method SendSubscribe(topic: seq<byte>) returns (ok: bool)
      requires Valid() && state == CONNECTED && 7 + |topic| <= SEND_BUFFER_SIZE
      modifies sock, sendBuffer, this`trace, this`packetId
      ensures Valid()
      ensures trace == if ok then old(trace) + [Sent(Packet.Subscribe(old(packetId), topic))] else old(trace)
      ensures packetId == (old(packetId) + 1) % 0x1_0000
      ensures Later(old(sock.chip), sock.chip) && Taken(sock.chip) == Taken(old(sock.chip))
      ensures Tried(sock.net.mood, old(sock.ios), sock.ios, Packet.Subscribe(old(packetId), topic), old(sock.Now()), sock.Now(), ok)
      ensures !ok ==> old(sock.Unconfirmed()) || !Up(sock.chip)
      ensures Calm(sock.net.mood, old(sock.chip)) && old(sock.Unconfirmed()) ==>
                !ok && (!old(sock.chip.timeout) ==> sock.chip == old(sock.chip))
      ensures Calm(sock.net.mood, old(sock.chip)) && !old(sock.Unconfirmed()) && Up(old(sock.chip)) &&
              7 + |topic| <= old(FreeSize(sock.chip)) ==>
                ok && Up(sock.chip) && sock.chip.timeout == old(sock.chip.timeout) && sock.Unconfirmed()
    {
      hide Consistent, Faithful, Later, SlotsOk, Recorded, Accepted, ConfigOk, Ordered, Encode, Tried, Taken, FreeSize, Calm;
      ghost var p := Packet.Subscribe(packetId, topic);
      var pos := BuildSubscribe(sendBuffer, packetId, topic);
      packetId := (packetId + 1) % 0x1_0000;
      TrafficAllowed(trace, p);
      ghost var a := sock.chip;
      ok := SocketSend(pos, p);
      SilenceLasts(a, sock.chip, old(trace));
    }

    // ------------------------------------------------------------------------------------------ loop

    method SendPingreq() returns (ghost ok: bool)
      requires Valid() && state == CONNECTED
      modifies sock, timer, sendBuffer, this`trace, this`lastPing, this`pingAt
      ensures Valid()
      ensures trace == if ok then old(trace) + [Sent(Packet.PingReq)] else old(trace)
      ensures if ok then pingAt >= old(timer.ms) else pingAt == old(pingAt)
      ensures timer.ms >= old(timer.ms)
      ensures Later(old(sock.chip), sock.chip) && Taken(sock.chip) == Taken(old(sock.chip)) && old(sock.log) <= sock.log
      ensures !ok ==> old(sock.Unconfirmed()) || !Up(sock.chip)
    {
      hide Consistent, Faithful, Later, SlotsOk, Recorded, Accepted, ConfigOk, Ordered, Encode, Taken, AnsweredBy, Tried,
        Calm, FreeSize;
      BuildBare(sendBuffer, Packet.PingReq);
      TrafficAllowed(trace, Packet.PingReq);
      ghost var a := sock.chip;
      var sent := SocketSend(2, Packet.PingReq);
      SilenceLasts(a, sock.chip, old(trace));
      ok := sent;
      if sent {
        lastPing := timer.Millis();
        pingAt := timer.ms;
      }
    }

    /** Decode what was received and invoke the matching callbacks. */
    method Dispatch(len: nat) returns (ghost beyond: seq<byte>)
      requires 0 < len <= recvBuffer.Length < 0x1_0000 && subs.Length == MAX_SUBSCRIPTIONS
      modifies this`calls
      ensures |beyond| == TOPIC_COPY && calls == old(calls) + Heard(subs[..], recvBuffer[..len], beyond)
      ensures M.Plain(recvBuffer[..len]) ==> calls == old(calls) + Handled(subs[..], recvBuffer[..len])
    {
      hide M.Plain, Heard, Handled;
      beyond := Deliver(len);
      if M.Plain(recvBuffer[..len]) {
        HeardAsMeant(subs[..], recvBuffer[..len], beyond);
      }
    }

    /** What lies behind the received bytes: the rest of the buffer, then memory of no concern here. */
    method Behind(len: nat) returns (beyond: seq<byte>)
      requires len <= recvBuffer.Length
      ensures |beyond| == TOPIC_COPY
      ensures forall i | 0 <= i < TOPIC_COPY && len + i < recvBuffer.Length :: beyond[i] == recvBuffer[len + i]
    {
      var foreign: seq<byte> := *;
      beyond := seq(TOPIC_COPY, i requires 0 <= i < TOPIC_COPY reads recvBuffer =>
        if len + i < recvBuffer.Length then recvBuffer[len + i] else if i < |foreign| then foreign[i] else 0);
    }

    /** The PUBLISH part of process_incoming_packet. */
    method Deliver(len: nat) returns (ghost beyond: seq<byte>)
      requires 0 < len <= recvBuffer.Length && subs.Length == MAX_SUBSCRIPTIONS
      modifies this`calls
      ensures |beyond| == TOPIC_COPY && calls == old(calls) + Heard(subs[..], recvBuffer[..len], beyond)
    {
      hide SkipLength, ReceivedFields, Invoked;
      var memory := Behind(len);
      beyond := memory;
      assert calls + [] == calls;
      if MessageType(recvBuffer[0]) != 0x30 {
        return;
      }
      var ok, pos, _ := DecodeLength(recvBuffer, len);
      if !ok {
        return;
      }
      var d := ReadFields(len, pos, memory);
      if d.Some? {
        InvokeMatching(d.value);
        CallsOfOne(subs[..], d.value);
      }
    }

    /** Topic and payload behind the Remaining Length, which ends at pos. */
    method ReadFields(len: nat, pos0: nat, memory: seq<byte>) returns (d: Option<Delivery>)
      requires 0 < pos0 <= len <= recvBuffer.Length && |memory| == TOPIC_COPY
      ensures d == ReceivedFields(recvBuffer[..len], memory, pos0)
    {
      hide Text.CStr, Join, Qos;
      var received := recvBuffer[..len];
      var pos := pos0;
      if pos + 2 > len {
        return None;
      }
      var topicLen := Join(received[pos], received[pos + 1]);
      pos := pos + 2;
      var to := (pos + topicLen) % 0x1_0000;
      if to > len {
        return None;
      }
      var topic := Text.CStr((received + memory)[pos..pos + Min(topicLen, TOPIC_COPY)]);
      pos := to;
      if Qos(received[0]) > 0 {
        if pos + 2 > len {
          return None;
        }
        pos := pos + 2;
      }
      d := Some(Delivery(topic, received[pos..]));
    }

    method InvokeMatching(d: Delivery)
      requires subs.Length == MAX_SUBSCRIPTIONS
      modifies this`calls
      ensures calls == old(calls) + Invoked(subs[..], MAX_SUBSCRIPTIONS, d)
    {
      for i := 0 to MAX_SUBSCRIPTIONS
        invariant calls == old(calls) + Invoked(subs[..], i, d)
      {
        if subs[i].active && subs[i].topic == d.topic && subs[i].callback.Handler? {
          calls := calls + [Call(i, subs[i].callback.id, d.topic, d.payload)];
        }
      }
    }

    /** process_incoming_packet; received is what one receive brought, empty if nothing. */
    method ProcessIncoming() returns (ghost received: seq<byte>, ghost beyond: seq<byte>)
      requires Valid()
      modifies sock, timer, recvBuffer, this`lastActivity, this`activityAt, this`calls
      ensures Valid()
      ensures |beyond| == TOPIC_COPY && TurnReceives(old(Look()), received, beyond, Look()) && timer.ms >= old(timer.ms)
      ensures Drained(old(sock.Now()), received, sock.Now())
      ensures M.Plain(received) ==> calls == old(calls) + Handled(subs[..], received)
      ensures sock.Unconfirmed() ==> old(sock.Unconfirmed())
    {
      hide Consistent, Faithful, Later, SlotsOk, Recorded, Accepted, ConfigOk, Ordered, Taken, Handled, Heard, M.Plain,
        Stamp, Stored, NothingWaited, Drained;
      ghost var a := sock.chip;
      WindowOfSocket();
      beyond := NoBytes();
      ghost var at;
      var n;
      n, at := SocketRecv();
      SilenceLasts(a, sock.chip, trace);
      received := recvBuffer[..n];
      assert n == 0 ==> received == [];
      if n == 0 {
        NothingHandled(subs[..], beyond);
        return;
      }
      lastActivity := timer.Millis();
      activityAt := timer.ms;
      beyond := Dispatch(n);
    }

    /** One call of loop(), on record as the newest turn. */
    method Loop() returns (ghost turn: Turn)
      requires Valid()
      modifies this, sock, timer, sendBuffer, recvBuffer
      ensures Valid()
      ensures turns == old(turns) + [turn] && turn.before == old(Look()) && turn.after == Look() && LoopMeets(turn)
      ensures M.Plain(turn.received) ==> calls == old(calls) + Handled(subs[..], turn.received)
    {
      hide Consistent, Recorded, SlotsOk, ConfigOk, Accepted, CanSpeak, Stamp, LoopMeets, M.Plain, Handled;
      ghost var before := Look();
      ghost var polled, now, received, beyond := OneLoop();
      turn := Turn(before, Look(), polled, now, received, beyond);
      turns := turns + [turn];
    }

    method OneLoop() returns (ghost polled: bool, ghost now: nat, ghost received: seq<byte>, ghost beyond: seq<byte>)
      requires Valid()
      modifies this, sock, timer, sendBuffer, recvBuffer
      ensures Valid() && turns == old(turns)
      ensures LoopMeets(Turn(old(Look()), Look(), polled, now, received, beyond))
      ensures M.Plain(received) ==> calls == old(calls) + Handled(subs[..], received)
    {
      hide Consistent, Faithful, Later, SlotsOk, Recorded, Accepted, ConfigOk, Ordered, Handled, Heard, M.Plain, Taken, Stamp,
        Stored, KeepAliveDue, KeepAliveLost, TurnReceives, PollMeets, CanSpeak, Drained;
      beyond := NoBytes();
      ghost var a := Look();
      received, polled, now := [], false, 0;
      NothingHandled(subs[..], beyond);
      WindowOfSocket();
      NothingReceived(a, a, beyond);
      if state != CONNECTED {
        return;
      }
      var up := SocketIsConnected();
      if !up {
        state := ERROR;
        NothingReceived(a, Look(), beyond);
        return;
      }
      ghost var b := Look();
      polled := true;
      now, received, beyond := Poll();
      LaterItself(sock.chip);
      DrainedBetween(a.sock, b.sock, received, sock.Now(), sock.Now());
      ReceivedBetween(a, b, received, beyond, Look(), Look());
      PollFrom(a, b, now, Look());
    }

    /** loop() with the socket found up. */
    method Poll() returns (ghost now: nat, ghost received: seq<byte>, ghost beyond: seq<byte>)
      requires Valid() && state == CONNECTED
      modifies sock, timer, sendBuffer, recvBuffer
      modifies this`trace, this`lastPing, this`pingAt, this`state, this`lastActivity, this`activityAt, this`calls
      ensures Valid() && |beyond| == TOPIC_COPY && timer.ms >= old(timer.ms)
      ensures TurnReceives(old(Look()), received, beyond, Look()) && PollMeets(old(Look()), now, Look())
      ensures Drained(old(sock.Now()), received, sock.Now())
      ensures M.Plain(received) ==> calls == old(calls) + Handled(subs[..], received)
    {
      hide Consistent, Faithful, Later, SlotsOk, Recorded, Accepted, ConfigOk, Ordered, Handled, Heard, M.Plain, Taken, Stamp,
        Stored, KeepAliveDue, KeepAliveLost, TurnReceives, PollMeets, CanSpeak, Drained;
      ghost var a := Look();
      LaterItself(sock.chip);
      received, beyond := ProcessIncoming();
      ghost var c := Look();
      now := KeepAlive();
      ReceivedBetween(a, a, received, beyond, c, Look());
      DrainedBetween(a.sock, a.sock, received, c.sock, sock.Now());
      PollFrom(a, c, now, Look());
    }

    method SocketIsConnected() returns (up: bool)
      requires Valid()
      modifies sock
      ensures Valid()
      ensures Later(old(sock.chip), sock.chip) && Taken(sock.chip) == Taken(old(sock.chip)) && sock.log == old(sock.log)
      ensures up <==> sock.chip.status == Established
      ensures sock.Unconfirmed() ==> old(sock.Unconfirmed())
    {
      hide Consistent, Faithful, Later, SlotsOk, Recorded, Accepted, ConfigOk, Ordered, Handled, Taken, Stamp;
      ghost var a := sock.chip;
      var status := sock.Status();
      RecordedLater(a, sock.chip, trace, history);
      SilenceLasts(a, sock.chip, trace);
      LaterMode(a, sock.chip);
      up := status == Established;
    }

    /** The keep-alive part of loop(). */
    method KeepAlive() returns (ghost now: nat)
      requires Valid() && state == CONNECTED
      modifies sock, timer, sendBuffer, this`trace, this`lastPing, this`pingAt, this`state
      ensures Valid()
      ensures Later(old(sock.chip), sock.chip) && Taken(sock.chip) == Taken(old(sock.chip)) && old(sock.log) <= sock.log
      ensures PollMeets(old(Look()), now, Look()) && timer.ms >= old(timer.ms)
    {
      hide Consistent, Faithful, Later, SlotsOk, Recorded, Accepted, ConfigOk, Ordered, Handled, Elapsed;
      LaterItself(sock.chip);
      var m := timer.Millis();
      now := timer.ms;
      var idle := Elapsed(m, lastActivity);
      if Elapsed(m, lastPing) > PingInterval(config.keepalive) {
        var _ := SendPingreq();
      }
      if idle > config.keepalive * 1500 {
        state := ERROR;
      }
    }
  }

  lemma NothingReceived(a: View, b: View, beyond: seq<byte>)
    requires |beyond| == TOPIC_COPY && a.ms <= b.ms && b.calls == a.calls && b.activityAt == a.activityAt
    requires 0 <= Taken(a.sock.chip) <= |a.sock.chip.inbound| && Taken(b.sock.chip) == Taken(a.sock.chip)
    requires b == a || Later(a.sock.chip, b.sock.chip)
    ensures TurnReceives(a, [], beyond, b)
  {
    hide Taken, Stored;
    NothingHandled(a.subs, beyond);
    assert a.calls + [] == a.calls;
  }

  /** What is received in the middle of a turn is received in the turn. */
  lemma ReceivedBetween(a: View, b: View, received: seq<byte>, beyond: seq<byte>, c: View, d: View)
    requires |beyond| == TOPIC_COPY && TurnReceives(b, received, beyond, c)
    requires Later(a.sock.chip, b.sock.chip) && Taken(b.sock.chip) == Taken(a.sock.chip)
    requires (c == d || Later(c.sock.chip, d.sock.chip)) && Taken(d.sock.chip) == Taken(c.sock.chip)
    requires a.ms <= b.ms && c.ms <= d.ms && a.calls == b.calls && c.calls == d.calls
    requires a.subs == b.subs && a.activityAt == b.activityAt && c.activityAt == d.activityAt
    ensures TurnReceives(a, received, beyond, d)
  {
    hide Taken, Stored, Heard, Later;
    LaterItself(c.sock.chip);
    LaterMode(a.sock.chip, b.sock.chip);
    LaterMode(c.sock.chip, d.sock.chip);
    StoredUntaken(a.sock.chip, b.sock.chip);
    LaterAgain(a.sock.chip, b.sock.chip, c.sock.chip);
    LaterAgain(a.sock.chip, c.sock.chip, d.sock.chip);
  }

  lemma PollFrom(a: View, c: View, now: nat, d: View)
    requires PollMeets(c, now, d) && a.state == c.state && a.ms <= c.ms && a.config == c.config
    requires a.pingAt == c.pingAt && a.trace == c.trace && (Blocked(c.sock) ==> Blocked(a.sock))
    ensures PollMeets(a, now, d)
  {
  }

  lemma GoodbyeEffect(before: seq<Event>, after: seq<Event>)
    requires after == before || after == before + [Sent(Packet.Disconnect)]
    ensures StartsWithConnect(before) ==> (StartsWithConnect(after) <==> before != [] || after == [])
    ensures Accepted(before) ==> after != [] && StartsWithConnect(after)
  {
  }

  /** What was waiting is still waiting while nothing is taken. */
  lemma StoredUntaken(c: Chip, d: Chip)
    requires c.inbound <= d.inbound && Taken(c) == Taken(d)
    ensures Stored(c) <= Stored(d)
  {
  }

  lemma ClosedIsSilent(c: Chip)
    requires c.status == Closed
    ensures !CanSpeak(c)
  {
  }

  lemma OpenedIsCalm(m: Mood, c: Chip)
    ensures m.Answering? && c.status == Established && c.wire == [] ==> Calm(m, c)
  {
  }

  lemma CountWaiting(c: Chip)
    ensures Stored(c) == |c.inbound| - Taken(c)
  {
  }

  lemma FirstFour(c: Chip, d: Chip, n: nat, bytes: seq<byte>)
    requires c.inbound <= d.inbound && 0 <= Taken(c) <= |c.inbound| && n == Min(RECV_BUFFER_SIZE, Stored(c))
    requires Taken(c) + n <= |d.inbound| && bytes == d.inbound[Taken(c)..Taken(c) + n]
    requires IsConnack(c.inbound[Taken(c)..])
    ensures n >= 4 && IsConnack(bytes) && bytes[3] == c.inbound[Taken(c)..][3]
  {
    CountWaiting(c);
    hide Stored, Taken;
    assert forall i | 0 <= i < 4 :: bytes[i] == c.inbound[Taken(c)..][i];
  }

  lemma NothingYet(ios: seq<Io>)
    ensures NoConnack(ios[|ios|..])
  {
  }

  lemma TimedOut(got: seq<Io>, spent: int)
    requires NoConnack(got) && spent >= CONNACK_TIMEOUT
    ensures Verdict(got, false, spent)
  {
  }

  lemma NotAccepted(t: seq<Event>)
    requires |t| < 2
    ensures !Accepted(t)
  {
  }

  function PingInterval(keepalive: u16): u32 {
    keepalive * 1000 * 3 / 4
  }

  /** By the clock's counter, a ping is due at true time `now`. */
  predicate KeepAliveDue(c: Config, now: nat, pingAt: nat) {
    Elapsed(Stamp(now), Stamp(pingAt)) > PingInterval(c.keepalive)
  }

  predicate KeepAliveLost(c: Config, now: nat, activityAt: nat) {
    Elapsed(Stamp(now), Stamp(activityAt)) > c.keepalive * 1500
  }

  lemma NothingHandled(subs: seq<Subscription>, beyond: seq<byte>)
    requires |beyond| == TOPIC_COPY
    ensures Handled(subs, []) == [] == Heard(subs, [], beyond)
  {
  }

  function NoBytes(): (r: seq<byte>)
    ensures |r| == TOPIC_COPY
  {
    seq(TOPIC_COPY, _ => 0)
  }

  lemma FoundAt(s: seq<byte>, at: nat, b: seq<byte>)
    requires |b| >= 4 && at + |b| <= |s| && b == s[at..at + |b|]
    ensures b[0] == s[at] && b[1] == s[at + 1] && b[3] == s[at + 3]
  {
  }

  lemma AnyStatus(c: Chip, d: Chip, trace: seq<Event>, history: seq<Record>)
    requires Recorded(c, trace, history) && Later(c.(status := d.status), d) && d.wire == c.wire
    ensures Recorded(d, trace, history) && d.mode == c.mode
  {
    hide Faithful;
    assert Recorded(c.(status := d.status), trace, history);
    RecordedLater(c.(status := d.status), d, trace, history);
  }
}
