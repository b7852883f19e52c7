/** The firmware's application (smart_bell.cpp): chimes, network client and console in one loop. */
module SmartBell {
  import opened Words
  import opened Timer
  import opened Text
  import opened Addresses
  import opened Chimes
  import opened BellRuns
  import opened Messages
  import S = Session
  import P = Packets
  import I = Inbound
  import C = Client
  import M = Meaning
  import E = Settings
  import N = Console
  import T = Typing
  import K = Sockets
  import W5500
  import U = UartRing

  const RETRY_MS := 5000

  class ChimeState {
    const which: Which
    var enabled: bool
    var triggerPending: bool
    var isRinging: bool
    var ringStartMs: u32
    var buttonPressed: bool
    var mqttSent: bool
    var lastRawState: bool
    var lastDebounceMs: u32
    var lastEventMs: u32

    ghost function Value(): Chime
      reads this
    {
      Chime(enabled, triggerPending, isRinging, ringStartMs, buttonPressed, mqttSent, lastRawState, lastDebounceMs, lastEventMs)
    }

    constructor (which: Which)
      ensures this.which == which && Value() == POWER_ON
    {
      this.which := which;
      enabled, triggerPending, isRinging, ringStartMs := true, false, false, 0;
      buttonPressed, mqttSent, lastRawState, lastDebounceMs, lastEventMs := false, false, true, 0, 0;
    }

    // init_chime
    method Init(raw: bool, now: u32, ghost t: nat)
      requires now == Stamp(t)
      modifies this
      ensures Value() == Booted(old(Value()), t, raw)
    {
      lastRawState, lastDebounceMs := raw, now;
      buttonPressed, mqttSent, isRinging, triggerPending := false, false, false, false;
    }

    method Lock(raw: bool, now: u32)
      modifies this
      ensures Value() == Locked(old(Value()), now, raw)
    {
      lastRawState, lastDebounceMs := raw, now;
      buttonPressed, mqttSent, triggerPending := false, false, false;
    }

    /** Polling and debouncing of the active-low button. */
    method Debounce(raw: bool, now: u32)
      modifies this
      ensures Value() == Debounced(Sampled(old(Value()), now, raw), now)
    {
      hide Elapsed;
      if raw != lastRawState {
        lastDebounceMs := now;
      }
      lastRawState := raw;
      if Elapsed(now, lastDebounceMs) > DEBOUNCE_MS {
        if !raw {
          if !buttonPressed && Elapsed(now, lastEventMs) > COOLDOWN_MS {
            lastEventMs := now;
            buttonPressed := true;
            mqttSent := false;
            triggerPending := true;
          }
        } else {
          buttonPressed := false;
        }
      }
    }

    // what on_mqtt_message_received does to its target
    method Command(command: Chimes.Command)
      modifies this
      ensures Value() == Commanded(old(Value()), command)
    {
      match command
      case On => enabled := true;
      case Off => enabled := false;
      case Ring => triggerPending := true;
    }
  }

  // The parts' invariants.

  ghost predicate ClientOk(client: C.MqttClient)
    reads client, client.sock, client.timer, client.sendBuffer, client.recvBuffer, client.subs
  {
    client.Valid()
  }

  ghost predicate SettingsOk(settings: E.LightweightConfig)
    reads settings, settings.eeprom
  {
    settings.Valid() && E.Good(settings.State())
  }

  ghost predicate ConsoleOk(console: N.Console)
    reads console, console.uart, console.uart.buffer
  {
    console.Valid()
  }

  // ------------------------------------------------------------ the client as this module uses it

  /** What an operation of the client leaves alone. */
  twostate predicate Going(client: C.MqttClient)
    reads client, client.timer
  {
    && client.timer.ms >= old(client.timer.ms)
    && client.calls == old(client.calls) && client.turns == old(client.turns)
  }

  method Now(client: C.MqttClient) returns (now: u32)
    requires ClientOk(client)
    modifies client.timer
    ensures ClientOk(client) && client.timer.ms >= old(client.timer.ms) && now == Stamp(client.timer.ms)
  {
    hide K.Consistent, C.Recorded, C.SlotsOk, C.ConfigOk, S.Accepted, C.CanSpeak, Stamp;
    now := client.timer.Millis();
  }

  method PublishPress(client: C.MqttClient, topic: seq<byte>) returns (ok: bool)
    requires ClientOk(client) && 0 !in topic && |topic| < E.TOPIC_SIZE
    modifies client, client.sock, client.timer, client.sendBuffer
    ensures ClientOk(client) && Going(client) && client.history == old(client.history)
    ensures client.trace == old(client.trace) + if ok then [S.Sent(P.Publish(topic, PAYLOAD))] else []
    ensures old(client.state) == C.CONNECTED && !ok ==> Hindered(old(client.sock.Now()), client.sock.chip)
  {
    hide K.Consistent, C.Recorded, C.SlotsOk, C.ConfigOk, S.Accepted, C.CanSpeak, Stamp, C.Tried, C.Up, W5500.Later,
      W5500.Taken;
    assert client.trace + [] == client.trace;
    ok := client.Publish(topic, PAYLOAD);
  }

  /** A SENDOK was outstanding before, or the connection was gone after an attempt to send. */
  predicate Hindered(before: K.Snap, after: W5500.Chip) {
    K.Blocked(before) || !C.Up(after)
  }

  /** The two attempts to subscribe, on record as the socket's newest calls, one right after the other;
      each went out unless hindered. */
  predicate BothTried(m: W5500.Mood, was: seq<K.Io>, ios: seq<K.Io>, id: u16, base: seq<byte>, a: K.Snap, b: K.Snap,
                      ok1: bool, ok2: bool) {
    && |ios| == |was| + 2
    && (var mid := ios[|was|].after;
        && C.Tried(m, was, ios[..|was| + 1], P.Subscribe(id, SubTopic(base, 0)), a, mid, ok1)
        && C.Tried(m, ios[..|was| + 1], ios, P.Subscribe((id + 1) % 0x1_0000, SubTopic(base, 1)), mid, b, ok2)
        && (!ok1 ==> Hindered(a, mid.chip)) && (!ok2 ==> Hindered(mid, b.chip)))
  }

  function SubscribeEvents(id: u16, base: seq<byte>, ok1: bool, ok2: bool): seq<S.Event> {
    (if ok1 then [S.Sent(P.Subscribe(id, SubTopic(base, 0)))] else [])
    + if ok2 then [S.Sent(P.Subscribe((id + 1) % 0x1_0000, SubTopic(base, 1)))] else []
  }

  method SubscribeTo(client: C.MqttClient, topic: seq<byte>) returns (ok: bool)
    requires ClientOk(client) && 0 !in topic && |topic| < I.MAX_TOPIC_LENGTH
    modifies client, client.sock, client.timer, client.sendBuffer, client.subs
    ensures ClientOk(client) && Going(client) && client.subs.Length == 2 && client.state == old(client.state)
    ensures S.PublishTotal(client.history, client.trace) == old(S.PublishTotal(client.history, client.trace))
    ensures ok ==>
              var slot := if old(client.subs[..])[0].active then 1 else 0;
              client.subs[..] == old(client.subs[..])[slot := I.Subscription(topic, ON_MESSAGE, true)]
    ensures !ok ==> client.subs[..] == old(client.subs[..])
    ensures client.trace == old(client.trace) + (if ok then [S.Sent(P.Subscribe(old(client.packetId), topic))] else [])
    ensures client.config == old(client.config) && client.history == old(client.history)
    ensures client.state == C.CONNECTED && !old(client.subs[..])[1].active ==>
              && C.Tried(client.sock.net.mood, old(client.sock.ios), client.sock.ios, P.Subscribe(old(client.packetId), topic),
                         old(client.sock.Now()), client.sock.Now(), ok)
              && (!ok ==> Hindered(old(client.sock.Now()), client.sock.chip))
              && client.packetId == (old(client.packetId) + 1) % 0x1_0000
  {
    hide K.Consistent, C.Recorded, C.ConfigOk, S.Accepted, C.CanSpeak, Stamp, S.PublishTotal, W5500.FreeSize, W5500.Calm,
      C.Tried, C.Up, W5500.Later, W5500.Taken;
    S.CountSnoc(client.history, client.trace, S.Sent(P.Subscribe(client.packetId, topic)));
    assert client.trace + [] == client.trace;
    ok := client.Subscribe(topic, ON_MESSAGE);
    assert topic[..|topic|] == topic && old(client.subs[..])[1] == old(client.subs[1]);
  }

  /** The broker's address can be dialled, and no time passes. */
  ghost predicate Reachable(client: C.MqttClient, c: C.Config) {
    C.Dialable(client.sock, c) && client.timer.held
  }

  /** If the broker can be dialled and answers CONNECT with a CONNACK at once, its code decides. */
  predicate Decided(m: W5500.Mood, dialable: bool, ok: bool) {
    C.Answers(m) && dialable ==> (ok <==> m.answer[3] == 0)
  }

  method ConnectWith(client: C.MqttClient, c: C.Config) returns (ok: bool)
    requires ClientOk(client) && C.ConfigOk(c)
    modifies client, client.sock, client.timer, client.sendBuffer, client.recvBuffer, client.subs
    ensures ClientOk(client) && Going(client) && client.subs.Length == 2 && (ok <==> client.state == C.CONNECTED)
    ensures C.Connects(client.sock.net.mood, old(client.Look()), old(client.sock.ios), client.Look(), client.sock.ios, c)
    ensures Decided(client.sock.net.mood, Reachable(client, c), ok)
    ensures S.PublishTotal(client.history, client.trace) == old(S.PublishTotal(client.history, client.trace))
  {
    hide K.Consistent, C.Recorded, C.SlotsOk, C.ConfigOk, S.Accepted, C.CanSpeak, Stamp, S.PublishTotal, C.Outcome, C.NotSent;
    ok := client.Connect(c);
  }

  /** An attempt to connect: the client before it, when connect() had returned, and in the end, each with what
      the socket had on record; and which of the two topics were subscribed. */
  datatype Attempt = Attempt(cfg: E.SmartBellConfig, before: C.View, was: seq<K.Io>, dialled: C.View, said: seq<K.Io>,
                             after: C.View, ios: seq<K.Io>, first: bool, second: bool)

  /** What an attempt is: connect() with the configuration, and if that works, both subscriptions. */
  predicate AttemptMeets(m: W5500.Mood, dialable: bool, a: Attempt) {
    var c, base, ok := MqttConfig(a.cfg), CStr(a.cfg.gongBaseTopic), a.dialled.state == C.CONNECTED;
    && C.Connects(m, a.before, a.was, a.dialled, a.said, c)
    && Decided(m, dialable, ok)
    && (if ok then
          && BothTried(m, a.said, a.ios, a.before.packetId, base, a.dialled.sock, a.after.sock, a.first, a.second)
          && a.after.state == C.CONNECTED && a.after.config == c
          && a.after.subs == Subscribed(a.dialled.subs, base, a.first, a.second)
          && a.after.trace == a.dialled.trace + SubscribeEvents(a.before.packetId, base, a.first, a.second)
        else a.after == a.dialled && a.ios == a.said && !a.first && !a.second)
  }

  ghost predicate MadeBy(client: C.MqttClient, a: Attempt)
    reads client.sock.net
  {
    AttemptMeets(client.sock.net.mood, Reachable(client, MqttConfig(a.cfg)), a)
  }

  /** One attempt more, made with this configuration. */
  ghost predicate Attempted(client: C.MqttClient, was: seq<Attempt>, now: seq<Attempt>, cfg: E.SmartBellConfig)
    reads client.sock.net
  {
    |now| == |was| + 1 && now[..|was|] == was && now[|was|].cfg == cfg && MadeBy(client, now[|was|])
  }

  lemma OneAttempt(client: C.MqttClient, was: seq<Attempt>, a: Attempt)
    requires AttemptMeets(client.sock.net.mood, Reachable(client, MqttConfig(a.cfg)), a)
    ensures Attempted(client, was, was + [a], a.cfg)
  {
  }

  /** The attempts of one turn: one if it is due, one if a configuration with a broker was saved, all with
      this configuration. */
  ghost predicate Reconnects(client: C.MqttClient, was: seq<Attempt>, now: seq<Attempt>, cfg: E.SmartBellConfig,
                             again: bool, saved: bool)
    reads client.sock.net
  {
    && |now| == |was| + (if again then 1 else 0) + (if saved then 1 else 0) && was <= now
    && forall a | a in now[|was|..] :: a.cfg == cfg && MadeBy(client, a)
  }

  lemma ReconnectsAre(client: C.MqttClient, was: seq<Attempt>, mid: seq<Attempt>, now: seq<Attempt>, cfg: E.SmartBellConfig,
                      again: bool, saved: bool)
    requires if again then Attempted(client, was, mid, cfg) else mid == was
    requires if saved then Attempted(client, mid, now, cfg) else now == mid
    ensures Reconnects(client, was, now, cfg, again, saved)
  {
    hide MadeBy;
  }

  /** An attempt is due: there is a broker but no connection, and the counter shows five seconds since the last. */
  predicate Due(configured: bool, state: C.State, at: nat, last: u32) {
    configured && state != C.CONNECTED && Elapsed(Stamp(at), last) >= 5000
  }

  method LoopOnce(client: C.MqttClient)
    requires ClientOk(client)
    modifies client, client.sock, client.timer, client.sendBuffer, client.recvBuffer
    ensures ClientOk(client) && client.timer.ms >= old(client.timer.ms) && old(client.calls) <= client.calls
    ensures S.PublishTotal(client.history, client.trace) == old(S.PublishTotal(client.history, client.trace))
    ensures |client.turns| == |old(client.turns)| + 1 && client.turns[|old(client.turns)|].after.state == client.state
  {
    hide K.Consistent, C.Recorded, C.SlotsOk, C.ConfigOk, S.Accepted, C.CanSpeak, Stamp, S.PublishTotal,
      C.KeepAliveDue, C.KeepAliveLost, C.Handled, C.Heard, M.Plain, C.Drained;
    S.CountSnoc(client.history, client.trace, S.Sent(P.PingReq));
    ghost var turn := client.Loop();
  }

  /** mqtt_subscribe_topics: on a fresh connection both topics are tried, one right after the other, and each
      subscription goes out unless hindered; the table and the session are as their outcomes say. */
  method SubscribeTopics(client: C.MqttClient, cfg: E.SmartBellConfig) returns (ghost ok1: bool, ghost ok2: bool)
    requires ClientOk(client) && E.Sound(cfg)
    modifies client, client.sock, client.timer, client.sendBuffer, client.subs
    ensures ClientOk(client) && Going(client) && |old(client.subs[..])| == client.subs.Length == 2
    ensures client.state == old(client.state) && client.config == old(client.config)
    ensures S.PublishTotal(client.history, client.trace) == old(S.PublishTotal(client.history, client.trace))
    ensures old(client.state) == C.CONNECTED && !old(client.subs[..])[0].active && !old(client.subs[..])[1].active ==>
              && BothTried(client.sock.net.mood, old(client.sock.ios), client.sock.ios, old(client.packetId),
                           CStr(cfg.gongBaseTopic), old(client.sock.Now()), client.sock.Now(), ok1, ok2)
              && client.subs[..] == Subscribed(old(client.subs[..]), CStr(cfg.gongBaseTopic), ok1, ok2)
              && client.trace == old(client.trace) + SubscribeEvents(old(client.packetId), CStr(cfg.gongBaseTopic), ok1, ok2)
              && client.packetId == (old(client.packetId) + 2) % 0x1_0000
    ensures old(client.state) != C.CONNECTED ==>
              && client.subs[..] == old(client.subs[..]) && client.trace == old(client.trace)
              && client.sock.Now() == old(client.sock.Now()) && client.sock.ios == old(client.sock.ios)
  {
    hide E.Sound, CStr, S.PublishTotal, SubTopic, ClientOk, C.Tried, Hindered;
    ok1, ok2 := false, false;
    TwoSlots(client);
    if client.state != C.CONNECTED {
      return;
    }
    PacketsFit(cfg, 0);
    PacketsFit(cfg, 1);
    ghost var ios := client.sock.ios;
    var first := SubscribeTo(client, SubTopic(CStr(cfg.gongBaseTopic), 0));
    ghost var said, mid := client.sock.ios, client.sock.Now();
    assert client.subs[..][1] == old(client.subs[..])[1] || old(client.subs[..])[0].active;
    var second := SubscribeTo(client, SubTopic(CStr(cfg.gongBaseTopic), 1));
    ok1, ok2 := first, second;
    if !old(client.subs[..])[0].active && !old(client.subs[..])[1].active {
      TriedAgain(client.sock.net.mood, ios, said, client.sock.ios, old(client.packetId), CStr(cfg.gongBaseTopic),
        old(client.sock.Now()), mid, client.sock.Now(), ok1, ok2);
    }
  }

  lemma TriedAgain(m: W5500.Mood, was: seq<K.Io>, said: seq<K.Io>, ios: seq<K.Io>, id: u16, base: seq<byte>,
                   a: K.Snap, mid: K.Snap, b: K.Snap, ok1: bool, ok2: bool)
    requires C.Tried(m, was, said, P.Subscribe(id, SubTopic(base, 0)), a, mid, ok1)
    requires C.Tried(m, said, ios, P.Subscribe((id + 1) % 0x1_0000, SubTopic(base, 1)), mid, b, ok2)
    requires (!ok1 ==> Hindered(a, mid.chip)) && (!ok2 ==> Hindered(mid, b.chip))
    ensures BothTried(m, was, ios, id, base, a, b, ok1, ok2)
  {
    hide K.IoMeets, SubTopic, Hindered, P.Encode, P.Sized;
    assert ios[..|was| + 1] == said && ios[|was|] == said[|was|];
  }

  lemma TwoSlots(client: C.MqttClient)
    requires ClientOk(client)
    ensures client.subs.Length == 2
  {
  }

  /** connect, and if that works the two subscriptions on the new session: both topics are subscribed iff
      both go out. */
  method Reconnect(client: C.MqttClient, cfg: E.SmartBellConfig) returns (ghost a: Attempt)
    requires ClientOk(client) && E.Sound(cfg)
    modifies client, client.sock, client.timer, client.sendBuffer, client.recvBuffer, client.subs
    ensures ClientOk(client) && Going(client) && client.subs.Length == 2
    ensures S.PublishTotal(client.history, client.trace) == old(S.PublishTotal(client.history, client.trace))
    ensures a.cfg == cfg && a.before == old(client.Look()) && a.was == old(client.sock.ios)
    ensures a.after == client.Look() && a.ios == client.sock.ios
    ensures AttemptMeets(client.sock.net.mood, Reachable(client, MqttConfig(cfg)), a)
    ensures C.ConfigOk(MqttConfig(cfg)) && (a.first && a.second <==> client.subs[..] == BothSubscribed(CStr(cfg.gongBaseTopic)))
  {
    hide E.Sound, CStr, S.PublishTotal, C.ConfigOk, ClientOk, BothTried, BothSubscribed, SubscribeEvents, MqttConfig, Decided,
      Reachable, C.Outcome, C.NotSent;
    PacketsFit(cfg, 0);
    ghost var before, was := client.Look(), client.sock.ios;
    var connected := ConnectWith(client, MqttConfig(cfg));
    ghost var ok1, ok2, dialled, said := false, false, client.Look(), client.sock.ios;
    SubscribedIff(dialled.subs, CStr(cfg.gongBaseTopic), false, false);
    if connected {
      ok1, ok2 := SubscribeTopics(client, cfg);
      SubscribedIff(dialled.subs, CStr(cfg.gongBaseTopic), ok1, ok2);
    }
    a := Attempt(cfg, before, was, dialled, said, client.Look(), client.sock.ios, ok1, ok2);
  }

  method LoadStored(settings: E.LightweightConfig)
    requires SettingsOk(settings)
    modifies settings`config, settings.eeprom
    ensures SettingsOk(settings)
    ensures settings.State() == E.Loaded(old(settings.State()))
  {
    hide E.Good, E.Loaded;
    E.AfterGood(settings.State(), E.Load);
    settings.Load();
  }

  method TakeFlag(settings: E.LightweightConfig) returns (saved: bool)
    requires SettingsOk(settings)
    modifies settings`saveFlag
    ensures SettingsOk(settings) && saved == old(settings.saveFlag)
    ensures settings.State() == old(settings.State()).(saveFlag := false)
  {
    hide E.Good;
    E.AfterGood(settings.State(), E.ConsumeFlag);
    saved := settings.ConsumeSaveFlag();
  }

  /** The console's turn executes exactly the commands in the bytes it reads, which leaves the configuration good. */
  method PollConsole(console: N.Console)
    requires ConsoleOk(console) && SettingsOk(console.settings)
    modifies console, console.cmdBuffer, console.settings, console.settings.eeprom, console.uart, console.uart.buffer
    ensures ConsoleOk(console) && SettingsOk(console.settings)
    ensures console.uart.handed == console.uart.accepted && old(console.uart.handed) <= console.uart.handed
    ensures console.settings.State() ==
            N.Executed(old(console.settings.State()), old(console.Line()), console.uart.handed[|old(console.uart.handed)|..])
  {
    hide E.Good, N.Executed, T.Typed, U.Contents;
    ghost var s, line := console.settings.State(), console.Line();
    ghost var handed := console.uart.handed;
    console.Poll();
    N.ExecutedGood(s, line, console.uart.handed[|handed|..]);
  }

  /** Load the configuration and, if it names a broker, connect. */
  method StartUp(client: C.MqttClient, console: N.Console) returns (configured: bool, ghost attempts: seq<Attempt>)
    requires ClientOk(client) && client.trace == [] && client.history == []
    requires ConsoleOk(console) && SettingsOk(console.settings)
    requires console.settings.eeprom != client.sendBuffer && console.settings.eeprom != client.recvBuffer
    requires console.uart.buffer != client.sendBuffer && console.uart.buffer != client.recvBuffer
    modifies client, client.sock, client.timer, client.sendBuffer, client.recvBuffer, client.subs
    modifies console.settings`config, console.settings.eeprom
    ensures ClientOk(client) && ConsoleOk(console) && SettingsOk(console.settings)
    ensures S.PublishTotal(client.history, client.trace) == 0
    ensures console.settings.State() == E.Loaded(old(console.settings.State()))
    ensures configured == HasBroker(console.settings.config)
    ensures if configured then Attempted(client, [], attempts, console.settings.config) else attempts == []
  {
    hide E.Good, E.Sound, S.PublishTotal, ClientOk, SettingsOk, ConsoleOk, E.Loaded, AttemptMeets, Reachable, Attempted,
      CStr, C.ConfigOk,
      BothSubscribed;
    attempts := [];
    NothingSent();
    ConsoleApart(console);
    LoadStored(console.settings);
    configured := HasBroker(console.settings.config);
    if configured {
      SettingsSound(console.settings);
      ghost var a := Reconnect(client, console.settings.config);
      OneAttempt(client, attempts, a);
      attempts := attempts + [a];
    }
  }

  lemma ConsoleApart(console: N.Console)
    requires ConsoleOk(console)
    ensures console.uart.buffer != console.settings.eeprom
  {
  }

  lemma SettingsSound(settings: E.LightweightConfig)
    requires SettingsOk(settings)
    ensures E.Sound(settings.config)
  {
  }

  /** This poll finds a press to announce. */
  predicate Announces(b: Bell, e: Event) {
    e.Poll? && !InLockout(b, Stamp(e.t)) && WantsPublish(BeforePublish(Of(b, e.i), Stamp(e.t), e.raw))
  }

  class SmartBell {
    const client: C.MqttClient
    const settings: E.LightweightConfig
    const chime1: ChimeState
    const chime2: ChimeState
    var portB: bv8
    var loopStarted: bool
    var loopStartMs: u32
    var mqttConfigured: bool
    var lastMqttRetryMs: u32
    const console: N.Console
    ghost var run: Run
    ghost var retryAt: nat // true time behind lastMqttRetryMs
    ghost var attempts: seq<Attempt>

    ghost function State(): Bell
      reads this, chime1, chime2
    {
      Bell(chime1.Value(), chime2.Value(), portB, loopStarted, loopStartMs)
    }

    /** Parts that must not overlap. */
    predicate Apart() {
      && chime1 != chime2 && chime1.which == 0 && chime2.which == 1
      && settings.eeprom != client.sendBuffer && settings.eeprom != client.recvBuffer
      && console.settings == settings
      && console.cmdBuffer != client.sendBuffer && console.cmdBuffer != client.recvBuffer
      && console.uart.buffer != client.sendBuffer && console.uart.buffer != client.recvBuffer
    }

    ghost predicate Ready()
      reads settings, settings.eeprom, client, client.sock, client.timer, client.sendBuffer, client.recvBuffer, client.subs
    {
      Apart() && ClientOk(client) && SettingsOk(settings)
    }

    ghost predicate Valid()
      reads this, chime1, chime2, console, console.uart, console.uart.buffer
      reads settings, settings.eeprom, client, client.sock, client.timer, client.sendBuffer, client.recvBuffer, client.subs
    {
      && Ready() && ConsoleOk(console)
      && lastMqttRetryMs == Stamp(retryAt) && retryAt <= client.timer.ms
      && Tracked(run, State(), client.timer.ms, client.history, client.trace)
    }

    /** Start-up, from the loading of the configuration to the main loop. */
    constructor (client: C.MqttClient, console: N.Console, port: bv8)
      requires ClientOk(client) && client.trace == [] && client.history == []
      requires ConsoleOk(console) && SettingsOk(console.settings)
      requires console.settings.eeprom != client.sendBuffer && console.settings.eeprom != client.recvBuffer
      requires console.cmdBuffer != client.sendBuffer && console.cmdBuffer != client.recvBuffer
      requires console.uart.buffer != client.sendBuffer && console.uart.buffer != client.recvBuffer
      modifies client, client.sock, client.timer, client.sendBuffer, client.recvBuffer, client.subs
      modifies console.settings, console.settings.eeprom
      ensures Valid() && this.client == client && this.console == console && settings == console.settings
      ensures settings.State() == E.Loaded(old(console.settings.State()))
      ensures mqttConfigured == HasBroker(settings.config)
      ensures if mqttConfigured then Attempted(client, [], attempts, settings.config) else attempts == []
    {
      hide Attempted, E.Good, E.Sound, Boot, Booted, Stamp, Tracked, S.PublishTotal, ClientOk, SettingsOk, ConsoleOk, Lower,
        E.Loaded, E.HasRoom, HasBroker, MqttConfig;
      var configured, made := StartUp(client, console);
      this.client, this.console, settings := client, console, console.settings;
      chime1 := new ChimeState(0);
      chime2 := new ChimeState(1);
      portB := Lower(port, 3); // setup_GPIO
      loopStarted, loopStartMs, lastMqttRetryMs, mqttConfigured := false, 0, 0, configured;
      retryAt, attempts := 0, made;
      Zero();
      new;
      var raw1: bool, raw2: bool := *, *; // the levels of the input pins
      InitChimes(raw1, raw2, port);
    }

    /** Both chimes are initialised within one tick of the clock. */
    method InitChimes(raw1: bool, raw2: bool, ghost port: bv8)
      requires Ready() && portB == Lower(port, 3) && !loopStarted && loopStartMs == 0
      requires chime1.Value() == POWER_ON && chime2.Value() == POWER_ON
      requires S.PublishTotal(client.history, client.trace) == 0
      modifies chime1, chime2, client.timer, this`run
      ensures Ready() && Tracked(run, State(), client.timer.ms, client.history, client.trace)
      ensures client.timer.ms >= old(client.timer.ms)
    {
      hide E.Good, Booted, Stamp, Tracked, S.PublishTotal, ClientOk, SettingsOk, Lower;
      var now := Now(client);
      ghost var t := client.timer.ms;
      chime1.Init(raw1, now, t);
      chime2.Init(raw2, now, t);
      run := Run([State()], [], [t]);
      PinsLow(port);
      JustBooted(t, raw1, raw2, portB);
      NothingSent();
      StillTracked(run, State(), t, t, [], [], client.history, client.trace);
    }

    // -------------------------------------------------------------------------------- process_chime

    /** The output stage: start ringing, stop ringing. */
    method Drive(c: ChimeState, now: u32)
      modifies c, this`portB
      ensures c.Value() == Timed(Triggered(old(c.Value()), now), now)
      ensures portB == Driven(old(portB), OutPin(c.which), old(c.Value()), now)
    {
      hide Elapsed, OutPin, Raise, Lower;
      if c.triggerPending {
        c.triggerPending := false;
        if c.enabled && !c.isRinging {
          c.isRinging := true;
          c.ringStartMs := now;
          portB := Raise(portB, OutPin(c.which));
        }
      }
      if c.isRinging {
        if Elapsed(now, c.ringStartMs) >= RING_MS {
          c.isRinging := false;
          portB := Lower(portB, OutPin(c.which));
        }
      }
    }

    /** Publish the button event, again and again while the button is held, until one is accepted. */
    method Notify(c: ChimeState) returns (ghost delivered: bool)
      requires Ready() && (c == chime1 || c == chime2)
      modifies c`mqttSent, client, client.sock, client.timer, client.sendBuffer
      ensures Ready() && Going(client) && client.history == old(client.history)
      ensures c.Value() == Notified(old(c.Value()), delivered)
      ensures delivered ==> WantsPublish(old(c.Value()))
      ensures client.trace == old(client.trace) +
              if delivered then [S.Sent(P.Publish(PubTopic(settings.config, c.which), PAYLOAD))] else []
      // A wanted publish goes out over a connection that stays up, unless a SENDOK is outstanding.
      ensures WantsPublish(old(c.Value())) && old(client.state) == C.CONNECTED && !delivered ==>
                Hindered(old(client.sock.Now()), client.sock.chip)
    {
      hide E.Sound, CStr, ClientOk, SettingsOk, Hindered;
      delivered := false;
      if c.buttonPressed && !c.mqttSent && client.state == C.CONNECTED {
        SettingsSound(settings);
        PacketsFit(settings.config, c.which);
        var ok := PublishPress(client, PubTopic(settings.config, c.which));
        if ok {
          c.mqttSent := true;
          delivered := true;
        }
      }
    }

    /** process_chime for one chime. */
    method ProcessChime(c: ChimeState) returns (ghost e: Event)
      requires Ready() && (c == chime1 || c == chime2)
      modifies c, this`portB, this`loopStarted, this`loopStartMs
      modifies client, client.sock, client.timer, client.sendBuffer
      ensures Ready() && Going(client) && client.history == old(client.history)
      ensures e.Poll? && e.i == c.which && old(client.timer.ms) <= e.t <= client.timer.ms
      ensures State() == Step(old(State()), e)
      ensures client.trace == old(client.trace) +
              if Publishes(old(State()), e, c.which) then [S.Sent(P.Publish(PubTopic(settings.config, c.which), PAYLOAD))]
              else []
      ensures Announces(old(State()), e) && old(client.state) == C.CONNECTED && !e.delivered ==>
                Hindered(old(client.sock.Now()), client.sock.chip)
    {
      hide Elapsed, Debounced, Sampled, Driven, OutPin, Stamp, WantsPublish, ClientOk, SettingsOk, Polled, BeforePublish,
        Hindered,
        InLockout, Processed;
      var now := Now(client);
      ghost var t := client.timer.ms;
      var raw: bool := *; // the level of the input pin
      ghost var delivered := LockOrPoll(c, raw, now);
      e := Poll(c.which, t, raw, delivered);
    }

    method LockOrPoll(c: ChimeState, raw: bool, now: u32) returns (ghost delivered: bool)
      requires Ready() && (c == chime1 || c == chime2)
      modifies c, this`portB, this`loopStarted, this`loopStartMs
      modifies client, client.sock, client.timer, client.sendBuffer
      ensures Ready() && Going(client) && client.history == old(client.history)
      ensures State() == Processed(old(State()), c.which, now, raw, delivered)
      ensures delivered ==>
                !InLockout(old(State()), now) && WantsPublish(BeforePublish(Of(old(State()), c.which), now, raw))
      ensures client.trace == old(client.trace) +
              if delivered then [S.Sent(P.Publish(PubTopic(settings.config, c.which), PAYLOAD))] else []
      ensures !InLockout(old(State()), now) && WantsPublish(BeforePublish(Of(old(State()), c.which), now, raw)) &&
              old(client.state) == C.CONNECTED && !delivered ==>
                Hindered(old(client.sock.Now()), client.sock.chip)
    {
      hide Elapsed, Debounced, Sampled, Driven, OutPin, WantsPublish, ClientOk, SettingsOk, Polled, BeforePublish, Hindered;
      if !loopStarted {
        loopStartMs := now;
        loopStarted := true;
      }
      delivered := false;
      if Elapsed(now, loopStartMs) < LOCKOUT_MS {
        c.Lock(raw, now);
        return;
      }
      delivered := Active(c, raw, now);
    }

    /** process_chime outside the lockout. */
    method Active(c: ChimeState, raw: bool, now: u32) returns (ghost delivered: bool)
      requires Ready() && (c == chime1 || c == chime2)
      modifies c, this`portB, client, client.sock, client.timer, client.sendBuffer
      ensures Ready() && Going(client) && client.history == old(client.history)
      ensures c.Value() == Polled(old(c.Value()), now, raw, delivered)
      ensures portB == Driven(old(portB), OutPin(c.which), Debounced(Sampled(old(c.Value()), now, raw), now), now)
      ensures delivered ==> WantsPublish(BeforePublish(old(c.Value()), now, raw))
      ensures client.trace == old(client.trace) +
              if delivered then [S.Sent(P.Publish(PubTopic(settings.config, c.which), PAYLOAD))] else []
      ensures WantsPublish(BeforePublish(old(c.Value()), now, raw)) && old(client.state) == C.CONNECTED && !delivered ==>
                Hindered(old(client.sock.Now()), client.sock.chip)
    {
      hide Debounced, Sampled, Triggered, Timed, Driven, OutPin, WantsPublish, Notified, ClientOk, SettingsOk, Hindered;
      c.Debounce(raw, now);
      Drive(c, now);
      delivered := Notify(c);
    }

    /** ... with its place in the run. */
    method RunChime(c: ChimeState)
      requires Valid() && (c == chime1 || c == chime2)
      modifies c, this`portB, this`loopStarted, this`loopStartMs, this`run
      modifies client, client.sock, client.timer, client.sendBuffer
      ensures Valid() && Grown(old(run), run) && |run.events| == |old(run).events| + 1
      ensures run.events[|old(run).events|].Poll? && run.events[|old(run).events|].i == c.which
      ensures var e := run.events[|old(run).events|];
              Announces(old(State()), e) && old(client.state) == C.CONNECTED && !e.delivered ==>
                Hindered(old(client.sock.Now()), client.sock.chip)
      ensures client.calls == old(client.calls) && client.turns == old(client.turns) && client.timer.ms >= old(client.timer.ms)
    {
      hide Announces, Hindered, Step, Stamp, Tracked, Publishes, S.PublishTotal, ClientOk, SettingsOk, ConsoleOk,
        PubTopic, Extended, IsRun;
      ghost var b, was, h, tr := State(), client.timer.ms, client.history, client.trace;
      ghost var e := ProcessChime(c);
      PacketCounted(h, tr, Publishes(b, e, e.i), PubTopic(settings.config, c.which));
      EventTracked(run, b, e, was, e.t, client.timer.ms, h, tr, client.trace);
      RunAligned(run, b, was, h, tr);
      Growing(run, e, e.t);
      run := Extended(run, e, e.t);
    }

    // ------------------------------------------------------------------------------------ network

    /** An attempt with the stored configuration. */
    method TryAgain()
      requires Valid()
      modifies this`attempts, client, client.sock, client.timer, client.sendBuffer, client.recvBuffer, client.subs
      ensures Valid() && client.timer.ms >= old(client.timer.ms)
      ensures client.calls == old(client.calls) && client.turns == old(client.turns)
      ensures Attempted(client, old(attempts), attempts, settings.config) && attempts[|old(attempts)|].after == client.Look()
    {
      hide Tracked, S.PublishTotal, Stamp, ClientOk, SettingsOk, ConsoleOk, AttemptMeets, Reachable, Attempted, CStr,
        C.ConfigOk,
        BothSubscribed;
      ghost var was, h, tr := client.timer.ms, client.history, client.trace;
      SettingsSound(settings);
      ghost var a := Reconnect(client, settings.config);
      StillTracked(run, State(), was, client.timer.ms, h, tr, client.history, client.trace);
      OneAttempt(client, attempts, a);
      attempts := attempts + [a];
    }

    /** Connect again, if that is due; so attempts are at least five seconds of true time apart. */
    method Retry() returns (ghost at: nat)
      requires Valid()
      modifies this`lastMqttRetryMs, this`retryAt, this`attempts
      modifies client, client.sock, client.timer, client.sendBuffer, client.recvBuffer, client.subs
      ensures Valid() && old(client.timer.ms) <= at <= client.timer.ms
      ensures if Due(mqttConfigured, old(client.state), at, old(lastMqttRetryMs)) then
                && retryAt == at >= old(retryAt) + RETRY_MS && lastMqttRetryMs == Stamp(at)
                && Attempted(client, old(attempts), attempts, settings.config)
                && attempts[|old(attempts)|].after == client.Look()
              else
                && retryAt == old(retryAt) && lastMqttRetryMs == old(lastMqttRetryMs) && attempts == old(attempts)
                && client.Look() == old(client.Look()).(ms := client.timer.ms)
      ensures client.calls == old(client.calls) && client.turns == old(client.turns)
    {
      hide Tracked, Stamp, ClientOk, SettingsOk, ConsoleOk, Attempted, Due;
      var due;
      due, at := LookWhetherDue();
      if due {
        TryAgain();
      }
    }

    method LookWhetherDue() returns (due: bool, ghost at: nat)
      requires Valid()
      modifies this`lastMqttRetryMs, this`retryAt, client.timer
      ensures Valid() && old(client.timer.ms) <= at == client.timer.ms
      ensures due == Due(mqttConfigured, client.state, at, old(lastMqttRetryMs))
      ensures if due then retryAt == at >= old(retryAt) + RETRY_MS && lastMqttRetryMs == Stamp(at)
              else retryAt == old(retryAt) && lastMqttRetryMs == old(lastMqttRetryMs)
    {
      hide Tracked, Elapsed, Stamp, ClientOk, SettingsOk, ConsoleOk, S.PublishTotal;
      at, due := client.timer.ms, false;
      if mqttConfigured && client.state != C.CONNECTED {
        var now := Now(client);
        StillTracked(run, State(), at, client.timer.ms, client.history, client.trace, client.history, client.trace);
        at := client.timer.ms;
        ElapsedIsLow(at, retryAt);
        if Elapsed(now, lastMqttRetryMs) >= RETRY_MS {
          lastMqttRetryMs := now;
          retryAt := at;
          due := true;
        }
      }
    }

    /** After a save, connect with the new configuration. */
    method AfterSave()
      requires Valid()
      modifies this`mqttConfigured, this`attempts, settings`saveFlag
      modifies client, client.sock, client.timer, client.sendBuffer, client.recvBuffer, client.subs
      ensures Valid() && settings.State() == old(settings.State()).(saveFlag := false)
      ensures mqttConfigured == if old(settings.saveFlag) then HasBroker(settings.config) else old(mqttConfigured)
      ensures if old(settings.saveFlag) && HasBroker(settings.config) then
                && Attempted(client, old(attempts), attempts, settings.config)
                && attempts[|old(attempts)|].after == client.Look()
              else attempts == old(attempts) && client.Look() == old(client.Look())
      ensures client.timer.ms >= old(client.timer.ms) && client.calls == old(client.calls) && client.turns == old(client.turns)
    {
      hide Tracked, Stamp, ClientOk, SettingsOk, ConsoleOk, Attempted, HasBroker;
      var saved := TakeFlag(settings);
      if saved {
        mqttConfigured := HasBroker(settings.config);
        if mqttConfigured {
          TryAgain();
        }
      }
    }

    // ----------------------------------------------------------------------------------- messages

    // on_mqtt_message_received
    method OnMessage(topic: seq<byte>, payload: seq<byte>)
      requires Apart()
      modifies chime1, chime2
      ensures State() == match MessageEvent(topic, payload)
                         case Some(e) => Step(old(State()), e)
                         case None => old(State())
    {
      var target, command := TargetOf(topic), CommandOf(payload);
      if target.Some? && command.Some? {
        var c := if target.value == 0 then chime1 else chime2;
        c.Command(command.value);
      }
    }

    method RunMessage(topic: seq<byte>, payload: seq<byte>)
      requires Valid()
      modifies chime1, chime2, this`run
      ensures Valid() && Grown(old(run), run)
      ensures run.events == old(run).events + match MessageEvent(topic, payload)
                                              case Some(e) => [e]
                                              case None => []
    {
      hide Step, Stamp, Tracked, S.PublishTotal, TargetOf, CommandOf, ClientOk, SettingsOk, ConsoleOk;
      ghost var b, t := State(), client.timer.ms;
      OnMessage(topic, payload);
      RunAligned(run, b, t, client.history, client.trace);
      match MessageEvent(topic, payload)
      case Some(e) =>
        EventTracked(run, b, e, t, t, t, client.history, client.trace, client.trace);
        run := Extended(run, e, t);
      case None =>
    }

    /** MinimalMQTT::loop and the callbacks it makes. */
    method ServeNetwork()
      requires Valid()
      modifies chime1, chime2, this`run
      modifies client, client.sock, client.timer, client.sendBuffer, client.recvBuffer
      ensures Valid() && Grown(old(run), run) && old(client.calls) <= client.calls && |client.turns| == |old(client.turns)| + 1
      ensures run.events == old(run).events + MessageEvents(client.calls[|old(client.calls)|..])
      ensures client.turns[|old(client.turns)|].after.state == client.state && client.timer.ms >= old(client.timer.ms)
    {
      hide Tracked, Stamp, S.PublishTotal, ClientOk, SettingsOk, ConsoleOk, MessageEvents, MessageEvent;
      ghost var b, was, h, tr := State(), client.timer.ms, client.history, client.trace;
      var before := |client.calls|;
      RunAligned(run, b, was, h, tr);
      LoopOnce(client);
      StillTracked(run, b, was, client.timer.ms, h, tr, client.history, client.trace);
      var calls := client.calls;
      NoMessages(calls, before);
      for k := before to |calls|
        invariant client.calls == calls && |client.turns| == |old(client.turns)| + 1
        invariant client.turns[|old(client.turns)|].after.state == client.state && client.timer.ms >= old(client.timer.ms)
        invariant Valid() && Grown(old(run), run)
        invariant run.events == old(run).events + MessageEvents(calls[before..k])
      {
        OneMore(calls, before, k);
        RunMessage(calls[k].topic, calls[k].payload);
      }
      assert calls[before..|calls|] == calls[before..];
    }

    // ---------------------------------------------------------------------------------- main loop

    /** The console's turn. */
    method ServeConsole()
      requires Valid()
      modifies console, console.cmdBuffer, settings, settings.eeprom, console.uart, console.uart.buffer
      ensures Valid() && console.uart.handed == console.uart.accepted && old(console.uart.handed) <= console.uart.handed
      ensures settings.State() ==
              N.Executed(old(settings.State()), old(console.Line()), console.uart.handed[|old(console.uart.handed)|..])
    {
      hide Tracked, Stamp, ClientOk, SettingsOk, ConsoleOk, N.Executed;
      PollConsole(console);
    }

    /** One turn of the main loop: the commands received, in order, then one poll of each chime. */
    method Turn() returns (ghost at: nat)
      requires Valid()
      modifies this, chime1, chime2
      modifies client, client.sock, client.timer, client.sendBuffer, client.recvBuffer, client.subs
      modifies console, console.cmdBuffer, settings, settings.eeprom, console.uart, console.uart.buffer
      ensures Valid() && Grown(old(run), run) && old(client.calls) <= client.calls && |client.turns| == |old(client.turns)| + 1
      ensures EndsInPolls(run.events, old(run).events + MessageEvents(client.calls[|old(client.calls)|..]))
      ensures console.uart.handed == console.uart.accepted && old(console.uart.handed) <= console.uart.handed
      ensures settings.State() == N.Executed(old(settings.State()).(saveFlag := false), old(console.Line()),
                                             console.uart.handed[|old(console.uart.handed)|..])
      ensures old(client.timer.ms) <= at <= client.timer.ms
      ensures var again, saved := Due(old(mqttConfigured), client.turns[|old(client.turns)|].after.state, at, old(lastMqttRetryMs)),
                                  old(settings.saveFlag) && HasBroker(old(settings.config));
              && Reconnects(client, old(attempts), attempts, old(settings.config), again, saved)
              && lastMqttRetryMs == (if again then Stamp(at) else old(lastMqttRetryMs))
              && mqttConfigured == (if old(settings.saveFlag) then saved else old(mqttConfigured))
    {
      hide Tracked, Stamp, ClientOk, SettingsOk, ConsoleOk, MessageEvents, N.Executed, Due, Reconnects, HasBroker;
      at := TurnNetwork();
      TurnChimes();
      ServeConsole();
    }

    method TurnNetwork() returns (ghost at: nat)
      requires Valid()
      modifies chime1, chime2, this`run, this`lastMqttRetryMs, this`retryAt, this`attempts, this`mqttConfigured, settings`saveFlag
      modifies client, client.sock, client.timer, client.sendBuffer, client.recvBuffer, client.subs
      ensures Valid() && Grown(old(run), run) && old(client.calls) <= client.calls && |client.turns| == |old(client.turns)| + 1
      ensures run.events == old(run).events + MessageEvents(client.calls[|old(client.calls)|..])
      ensures settings.State() == old(settings.State()).(saveFlag := false) && old(client.timer.ms) <= at <= client.timer.ms
      ensures var again, saved := Due(old(mqttConfigured), client.turns[|old(client.turns)|].after.state, at, old(lastMqttRetryMs)),
                                  old(settings.saveFlag) && HasBroker(old(settings.config));
              && Reconnects(client, old(attempts), attempts, old(settings.config), again, saved)
              && lastMqttRetryMs == (if again then Stamp(at) else old(lastMqttRetryMs))
              && mqttConfigured == (if old(settings.saveFlag) then saved else old(mqttConfigured))
    {
      hide Tracked, Stamp, ClientOk, SettingsOk, ConsoleOk, MessageEvents, Due, Reconnects, HasBroker;
      ServeNetwork();
      at := KeepConnected();
    }

    /** Both reasons to connect again. */
    method KeepConnected() returns (ghost at: nat)
      requires Valid()
      modifies this`lastMqttRetryMs, this`retryAt, this`attempts, this`mqttConfigured, settings`saveFlag
      modifies client, client.sock, client.timer, client.sendBuffer, client.recvBuffer, client.subs
      ensures Valid() && settings.State() == old(settings.State()).(saveFlag := false)
      ensures old(client.timer.ms) <= at <= client.timer.ms
      ensures client.calls == old(client.calls) && client.turns == old(client.turns)
      ensures var again, saved := Due(old(mqttConfigured), old(client.state), at, old(lastMqttRetryMs)),
                                  old(settings.saveFlag) && HasBroker(old(settings.config));
              && Reconnects(client, old(attempts), attempts, old(settings.config), again, saved)
              && lastMqttRetryMs == (if again then Stamp(at) else old(lastMqttRetryMs))
              && mqttConfigured == (if old(settings.saveFlag) then saved else old(mqttConfigured))
    {
      hide Tracked, Stamp, ClientOk, SettingsOk, ConsoleOk, Due, Attempted, Reconnects, HasBroker;
      at := Retry();
      ghost var mid := attempts;
      AfterSave();
      ReconnectsAre(client, old(attempts), mid, attempts, settings.config,
                    Due(old(mqttConfigured), old(client.state), at, old(lastMqttRetryMs)),
                    old(settings.saveFlag) && HasBroker(settings.config));
    }

    /** Both chimes are polled, in this order. */
    method TurnChimes()
      requires Valid()
      modifies chime1, chime2, this`portB, this`loopStarted, this`loopStartMs, this`run
      modifies client, client.sock, client.timer, client.sendBuffer
      ensures Valid() && Grown(old(run), run) && client.calls == old(client.calls) && client.turns == old(client.turns)
      ensures EndsInPolls(run.events, old(run).events) && client.timer.ms >= old(client.timer.ms)
    {
      hide Tracked, Stamp, ClientOk, SettingsOk, ConsoleOk;
      RunChime(chime1);
      RunChime(chime2);
    }

    /** However long the firmware runs: all TCP sessions together have carried no more PUBLISH packets
        than the two buttons had accepted presses. */
    method Operate(turns: nat)
      requires Valid()
      modifies this, chime1, chime2
      modifies client, client.sock, client.timer, client.sendBuffer, client.recvBuffer, client.subs
      modifies console, console.cmdBuffer, settings, settings.eeprom, console.uart, console.uart.buffer
      ensures Valid() && IsRun(run) && Latest(run) == State() && Grown(old(run), run)
      ensures |run.events| >= |old(run).events| + 2 * turns && |client.turns| == |old(client.turns)| + turns
      ensures S.PublishTotal(client.history, client.trace)
              <= CountPresses(run, |run.events|, 0) + CountPresses(run, |run.events|, 1)
    {
      hide Tracked, Stamp, IsRun, ClientOk, SettingsOk, ConsoleOk;
      RunAligned(run, State(), client.timer.ms, client.history, client.trace);
      for n := 0 to turns
        invariant Valid() && Grown(old(run), run)
        invariant |run.events| >= |old(run).events| + 2 * n && |client.turns| == |old(client.turns)| + n
      {
        ghost var at := Turn();
      }
      PacketsBounded(run, State(), client.timer.ms, client.history, client.trace);
      RunAligned(run, State(), client.timer.ms, client.history, client.trace);
    }
  }

  /** These events, then one poll of each chime. */
  predicate EndsInPolls(all: seq<Event>, before: seq<Event>) {
    var n := |before|;
    && |all| == n + 2 && before <= all
    && all[n].Poll? && all[n].i == 0 && all[n + 1].Poll? && all[n + 1].i == 1
  }

  /** A later stage of the same run. */
  predicate Grown(r: Run, d: Run) {
    r.states <= d.states && r.events <= d.events && r.times <= d.times
  }

  lemma Growing(r: Run, e: Event, t: nat)
    requires Aligned(r)
    ensures Grown(r, Extended(r, e, t)) && Extended(r, e, t).events == r.events + [e]
  {
  }

  lemma RunAligned(r: Run, b: Bell, ms: nat, h: seq<S.Record>, t: seq<S.Event>)
    requires Tracked(r, b, ms, h, t)
    ensures IsRun(r) && Aligned(r) && Latest(r) == b
  {
  }

  lemma PacketCounted(h: seq<S.Record>, t: seq<S.Event>, sent: bool, topic: seq<byte>)
    ensures S.PublishTotal(h, t + if sent then [S.Sent(P.Publish(topic, PAYLOAD))] else [])
            == S.PublishTotal(h, t) + if sent then 1 else 0
  {
    S.CountSnoc(h, t, S.Sent(P.Publish(topic, PAYLOAD)));
    assert t + [] == t;
  }

  lemma NoMessages(calls: seq<I.Call>, n: nat)
    requires n <= |calls|
    ensures MessageEvents(calls[n..n]) == []
  {
  }

  lemma Zero()
    ensures Stamp(0) == 0
  {
  }

  lemma NothingSent()
    ensures S.PublishTotal([], []) == 0
  {
  }

  lemma PinsLow(port: bv8)
    ensures Lower(port, 3) & 3 == 0
  {
  }
}
