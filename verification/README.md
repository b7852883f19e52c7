# Smart bell firmware: a verified model

The firmware drives two door chimes on an ATmega, reports button presses to an MQTT broker through a
W5500 Ethernet chip, and is configured over a serial console. This project models it from the socket
registers up to the main loop and proves what each layer promises the next one.

* **Socket driver.** `Ring`, `StreamRing`, `Datagrams`, `W5500`, `SocketMasks`, `Sockets` (file `Socket.dfy`),
  `SocketRuns`. The chip is a value whose ring buffers are addressed by free-running 16-bit pointers. Between any
  two register accesses of the driver it may take any step of its own: acknowledge bytes, store arriving bytes or
  datagrams, change its status, raise SENDOK for a SEND that has completed, report a timeout (`W5500.EnvStep`). The
  driver is the class `Sockets.Socket`; its methods are proved against unbounded byte streams and datagram queues.
* **MQTT client.** `Packets` holds MQTT 3.1.1 (OASIS) packets as values with an encoder and a pure parser.
  `Encoder` and `Inbound` are the firmware's buffers and decoder, `Meaning` what received bytes mean by their Remaining
  Length and when the decoder delivers just that, `Session` says what one TCP session may look like, `Client` is the
  class `MqttClient` on top of `Sockets.Socket`, `KeepAlive` reasons over whole runs of `loop()`, `ClientRuns` over what
  its callers see.
* **Bell.** `Timer` is the wrapping millisecond clock over unbounded true time, `Chimes` the state machine of
  both chimes with its whole-run theorems, `ChimeHistory` says from the events of a run alone what becomes of each poll
  and command, `BellRuns` ties runs to the packets sent.
* **Console and persistence.** `UartRing` (interrupt against reader), `Text` and `Addresses` (printers and parsers),
  `Settings` (record, EEPROM image, commands), `Typing` and `Console` (from bytes to executed commands), `Commands` (what
  each command does, by its text).
* **Application.** `Messages` and `SmartBell`: the main loop over all of the above.

True time, what the network has delivered, the history of sessions and the run of the bell are ghost state; the
executable state is the firmware's. Each socket records its calls of send, recv and recvfrom (`ios`: arguments, result,
bytes, the socket before and after), each client its calls of loop() (`turns`), and the application its attempts to connect (`attempts`);
the theorems about whole runs are about what these records grew by. Nondeterministic assignments (`*`) stand for the outside world: pin levels,
arriving bytes, the link, how long a wait lasts. Where a theorem says what must happen, the ghost object `Sockets.Network` fixes
what the chip does of its own: nothing at all (`Quiet`), a peer that accepts and closes at once (`Brisk`), or one that
accepts and answers the first packet with given bytes (`Answering`); and a clock may be `held`, so that no time passes.
What is not about one of these moods is about a network that does what it likes (`Any`).

## What the proofs turned up

Properties that fail, each with the exact condition under which the code keeps them:

* DISCONNECT can be the first packet on a TCP session. With a peer that accepts the connection and closes it at once,
  `connect` fails and a following `disconnect` sends nothing but DISCONNECT (`ClientRuns.GoodbyeFirst`). The rule is
  broken iff the send of the goodbye goes through; on a socket unable to send it does not, on one that is able and
  stays up it does (`ClientRuns.FailedConnectThenDisconnect`). From state CONNECTED the rule is always kept
  (`Client.MqttClient.Disconnect`).
* The packet identifier wraps to 0, which section 2.3.1 forbids; the SUBSCRIBE is then not a legal packet
  (`Messages.SubscriptionParsesIff`). A press is announced with an empty topic until an input topic has been set, and
  an empty or wildcard topic is not legal in PUBLISH (`Messages.PressParsesIff`).
* Keep-alive 0, which section 3.1.2.10 lets mean "off", ends the connection at the first sample at which time has
  passed (`KeepAlive.ZeroKeepAliveLostIff`).
* A received topic survives exactly if it has at most 31 bytes and no NUL (`Inbound.TopicSurvivesIff`).
* The client takes each receive for one packet and skips its Remaining Length without using the value. What a receive
  means are its whole packets, cut by their Remaining Lengths; the code delivers exactly that iff the receive is plain
  (`Meaning.DeliveredAsMeantIff`, for all bytes): it starts with another packet and no PUBLISH follows, or it is
  one whole allowed PUBLISH whose topic survives, or it starts with a PUBLISH that is not whole or not allowed and one of
  the code's four guards gives it up. Inputs outside that: a topic length that wraps the 16-bit position
  (`Meaning.WrappingExample`, delivered though no packet), a PUBLISH with a PINGRESP behind it (`Meaning.TrailedExample`,
  the PINGRESP ends up in the payload), the beginning of a PUBLISH (`Meaning.CutExample`, delivered short), a PUBLISH
  behind a SUBACK (`Meaning.CoalescedExample`, lost).
* Over a series of receives that cuts the stream between packets, what is delivered are the PUBLISH packets of the
  stream iff every receive is plain (`Meaning.SeriesIff`, and for the client's own runs `KeepAlive.StreamServed`). The
  code keeps nothing from one receive to the next, so a PUBLISH cut by a receive is delivered short or given up
  (`Meaning.CutExample`).
* On a non-blocking socket SOCK_BUSY and an empty datagram are both 0. Counting every result reassembles the datagrams
  iff no answer was "nothing yet", counting those with bytes iff no datagram begun was empty
  (`SocketRuns.ReceiveDatagrams`).
* A configuration saved with port 0 is not loaded back (`Settings.SaveLoadsIff`). No command can set port 0
  (`Settings.StaysGood`); only the public `mutable_config()` (public/Config/LightweightConfig.h:52) lets a caller do so.
* The console line holds 31 characters, so a gong topic of 23 or 24 characters cannot be typed in although its field
  has room for it (`Console.GongTypedIff`).
* A refused address is not left alone. "ip", "sn" and "gw" overwrite the octets of the fields that a dot ended before
  reading stopped, so they change nothing iff those octets had these values already (`Settings.RefusedAddress`;
  `Settings.RefusedIpExample`: "ip 9.9" sets the first octet). A refused "br" keeps the port, and changes nothing iff
  there is no separator or reading its text as an address leaves the broker's address as it was: an address that is
  accepted is taken over even if the port behind it is refused (`Settings.RefusedBroker`; `Settings.RefusedBrokerExample`:
  "br 9.9.9.9:0" replaces the address).
* A packet is refused while the SENDOK of the one before it is down. The application subscribes twice in a row and
  ignores the results, so its second SUBSCRIBE can be lost with a slot free (`ClientRuns.SecondRefused`). Each of the
  two goes out if SENDOK is not outstanding when it is tried and the connection stays up (`SmartBell.SubscribeTopics`);
  both topics are subscribed iff both go out (`SmartBell.Reconnect`).

Where code and its documentation disagree the model follows the code: a ping is due strictly after 75% of the
keep-alive time (tests/MQTT/MinimalMQTT_test.cpp expects one at exactly 45 s), there are two subscription slots, not
one, topics are limited to 31 bytes (the header of the client speaks of 47), reconnects are 5 s apart, not 30 s, and
the configuration record has 119 bytes, not about 230.

## Model

| member | source | states |
|---|---|---|
| StreamRing.Append | src/Ethernet/W5500/w5500.c:223-238 | bytes copied behind the unacknowledged ones extend the stream by exactly those bytes and overwrite none of them, across pointer and ring wrap |
| StreamRing.Front | src/Ethernet/W5500/w5500.c:240-255 | the oldest bytes at the read pointer are the next bytes of the unbounded stream |
| StreamRing.Arrival | public/Ethernet/W5500/w5500.h:632-661 | storing arriving bytes at the write pointer extends the held part of the stream by them |
| W5500.EnvTransitive | public/Ethernet/W5500/w5500.h:595-661 | any number of acknowledgements, arrivals and status changes in a row is again one such step |
| W5500.EnvKeepsOk | public/Ethernet/W5500/w5500.h:595-661 | whatever the chip does, both ring buffers still hold the right window of their streams, and datagram frames stay whole |
| W5500.EnvGrows | public/Ethernet/W5500/w5500.h:595-661 | free size and received size only grow, bounded by the buffer size, while the driver issues no command |
| W5500.Retransmittable | src/Ethernet/W5500/w5500.c:223-238 | every byte sent but not acknowledged is still intact in the transmit buffer |
| SocketMasks.SetBits | src/Ethernet/socket.c:378 | setting a socket's bit changes that socket's flag and no other |
| SocketMasks.ClearedBits | src/Ethernet/socket.c:232-234 | clearing a socket's bit changes that socket's flag and no other |
| SocketMasks.IoModeBits | src/Ethernet/socket.c:185-187 | after socket() the socket's mode bit is the non-blocking flag, all other sockets keep theirs |
| Sockets.DoubleRead | src/Ethernet/W5500/w5500.c:188-221 | two equal torn reads of a growing register show a value it really held |
| Sockets.TornIsLow | src/Ethernet/W5500/w5500.c:192-201 | a torn read never exceeds what the register ends up holding |
| Sockets.Socket.GetFreeSize | src/Ethernet/W5500/w5500.c:188-203 | terminates; the result, unless it is 0 read during growth, is a value the register held during the call, and never exceeds the one at return |
| Sockets.Socket.GetStored | src/Ethernet/W5500/w5500.c:206-221 | same for the received size; 0 means nothing was there at the start or something has arrived since |
| Sockets.SendsAreSeparated | src/Ethernet/socket.c:327-351 | between two SEND commands there is a CLOSE or DISCON, or the consumption of the SENDOK that the first of them raised by completing; no SENDOK is up when the second is issued |
| Sockets.Socket.Close | src/Ethernet/socket.c:198-239 | ends closed, with the socket's static state cleared, from any state, having sent nothing |
| Sockets.FlagTable | src/Ethernet/socket.c:133-165 | which flags each protocol allows, by their values |
| Sockets.Socket.Open | src/Ethernet/socket.c:105-196 | error codes exactly as documented, else a new session with empty streams and cleared static state |
| Sockets.Socket.Connect | src/Ethernet/socket.c:257-295 | each refusal comes exactly under its condition and leaves the socket as it was; SOCK_OK means an established session on which nothing has been sent, SOCKERR_TIMEOUT that the chip reported one, which is consumed, SOCKERR_SOCKCLOSED that it is closed; a peer that accepts is connected to |
| Sockets.Socket.Disconnect | src/Ethernet/socket.c:297-315 | hangs up without touching what was sent or received; SOCK_OK means closed by that alone, SOCKERR_TIMEOUT that the chip reported one and the driver closed |
| Sockets.Socket.FinishEarlierSend | src/Ethernet/socket.c:325-351 | goes on only with no SEND outstanding, consuming exactly the SENDOK of the one that was; refuses only while that SENDOK is down, and exactly then if the chip stays as it is |
| Sockets.Socket.Stage | src/Ethernet/W5500/w5500.c:223-238 | the bytes waiting to be sent are exactly the caller's |
| Sockets.Socket.Send | src/Ethernet/socket.c:317-382 | n > 0: exactly the first n = min(len, buffer size) bytes are appended to the wire and one SEND is issued after the last SENDOK was consumed; otherwise nothing is sent, for the reason the code names: an earlier SENDOK down, a timeout reported, or a connection gone before the driver's own CLOSE; if the chip does nothing of its own, exactly then; all error codes |
| Sockets.Socket.LookForData | src/Ethernet/socket.c:411-431 | one round of the wait: 0 bytes only if none were there or more have come; the peer's close counts only once nothing is left to read and all that was sent is acknowledged |
| Sockets.Socket.TakeBytes | src/Ethernet/W5500/w5500.c:240-255 | the n bytes read are the next n of the inbound stream, and they are released once |
| Sockets.Socket.Recv | src/Ethernet/socket.c:385-488 | r > 0: the next r bytes of the peer's stream, all that was waiting or as many as asked for; otherwise nothing is consumed; SOCKERR_SOCKSTATUS only if just before the CLOSE the connection was torn down, or closed by the peer with nothing left to read and all sent bytes acknowledged; min(len, waiting) bytes whenever some wait and the chip does nothing of its own; all error codes |
| Sockets.UnreadIsShaped | src/Ethernet/socket.c:628-679 | the unread ring is the rest of the current datagram, then whole header+payload frames |
| Datagrams.HeaderFormat | src/Ethernet/socket.c:642-737 | the bytes of a datagram's header for each protocol |
| Sockets.Socket.DecodeHeader | src/Ethernet/socket.c:642-737 | sender and length are those of the datagram, per protocol |
| Sockets.Socket.ReadHeader | src/Ethernet/socket.c:643-737 | reading the header begins the next datagram, with its sender and length |
| Sockets.ChunkHandedOver | src/Ethernet/socket.c:678-694 | handing over n more payload bytes reassembles to the datagrams received so far |
| Sockets.Socket.ReadPayload | src/Ethernet/socket.c:678-755 | min(len, remaining) next bytes of the current datagram |
| Sockets.Socket.RecvFrom | src/Ethernet/socket.c:594-773 | the next piece of the current datagram, or of the next one with its sender; errors consume nothing, and the socket is closed by none but an impossible frame; nothing only if nothing waited; if the chip does nothing of its own, what waits is returned; pack-info is nonzero exactly when remained-size is |
| SocketRuns.TcpSession | src/Ethernet/socket.c:317-488 | any script of send and recv: the socket's record grows by one entry per call, in order, each beginning where the one before ended and meeting what the call promises; the bytes sent are the accepted prefixes and make up the wire, the bytes got are the next of the peer's stream; SENDs stay separated by SENDOKs |
| SocketRuns.RunStreams | src/Ethernet/socket.c:317-488 | for any run of calls that each keep their promise: the wire has grown by the accepted prefixes, and what the recv calls returned is the next piece of the peer's stream, without loss or repetition |
| SocketRuns.ReceiveDatagrams | src/Ethernet/socket.c:594-773 | any sequence of recvfrom with any lengths, blocking or not: the record grows by one entry per length until a frame that cannot be; the pieces handed over reassemble each datagram exactly, in order, with its sender; what the caller collects from the results does so iff no answer was "nothing yet", or, passing over zeros, iff no datagram was empty |
| SocketRuns.ProgressMeans | src/Ethernet/socket.c:634-635 | the two conditions under which a caller can tell the datagrams from its results |
| Packets.PacketRoundTrip | src/MQTT/MinimalMQTT.cpp:356-419 | an encoded packet in front of any bytes parses back to itself and leaves those bytes if sections 2.3.1, 3.3.2 and 4.7 allow it, else does not parse |
| Packets.StreamRoundTrip | src/MQTT/MinimalMQTT.cpp:333-337 | a stream of whole packets parses to exactly those packets, if each is legal, else not at all |
| Packets.WireFormat | src/MQTT/MinimalMQTT.cpp:112-231 | the very bytes of a PUBLISH, a SUBSCRIBE, PINGREQ and DISCONNECT |
| Packets.ConnectFormat | src/MQTT/MinimalMQTT.cpp:356-419 | the very bytes of a CONNECT without a login |
| Packets.LoginFormat | src/MQTT/MinimalMQTT.cpp:356-419 | the very bytes of a CONNECT with user and password |
| Encoder.PutRemaining | src/MQTT/MinimalMQTT.cpp:132-138 | the one- or two-byte length is the encoding of section 2.2.3, for all lengths below 16384 |
| Encoder.BuildConnect | src/MQTT/MinimalMQTT.cpp:356-416 | the buffer holds the CONNECT of section 3.1 with the configured id, credentials and keep-alive |
| Encoder.BuildPublish | src/MQTT/MinimalMQTT.cpp:117-150 | the buffer holds the QoS 0 PUBLISH of section 3.3 with topic and payload |
| Encoder.BuildSubscribe | src/MQTT/MinimalMQTT.cpp:184-215 | the buffer holds the SUBSCRIBE of section 3.8 with packet id and topic |
| Encoder.BuildBare | src/MQTT/MinimalMQTT.cpp:445-447 | the two bytes of PINGREQ and DISCONNECT |
| Inbound.DecodeLength | src/MQTT/MinimalMQTT.cpp:475-487 | terminates within the received bytes and finds the end and the value of the length, on any input |
| Inbound.LengthRoundTrip | src/MQTT/MinimalMQTT.cpp:475-487 | on an encoded length the decoder gives back the value and consumes exactly its bytes |
| Inbound.DecodeFrame | src/MQTT/MinimalMQTT.cpp:473-519 | any single PUBLISH of section 3.3, whatever its QoS, is delivered with its payload and its topic as a C string of at most 31 bytes |
| Inbound.TopicSurvivesIff | src/MQTT/MinimalMQTT.cpp:502-506 | of any PUBLISH of fewer than 65536 bytes the code delivers topic and payload unchanged iff the topic has at most 31 bytes and no NUL |
| Inbound.InvokedExactly | src/MQTT/MinimalMQTT.cpp:524-529 | every matching active slot is called once, in slot order, with the delivery; no other slot |
| Meaning.SameAsOutgoing | src/MQTT/MinimalMQTT.cpp:117-150 | on the packets publish() can produce the inbound parser says what the outgoing one says |
| Meaning.FrameParses | src/MQTT/MinimalMQTT.cpp:473-519 | a PUBLISH laid out as in section 3.3 is read back as itself in front of any bytes iff the standard allows it, else not at all |
| Meaning.FrontDelivered | src/MQTT/MinimalMQTT.cpp:473-519 | of a whole PUBLISH at the front of a receive the code delivers the topic, and as its payload all that follows |
| Meaning.DeliveredAsMeantIff | src/MQTT/MinimalMQTT.cpp:454-534 | for all received bytes: the code delivers the PUBLISH packets that the bytes mean by their Remaining Lengths iff the receive is plain |
| Meaning.SeriesIff | src/MQTT/MinimalMQTT.cpp:454-534 | for every series of receives that cuts a stream between packets: the deliveries are the PUBLISH packets of the stream, in order, iff every receive is plain |
| Meaning.WrappingExample | src/MQTT/MinimalMQTT.cpp:496-519 | six bytes that are no packet, delivered to the topic "a" |
| Meaning.TrailedExample | src/MQTT/MinimalMQTT.cpp:517-519 | a PUBLISH and a PINGRESP in one receive: the PINGRESP is delivered as payload |
| Meaning.CutExample | src/MQTT/MinimalMQTT.cpp:473-519 | the first six bytes of a longer PUBLISH are delivered |
| Meaning.CoalescedExample | src/MQTT/MinimalMQTT.cpp:466-473 | a SUBACK and a PUBLISH in one receive: nothing is delivered |
| Client.Delivered | src/MQTT/MinimalMQTT.cpp:454-534 | receiving a PUBLISH of any QoS calls exactly the active slots of its topic, once each, with topic and payload |
| Client.PublishDelivered | src/MQTT/MinimalMQTT.cpp:112-159 | the same for the very bytes publish() writes |
| Client.HeardAsMeant | src/MQTT/MinimalMQTT.cpp:454-534 | for every plain receive and any table the calls made are those of the PUBLISH packets in it |
| Client.NotAsMeant | src/MQTT/MinimalMQTT.cpp:466-529 | with a subscription to "a": a call without a PUBLISH packet, and a PUBLISH packet without a call |
| Session.TrafficNeedsConnack | src/MQTT/MinimalMQTT.cpp:46-110 | PUBLISH, SUBSCRIBE and PINGREQ come only after exactly one CONNECT and a received CONNACK with code 0 |
| ClientRuns.Welcomed | src/MQTT/MinimalMQTT.cpp:46-88 | with a peer that answers CONNECT with a CONNACK at once, connect ends CONNECTED iff the code is 0, else in ERROR; then the wire holds CONNECT and nothing else |
| ClientRuns.FailedConnectThenDisconnect | src/MQTT/MinimalMQTT.cpp:46-110 | after a failed connect the goodbye is tried, and is the newest call on the socket's record; the rule that CONNECT comes first is broken iff it went out, which it does not on a socket that cannot send and does on one that can and stays up |
| ClientRuns.GoodbyeFirst | src/MQTT/MinimalMQTT.cpp:268-326 | with a peer that closes right after the handshake, connect fails and disconnect leaves a lone DISCONNECT on the wire |
| ClientRuns.SecondRefused | src/MQTT/MinimalMQTT.cpp:165-231 | of two subscriptions in a row the second is refused, with a slot free, while the first is unconfirmed |
| Session.WireParses | src/MQTT/MinimalMQTT.cpp:333-337 | the bytes of a session parse to the packets sent, iff each of them is legal |
| Client.MqttClient.SocketSend | src/MQTT/MinimalMQTT.cpp:333-337 | one call of send with the whole packet, on record; all of it goes out or nothing; refused only while the SENDOK of an earlier packet is down at the call or with the connection gone, and exactly then if the chip stays as it is |
| Client.MqttClient.SocketRecv | src/MQTT/MinimalMQTT.cpp:339-349 | the next bytes of the session: none, 64, or at least all that was waiting; all of up to 64 if the chip does nothing of its own; none only if nothing waited, more came in meanwhile, or the connection was found over |
| Client.MqttClient.SocketConnect | src/MQTT/MinimalMQTT.cpp:268-326 | a new, empty session or none; earlier sessions stay on record |
| Client.MqttClient.SendConnectPacket | src/MQTT/MinimalMQTT.cpp:356-419 | on success the session is exactly the CONNECT of the configuration |
| Client.MqttClient.WaitForConnack | src/MQTT/MinimalMQTT.cpp:421-443 | the first receive of at least 4 bytes beginning with 0x20 0x02 decides, by its fourth byte; without one it fails, after at least 5000 ms; a CONNACK that is there at the call decides if neither chip nor clock moves |
| Client.MqttClient.Connect | src/MQTT/MinimalMQTT.cpp:46-88 | ends CONNECTED on a session that began with CONNECT and CONNACK, or in ERROR with no new accepted session: no session could be opened, CONNECT was tried and did not go out with the connection gone, or the wait for the CONNACK came to nothing, as the receives on record say; with a peer that answers with a CONNACK at once, CONNECTED iff its code is 0; subscriptions cleared |
| Client.MqttClient.Disconnect | src/MQTT/MinimalMQTT.cpp:90-110 | nothing if already disconnected, else DISCONNECT is tried once, on record, then the socket is closed and the slots cleared; it fails on a socket that cannot send, and goes out on one that is clear and stays up; from CONNECTED the session began with CONNECT |
| Client.MqttClient.Publish | src/MQTT/MinimalMQTT.cpp:112-159 | connected and short enough, the PUBLISH is tried once, on record, else nothing is; true: exactly it is appended to the wire; false: nothing sent, and if tried, an earlier SENDOK was down at the call or the connection is gone |
| Client.MqttClient.Subscribe | src/MQTT/MinimalMQTT.cpp:165-231 | connected, with a callback and a free slot, the SUBSCRIBE is tried once, on record, and the packet id is used up, else nothing is; true: exactly it is sent and the first free slot taken; false: table unchanged, and if tried, an earlier SENDOK was down at the call or the connection is gone |
| Client.MqttClient.FindFreeSlot | src/MQTT/MinimalMQTT.cpp:170-182 | the first inactive slot, or none if all are active |
| Client.MqttClient.SendPingreq | src/MQTT/MinimalMQTT.cpp:445-452 | the ping time is stamped exactly when a PINGREQ went out, which fails only with an earlier SENDOK down at the call or the connection gone |
| Client.MqttClient.Dispatch | src/MQTT/MinimalMQTT.cpp:462-534 | on any received bytes the calls made are those of the code's delivery; for a plain receive they are those of the PUBLISH packets in it |
| Client.MqttClient.ProcessIncoming | src/MQTT/MinimalMQTT.cpp:454-534 | hands exactly the next received bytes to that decoder; nothing only if nothing waited, more came in meanwhile, or the connection was found over; activity stamped iff something came |
| Client.MqttClient.Loop | src/MQTT/MinimalMQTT.cpp:233-264 | one turn on record: nothing unless connected; a PINGREQ goes out only if one is due, and does if no SENDOK was outstanding at the call and the connection stays up; waiting bytes are received and their callbacks made; ERROR iff the socket is down or the keep-alive is lost |
| KeepAlive.PingGap | src/MQTT/MinimalMQTT.cpp:248-257 | in every run with a chance to send at least every d ms the latest ping is never more than 750*keepalive + d ms old, across clock wrap |
| KeepAlive.KeepAliveMet | src/MQTT/MinimalMQTT.cpp:252-257 | section 3.1.2.10 is met in it when d is at most 250*keepalive ms |
| KeepAlive.SuccessivePings | src/MQTT/MinimalMQTT.cpp:252-257 | two successive pings of it are more than 750*keepalive and at most that plus d ms apart |
| KeepAlive.LostMeansIdle | src/MQTT/MinimalMQTT.cpp:249-263 | the broker is given up only after more than 1500*keepalive ms of true inactivity; within one clock turn, exactly then |
| KeepAlive.ZeroKeepAliveLostIff | src/MQTT/MinimalMQTT.cpp:259-263 | with keep-alive 0 the connection is given up iff the counter has moved since the last activity |
| KeepAlive.Serve | src/MQTT/MinimalMQTT.cpp:233-264 | up to n turns of loop() with any publishes and subscriptions between: the record grows by exactly them; the turns that find the socket up are the polls of one run, the session's PINGREQs are those they sent; the client gives up only with the socket down or after more than 1500*keepalive ms of inactivity; what they received is the next piece of the session, and the callbacks are those of its receives |
| KeepAlive.ServeInTime | src/MQTT/MinimalMQTT.cpp:233-264 | with a chance to send at least every d ms the bounds above hold for the pings of the client's own turns |
| KeepAlive.PollsAreRun | src/MQTT/MinimalMQTT.cpp:233-264 | every sequence of turns with only publishes, subscriptions and time between is a run, and its PINGREQs are those its polls sent |
| KeepAlive.StreamServed | src/MQTT/MinimalMQTT.cpp:233-264 | of a stream received cut between packets, with one table of subscriptions throughout: its PUBLISH packets are what is delivered iff every receive was plain, and then the callbacks are theirs |
| Timer.ElapsedIsLow | src/System/TimerService.cpp:49-51 | modular elapsed time never exceeds true elapsed time, and equals it within one turn |
| Timer.TimerService.On1msTick | src/System/TimerService.cpp:12-15 | the counter is true time modulo 2^32 |
| Timer.TimerService.HasElapsedMs | src/System/TimerService.cpp:49-51 | a timeout is never reported early, and never missed within one turn of the counter |
| Timer.TimerService.HasElapsedSec | src/System/TimerService.cpp:53-55 | the same in seconds |
| Chimes.PortFollowsRinging | app/smart_bell.cpp:182-199 | in every run PORTB0 is high iff chime 1 rings, PORTB1 iff chime 2 rings, and the chime code moves no other pin |
| Chimes.StartStamped | app/smart_bell.cpp:183-190 | a ring starts only in a poll outside the lockout, of an enabled chime |
| Chimes.PulseLastsLong | app/smart_bell.cpp:193-199 | every pulse lasts at least 1500 ms of true time |
| Chimes.RingStartsApart | app/smart_bell.cpp:183-199 | two ring starts of one chime are at least 1500 ms apart |
| Chimes.PulseEndsSoon | app/smart_bell.cpp:193-199 | outside the lockout a pulse is over within 1500 ms plus the longest gap between polls |
| Chimes.PulseEndsAt | app/smart_bell.cpp:193-199 | a pulse ends in a step iff that step is a poll outside the lockout at least 1500 ms after its start |
| Chimes.PressesApart | app/smart_bell.cpp:170-175 | two accepted presses of one button are more than 3000 ms of true time apart |
| Chimes.PressIsDebounced | app/smart_bell.cpp:158-175 | behind each accepted press lie more than 50 ms of polls that all read low |
| Chimes.ReleaseIsDebounced | app/smart_bell.cpp:158-179 | a press ends in a lockout or after more than 50 ms of polls that all read high |
| Chimes.DebouncedReleaseBetween | app/smart_bell.cpp:148-180 | between two accepted presses, outside lockouts, lies such a release |
| Chimes.PublishesBounded | app/smart_bell.cpp:201-209 | accepted publishes never outnumber accepted presses |
| Chimes.RingsBounded | app/smart_bell.cpp:163-190 | ring starts never outnumber accepted presses plus RING commands |
| ChimeHistory.LockoutIff | app/smart_bell.cpp:138-157 | polls do nothing exactly while the counter shows less than 3000 ms since the first poll of the run |
| ChimeHistory.AcceptsIff | app/smart_bell.cpp:158-180 | a press is accepted iff the poll is outside the lockout, reads low, the counter shows more than 50 ms since the latest change of level and more than 3000 ms since the latest accepted press (or 0), and no press is held; all told from the events |
| ChimeHistory.SinceChange | app/smart_bell.cpp:158-163 | from the latest change of level on every poll reads the same |
| ChimeHistory.RingStartsIff | app/smart_bell.cpp:182-190 | a ring starts iff such a poll accepts a press or finds a RING received since the chime's last poll, the chime is silent, and the latest ON or OFF, if any, was ON |
| ChimeHistory.PublishesIff | app/smart_bell.cpp:201-209 | a publish is accepted iff the network takes it in a poll outside the lockout after which a press is held that was not announced before |
| Messages.PacketsFit | app/smart_bell.cpp:121-136 | with a sound configuration every CONNECT, SUBSCRIBE and PUBLISH fits the 64-byte buffer |
| Messages.CommandReaches | app/smart_bell.cpp:98-107 | a PUBLISH to the base topic plus /1 or /2 invokes the handler once and addresses exactly that chime; that topic is the first 29 bytes of the base, then /1 or /2 |
| Messages.TargetIff | app/smart_bell.cpp:96-107 | a topic addresses chime 1 iff it ends in /1, chime 2 iff in /2 |
| Messages.MessageMeans | app/smart_bell.cpp:86-119 | such a PUBLISH is one command for that chime and no other: what its payload begins with (ON, OFF or RING), or none |
| ChimeHistory.MessageObeyed | app/smart_bell.cpp:86-119 | heard in a run, OFF disables that chime, which starts no ring until an ON; ON enables it until an OFF; after RING the next poll outside the lockout rings it if it is enabled and silent; the other chime and the port are as before |
| Messages.PressParsesIff | app/smart_bell.cpp:201-209 | the packet of a press is accepted by a parser of section 3.3 iff the input topic is set and has no wildcard |
| Messages.SubscriptionParsesIff | app/smart_bell.cpp:121-136 | the SUBSCRIBEs are accepted by a parser of section 3.8 iff the packet id is not 0 |
| BellRuns.EventTracked | app/smart_bell.cpp:138-210 | each event extends the run, and the PUBLISH packets on all sessions stay equal to the run's accepted publishes |
| BellRuns.PacketsBounded | app/smart_bell.cpp:163-209 | PUBLISH packets on all TCP sessions together never outnumber the accepted presses of both buttons |
| SmartBell.ChimeState.Init | app/smart_bell.cpp:77-84 | the chime as initialised from pin and clock |
| SmartBell.ChimeState.Debounce | app/smart_bell.cpp:158-180 | the debounce stage of the state machine, of which `ChimeHistory.AcceptsIff` says when it accepts a press |
| SmartBell.SmartBell.Drive | app/smart_bell.cpp:182-199 | the output stage: chime and PORTB together |
| SmartBell.SmartBell.Notify | app/smart_bell.cpp:201-209 | one PUBLISH with the input's topic iff the step is an accepted publish, else nothing sent; while connected, a wanted one is accepted unless a SENDOK was outstanding at the call or the connection goes |
| SmartBell.SmartBell.ProcessChime | app/smart_bell.cpp:138-210 | one step of the state machine, and exactly its packet on the wire; `ChimeHistory` says when that step accepts a press, rings and announces; while connected, a press to announce is announced unless a SENDOK was outstanding or the connection goes |
| SmartBell.SmartBell.OnMessage | app/smart_bell.cpp:86-119 | one command step for the addressed chime, or no change; `ChimeHistory.MessageObeyed` says what ON, OFF and RING do |
| SmartBell.SubscribeTo | app/smart_bell.cpp:130 | while connected with a free slot the subscription is tried, on record, and goes out unless a SENDOK was outstanding or the connection goes |
| SmartBell.SubscribeTopics | app/smart_bell.cpp:121-136 | on a fresh connection both topics are tried, one right after the other, under successive packet ids, each going out under the same condition; session and table are as the two outcomes say |
| SmartBell.Reconnect | app/smart_bell.cpp:345-364 | a record of the attempt: connect, with its reason when it fails, and with a broker that answers at once CONNECTED iff the code is 0; if connected, both subscriptions tried as the newest calls, session and table as their outcomes say; both topics are subscribed iff both went out |
| SmartBell.SmartBell.Retry | app/smart_bell.cpp:345-364 | an attempt with the stored configuration is made, on record, iff a broker is configured, there is no connection and the counter shows 5000 ms since the last; so periodic attempts are at least 5000 ms of true time apart; without one the client is as before |
| SmartBell.SmartBell.AfterSave | app/smart_bell.cpp:366-383 | the save flag is consumed and decides whether a broker is configured; iff it was up and names a broker, an attempt with the saved configuration is made, on record; else the client is as before; the configuration is kept |
| SmartBell.SmartBell.constructor | app/smart_bell.cpp:233-339 | start-up establishes the application's invariant with the configuration loaded; a broker is configured iff its address is not zero, and iff so, one attempt with that configuration is on record |
| SmartBell.SmartBell.Turn | app/smart_bell.cpp:341-416 | one loop(), the commands received, in order, then one poll of chime 1 and one of chime 2; the attempts to connect are exactly one if that is due after loop() and one if a configuration with a broker was saved; every layer's invariant kept; no typed byte left unread, and the settings changed by the typed commands only |
| SmartBell.SmartBell.ServeNetwork | app/smart_bell.cpp:343 | the run grows by exactly the commands in the callbacks that loop() made |
| SmartBell.SmartBell.Operate | app/smart_bell.cpp:341-416 | after any number of turns, each with one loop() and a poll of both chimes: a proper run, whose presses bound the PUBLISH packets on all sessions |
| UartRing.MaskIsModulo | src/Serial/UART.cpp:18-20 | masking the index is counting modulo 64 |
| UartRing.Receiver.OnReceive | src/Serial/UART.cpp:24-33 | the byte is stored last, or dropped exactly when 63 are stored |
| UartRing.Receiver.IsReadDataAvailable | src/Serial/UART.cpp:97 | true iff a stored byte has not been read, with interrupts between the two index reads |
| UartRing.Receiver.ReadByte | src/Serial/UART.cpp:99-107 | with interrupts between any two steps: the oldest unread byte, in order, its slot never overwritten |
| Text.PortTextIff | src/Config/LightweightConfig.cpp:80-112 | a port is recognised iff the text is a space-padded decimal in 1..65535, and is its value |
| Text.ParsePort | src/Config/LightweightConfig.cpp:80-112 | the parsing loop computes that port, or refuses |
| Text.DecimalRoundTrip | src/Config/LightweightConfig.cpp:278-295 | printed decimals have the value printed |
| Text.PrintPort | src/Config/LightweightConfig.cpp:278-295 | the two loops print the decimal of any port |
| Addresses.IpTextIff | src/Config/LightweightConfig.cpp:194-222 | an address is accepted iff the text is four dotted digit fields worth at most 255 up to the first other character, and is their values |
| Addresses.ScanIp | src/Config/LightweightConfig.cpp:194-222 | octets before the current field are kept; a refusal never changes the last octet |
| Addresses.ParseIp | src/Config/LightweightConfig.cpp:194-222 | the parsing loop, including the octets it leaves behind on failure |
| Addresses.ScanLeaves | src/Config/LightweightConfig.cpp:194-222 | what any text leaves: the address read, whatever was stored before, or on refusal the values of its dot-ended fields over what was stored |
| Addresses.ClosedFields | src/Config/LightweightConfig.cpp:194-222 | those are whole digit fields at the front of the text, each followed by its dot |
| Addresses.PrintOctet | src/Config/LightweightConfig.cpp:227-241 | one octet in decimal without leading zeros |
| Addresses.PrintIp | src/Config/LightweightConfig.cpp:225-245 | the address in dotted decimal |
| Addresses.IpRoundTrip | src/Config/LightweightConfig.cpp:194-245 | a printed address is read back, whatever was stored before and whatever text stops it |
| Addresses.BrokerRoundTrip | src/Config/LightweightConfig.cpp:344-361 | a printed endpoint, with colon or space and any padding, sets exactly that address and nonzero port |
| Addresses.RefusedEndpoint | src/Config/LightweightConfig.cpp:344-361 | a refused endpoint keeps the port, and keeps the address iff there is no separator or reading the text as an address leaves it |
| Addresses.AddressTaken | src/Config/LightweightConfig.cpp:344-361 | any address followed by a colon and what is no port is refused and taken over all the same |
| Settings.ImageRoundTrip | src/Config/LightweightConfig.cpp:64-78 | every record survives storage as bytes |
| Settings.ImageLayout | public/Config/LightweightConfig.h:17-36 | where each field lies in the stored image, and what marks it as valid |
| Settings.BlockWritten | src/Config/LightweightConfig.cpp:72-78 | a written block reads back; the legacy block and all other EEPROM bytes are as before |
| Settings.TopicWritten | src/Config/LightweightConfig.cpp:395-400 | whatever topic was there before, the text read back is the new one |
| Settings.TopicStoredIff | src/Config/LightweightConfig.cpp:389-400 | a topic is stored as given iff it has at most 24 bytes and no line end |
| Settings.IdStoredIff | src/Config/LightweightConfig.cpp:364-376 | an id is stored as given iff it has at most 15 bytes |
| Settings.EditedSound | src/Config/LightweightConfig.cpp:313-448 | no command breaks magic, nonzero port or string termination |
| Settings.StaysGood | src/Config/LightweightConfig.cpp:163-190 | over every sequence of commands, loads and saves the configuration, in memory and in EEPROM, stays sound |
| Settings.EepromFrame | src/Config/LightweightConfig.cpp:163-190 | only the primary block is ever written, and only by a save or a migrating load |
| Settings.LoadAfterSave | src/Config/LightweightConfig.cpp:163-190 | a load restores exactly what was last saved, whatever happened in between |
| Settings.SaveLoadsIff | src/Config/LightweightConfig.cpp:54-62 | what was saved is loaded back over any configuration with another port iff its port is nonzero |
| Settings.Migration | src/Config/LightweightConfig.cpp:173-180 | the legacy block is copied byte for byte and not disturbed; a second load gives the same from the primary block and writes nothing |
| Settings.LoadTwice | src/Config/LightweightConfig.cpp:163-183 | loading twice is loading once |
| Settings.BlankIsNotLoaded | src/Config/LightweightConfig.cpp:163-183 | an EEPROM never written, or all zero, leaves the configuration as it is |
| Settings.ShownBrokerRestores | src/Config/LightweightConfig.cpp:274-361 | the broker text of show, fed to br, sets that address and port and nothing else |
| Settings.ShownAddressesRestore | src/Config/LightweightConfig.cpp:266-341 | the addresses of show, fed to ip and gw, set exactly those addresses |
| Settings.RefusedAddress | src/Config/LightweightConfig.cpp:313-341 | refused ip, sn and gw commands overwrite exactly the octets of the dot-ended fields, and change nothing iff those octets had these values |
| Settings.RefusedBroker | src/Config/LightweightConfig.cpp:344-361 | a refused br command changes at most the broker address, and nothing iff there is no separator or its text read as an address is the address stored |
| Settings.RefusedIpExample | src/Config/LightweightConfig.cpp:313-321 | ip 9.9 is refused and sets the first octet to 9 |
| Settings.RefusedBrokerExample | src/Config/LightweightConfig.cpp:344-361 | br 9.9.9.9:0 is refused and sets the broker address to 9.9.9.9 |
| Settings.LightweightConfig.constructor | src/Config/LightweightConfig.cpp:114-161 | the defaults over zeroed storage are sound |
| Settings.LightweightConfig.UpdateBlock | src/Config/LightweightConfig.cpp:72-78 | exactly the block's bytes are replaced by the record's image |
| Settings.LightweightConfig.Load | src/Config/LightweightConfig.cpp:163-183 | the load step: primary, else migrate legacy, else keep |
| Settings.LightweightConfig.SaveConfig | src/Config/LightweightConfig.cpp:185-190 | the save step |
| Settings.LightweightConfig.CopyTopic | src/Config/LightweightConfig.cpp:394-400 | the copying loop stops at a line end or 24 bytes and terminates the string |
| Settings.LightweightConfig.Show | src/Config/LightweightConfig.cpp:266-311 | the whole text sent by show |
| Settings.LightweightConfig.ProcessCommand | src/Config/LightweightConfig.cpp:248-465 | the whole new configuration, flag, EEPROM and output for every command line, as `Commands` says for each keyword; false iff the command is unknown |
| Commands.SaveCommand | src/Config/LightweightConfig.cpp:436-440 | save writes the configuration, now valid, to the primary block and raises the flag; no other byte or setting changes |
| Commands.ResetCommand | src/Config/LightweightConfig.cpp:443-446 | reset brings back the factory values, written out; topics, EEPROM and flag stay |
| Commands.QuietCommands | src/Config/LightweightConfig.cpp:261-311 | show sends the text of the configuration; show, help and reboot change no setting |
| Commands.ShowHolds | src/Config/LightweightConfig.cpp:261-311 | in the text of show each of the seven labels is followed by its setting and a line end |
| Commands.AddressCommands | src/Config/LightweightConfig.cpp:313-341 | ip, sn and gw with an address set the device's address, subnet mask and gateway, and nothing else |
| Commands.BrokerCommand | src/Config/LightweightConfig.cpp:344-361 | br with an endpoint is what the client connects to, without a login and with a keep-alive of 60 s; there is a broker iff the address is not 0.0.0.0 |
| Commands.IdCommand | src/Config/LightweightConfig.cpp:364-376 | id sets the client id to the text given, cut to 15 bytes, and nothing else; without a text it changes nothing |
| Commands.InputCommand | src/Config/LightweightConfig.cpp:378-411 | input 1 pt and input 2 pt set the topic of that button to the text up to a line end, at most 24 bytes, and nothing else; without a topic they change nothing |
| Commands.OtherInput | src/Config/LightweightConfig.cpp:378-411 | any other input command changes nothing |
| Commands.GongCommand | src/Config/LightweightConfig.cpp:414-434 | gong sub sets the base topic in the same way, and nothing else |
| Commands.UnknownIff | src/Config/LightweightConfig.cpp:248-465 | a line is unknown iff behind its spaces it begins with none of the twelve keywords; it changes nothing |
| Commands.Indented | src/Config/LightweightConfig.cpp:248-260 | leading spaces make no difference |
| Commands.TypedSaveLasts | app/smart_bell.cpp:389-409 | save typed with a return, then any commands short of another save, then a load: the configuration is as it was |
| Typing.TypedIff | app/smart_bell.cpp:389-409 | a typed text, ended by CR or LF, is executed as typed iff it has 1 to 31 characters; the line is empty again |
| Typing.EraseIff | app/smart_bell.cpp:399-408 | backspace and DEL undo a character iff it had found room, and do nothing on an empty line |
| Typing.LineFits | app/smart_bell.cpp:54-55 | the line never exceeds 31 bytes and every command is a C string |
| Console.GongTypedIff | app/smart_bell.cpp:389-409 | a gong topic typed on the console is stored iff it has at most 22 characters |
| Console.BrokerTyped | app/smart_bell.cpp:389-409 | any endpoint typed as shown fits the line and is set |
| Console.Console.Key | app/smart_bell.cpp:391-408 | one character: line edited, or the line's command executed |
| Console.Console.Poll | app/smart_bell.cpp:390-409 | with bytes arriving meanwhile, exactly the commands in the bytes read are executed, and no byte is left unread |

## Left out

- Sockets.Socket: one object stands for one socket number; `SocketMasks` shows that the shared masks treat sockets independently, the two arrays are taken to have an entry for each of the chip's 8 sockets (the code declares 2, checks `sn > 2`, and MQTT uses socket 2), and `sn < 8` is assumed.
- Sockets.Socket.Open: the choice of a free local port and the multicast flags' effect on the chip are not modelled, only the flag checks.
- Sockets.Socket.Connect: the wait is taken to end, by the chip's own timeout at the latest; the same holds for every wait on the network (nothing is claimed about how long it takes).
- Sockets.Socket.LookForData: a wait for data ends at the latest when the connection does.
- Client.MqttClient.SocketConnect: the PHY link poll and the 100 ms pauses are one nondeterministic answer.
- Client.MqttClient.Publish: requires that 4 + topic + payload does not wrap 16 bits and that the topic is a C string, which the code assumes of its callers.
- Client.MqttClient.Subscribe: requires that the packet fits the 64-byte send buffer, which the code does not check; `Messages.PacketsFit` shows that the application always meets it. The same for CONNECT and `Client.MqttClient.Connect`.
- Client.MqttClient.Dispatch: memory behind the receive buffer, from which a misread topic may be copied, is arbitrary.
- Meaning.SeriesIff: speaks of streams cut between packets; the code has no means to put a packet together from two receives.
- Client.MqttClient.Loop: callbacks are recorded in `calls` and carried out by `SmartBell.SmartBell.ServeNetwork` right after `loop()`, not in its middle; the handler touches nothing the rest of `loop()` uses.
- KeepAlive.Serve: ends where the client is no longer connected; reconnecting is `SmartBell.Reconnect`.
- Chimes.PulseEndsSoon: excludes the 3 s lockout, which recurs each time the clock wraps and delays the end of a pulse.
- SmartBell.SmartBell.InitChimes: both chimes are initialised within one tick of the clock, and the second reading of the pins before the loop is the first.
- Settings.LightweightConfig.ProcessCommand: of the texts sent back only that of show is modelled; confirmations, help and the reset behind reboot are not.
- Settings.LightweightConfig: the reference handed out by `mutable_config()` is not modelled.
- Settings.Image: the record has no padding, as on the AVR; on other hosts the compiler adds some.
- A register access, a burst over SPI and a chip command are each one atomic step; chip select, delays, watchdog, GPIO and timer set-up are not modelled.
- sendto, listen, ctlsocket, setsockopt, getsockopt, interrupt masks, and branches for other chips of the family.
- The meaning of UTF-8 and of topic filters in MQTT; acknowledgements of QoS 1 and 2 and of SUBSCRIBE, which the client ignores.
- UART transmission and baud rate, log texts, echo of typed characters, `TimerService::reset`.
- src/App, src/Config/UARTCommandParser.cpp, src/Network/MQTTClient.cpp, public/Utils/CircularBuffer.h: not part of the firmware, or thin wrappers, or easier than what is modelled.
