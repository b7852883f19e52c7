/**
 * One socket block of the W5500 as the driver sees it: registers, the two ring buffers, and what
 * has crossed the network. The driver's commands are functions of the chip; everything the chip
 * may do on its own between two register accesses is the relation EnvStep.
 */
module W5500 {
  import opened Words
  import opened Datagrams
  import opened StreamRing
  import Ring

  // Teardown stands for FIN_WAIT, CLOSING, TIME_WAIT and LAST_ACK.
  datatype Status =
    | Closed | Init | SynSent | Established | CloseWait | Teardown
    | UdpOpen | IpRawOpen | MacRawOpen

  datatype Chip = Chip(
    mode: Mode,
    status: Status,
    busy: bool,            // a SEND has been issued whose SENDOK is still to come
    sendOk: bool,          // Sn_IR.SENDOK
    timeout: bool,         // Sn_IR.TIMEOUT
    txMem: seq<byte>,
    txAck: u16,            // first byte the peer has not acknowledged
    txRd: u16,             // Sn_TX_RD
    txWr: u16,             // Sn_TX_WR
    wire: seq<byte>,       // transmitted in this session, in order
    rxMem: seq<byte>,
    rxRd: u16,             // Sn_RX_RD, as the driver last wrote it
    rxTaken: u16,          // Sn_RX_RD as of the last RECV command
    rxWr: u16,             // Sn_RX_WR
    inbound: seq<byte>,    // stored in the receive buffer in this session, in order
    frames: seq<Datagram>, // the datagrams inbound consists of, outside TCP
    past: seq<seq<byte>>   // wire of every earlier session
  )

  predicate Sizes(c: Chip) {
    BufferSize(|c.txMem|) && BufferSize(|c.rxMem|)
  }

  /** Sent but not acknowledged. */
  function Unacked(c: Chip): nat {
    Dist(c.txRd, c.txAck)
  }

  /** Written by the driver, SEND not yet issued. */
  function Unsent(c: Chip): nat {
    Dist(c.txWr, c.txRd)
  }

  function Pending(c: Chip): seq<byte>
    requires Sizes(c)
  {
    Ring.Read(c.txMem, c.txRd, Unsent(c))
  }

  /** Arrived and not yet released by RECV. */
  function Stored(c: Chip): nat {
    Dist(c.rxWr, c.rxTaken)
  }

  /** Number of inbound bytes already released to the driver. */
  function Taken(c: Chip): int {
    |c.inbound| - Stored(c)
  }

  // Sn_TX_FSR: buffer size less the distance from the acknowledged to the written pointer.
  function FreeSize(c: Chip): int {
    |c.txMem| - Dist(c.txWr, c.txAck)
  }

  ghost predicate TxOk(c: Chip) {
    && Unacked(c) + Unsent(c) <= |c.txMem|
    && Holds(c.txMem, c.txAck, Unacked(c), c.wire)
  }

  ghost predicate RxOk(c: Chip) {
    Holds(c.rxMem, c.rxTaken, Stored(c), c.inbound)
  }

  ghost predicate FramesOk(c: Chip) {
    IsPacketMode(c.mode) ==> AllFit(c.mode, c.frames) && c.inbound == Frames(c.mode, c.frames)
  }

  ghost predicate Ok(c: Chip) {
    Sizes(c) && TxOk(c) && RxOk(c) && FramesOk(c)
  }

  // ---------------------------------------------------------------- what the chip does by itself

  function Rank(s: Status): nat {
    match s
    case SynSent => 4
    case Established => 3
    case CloseWait => 2
    case Teardown => 1
    case _ => 0
  }

  predicate StatusLater(s: Status, t: Status) {
    t == s || t == Closed || (Rank(t) >= 1 && Rank(s) > Rank(t))
  }

  // A socket in INIT waits for the driver's next command.
  predicate EnvStatus(s: Status, t: Status) {
    StatusLater(s, t) && (s == Init ==> t == Init)
  }

  function Arrived(c: Chip, d: Chip): seq<byte>
    requires c.inbound <= d.inbound
  {
    d.inbound[|c.inbound|..]
  }

  /** SENDOK is raised by the completion of a SEND, and by nothing else. */
  predicate LineStep(c: Chip, d: Chip) {
    && (d.busy ==> c.busy)
    && (d.sendOk <==> c.sendOk || (c.busy && !d.busy))
  }

  /** Any number of acknowledgements, arrivals, status changes and interrupts. */
  predicate EnvStep(c: Chip, d: Chip)
    requires Sizes(c)
  {
    && d == c.(status := d.status, busy := d.busy, sendOk := d.sendOk, timeout := d.timeout, txAck := d.txAck,
               rxMem := d.rxMem, rxWr := d.rxWr, inbound := d.inbound, frames := d.frames)
    && EnvStatus(c.status, d.status)
    && LineStep(c, d)
    && (c.timeout ==> d.timeout)
    && Unacked(d) <= Unacked(c)
    && c.inbound <= d.inbound
    && Stored(c) + |Arrived(c, d)| <= |c.rxMem|
    && d.rxMem == Ring.Write(c.rxMem, c.rxWr, Arrived(c, d))
    && d.rxWr == Advance(c.rxWr, |Arrived(c, d)|)
    && (Arrived(c, d) != [] ==> c.status != Init && c.status != Closed)
    && c.frames <= d.frames
    && (IsPacketMode(c.mode) ==>
          && AllFit(c.mode, d.frames[|c.frames|..])
          && Arrived(c, d) == Frames(c.mode, d.frames[|c.frames|..]))
  }

  /** How the network behaves. All theorems are about Any; the others fix one of the things the chip may do,
      to exhibit particular runs: nothing at all; a peer that accepts and then closes at once; or one that
      accepts and answers the first bytes it gets with `answer`. */
  datatype Mood = Any | Quiet | Brisk | Answering(answer: seq<byte>)

  /** The peer accepts connections. */
  predicate Welcoming(m: Mood) {
    m.Brisk? || m.Answering?
  }

  /** The peer has got something and has not answered yet. */
  predicate AnswerDue(answer: seq<byte>, c: Chip) {
    && c.mode == Tcp && c.status == Established && c.wire != [] && c.inbound == []
    && 0 < |answer| <= |c.rxMem|
  }

  function Predicted(m: Mood, c: Chip): Chip {
    match m
    case Brisk =>
      if c.status == SynSent then c.(status := Established)
      else if c.status == Established then c.(status := CloseWait)
      else c
    case Answering(answer) =>
      if c.status == SynSent then c.(status := Established)
      else if AnswerDue(answer, c) then
        c.(rxMem := Ring.Write(c.rxMem, c.rxWr, answer), rxWr := Advance(c.rxWr, |answer|), inbound := answer)
      else c
    case _ => c
  }

  /** Nothing will change until the driver's next command. */
  predicate Calm(m: Mood, c: Chip) {
    m != Any && Predicted(m, c) == c
  }

  /** What holds between any two moments of one session: the streams only grow. */
  predicate Later(c: Chip, d: Chip) {
    && d.mode == c.mode
    && |d.txMem| == |c.txMem|
    && |d.rxMem| == |c.rxMem|
    && c.wire <= d.wire
    && c.inbound <= d.inbound
    && c.frames <= d.frames
    && d.past == c.past
    && StatusLater(c.status, d.status)
  }

  /** A moment later, the driver having done nothing. */
  predicate Still(c: Chip, d: Chip) {
    && Later(c, d)
    && d.txMem == c.txMem && d.txRd == c.txRd && d.txWr == c.txWr && d.wire == c.wire
    && d.rxRd == c.rxRd && d.rxTaken == c.rxTaken
    && Unsent(d) == Unsent(c) && Taken(d) == Taken(c)
    && 0 <= FreeSize(c) <= FreeSize(d) <= |d.txMem|
    && Stored(c) <= Stored(d) <= |d.rxMem| == |c.rxMem|
    && LineStep(c, d)
    && (c.timeout ==> d.timeout)
    && (c.status == Init || c.status == Closed ==> d.inbound == c.inbound && d.status == c.status)
    && (d.status == Init ==> c.status == Init)
  }

  /** The three-way handshake is over, or was never needed. */
  predicate Met(s: Status) {
    s != Init && s != SynSent
  }

  lemma StillMeans(c: Chip, d: Chip)
    requires Still(c, d)
    ensures Later(c, d) && d.wire == c.wire && Taken(d) == Taken(c) && Unsent(d) == Unsent(c)
    ensures FreeSize(c) <= FreeSize(d) <= |d.txMem| && 0 <= Stored(c) <= Stored(d) <= |c.rxMem|
    ensures d.rxRd == c.rxRd && d.rxTaken == c.rxTaken
    ensures Met(c.status) ==> Met(d.status)
    ensures c.status == Closed ==> d.status == Closed
    ensures d.status == Init ==> c.status == Init && d.inbound == c.inbound
    ensures d.mode == c.mode && |d.txMem| == |c.txMem| && |d.rxMem| == |c.rxMem|
    ensures c.status != d.status ==> c.status != Closed
    ensures LineStep(c, d) && (c.timeout ==> d.timeout)
  {
  }

  lemma LaterMode(c: Chip, d: Chip)
    requires Later(c, d)
    ensures d.mode == c.mode && |d.txMem| == |c.txMem| && |d.rxMem| == |c.rxMem|
    ensures c.wire <= d.wire && c.inbound <= d.inbound && d.past == c.past && c.frames <= d.frames
    ensures StatusLater(c.status, d.status)
  {
  }

  lemma LaterAgain(c: Chip, d: Chip, e: Chip)
    requires Later(c, d) && Later(d, e)
    ensures Later(c, e)
  {
  }

  lemma StillAgain(c: Chip, d: Chip, e: Chip)
    requires Still(c, d) && Still(d, e)
    ensures Still(c, e)
  {
  }

  lemma EnvIsStill(c: Chip, d: Chip)
    requires Ok(c) && EnvStep(c, d)
    ensures Ok(d) && Still(c, d)
  {
    EnvKeepsOk(c, d);
    EnvGrows(c, d);
    assert d.inbound == c.inbound + Arrived(c, d);
  }

  lemma WriteNothing(mem: seq<byte>, start: nat)
    requires |mem| > 0
    ensures Ring.Write(mem, start, []) == mem
  {
  }

  lemma EnvReflexive(c: Chip)
    requires Ok(c)
    ensures EnvStep(c, c)
  {
    WriteNothing(c.rxMem, c.rxWr);
    assert Arrived(c, c) == [];
    assert c.frames[|c.frames|..] == [];
  }

  /** A mood is one of the things the chip may do. */
  lemma PredictedStep(m: Mood, c: Chip)
    requires Ok(c)
    ensures EnvStep(c, Predicted(m, c))
  {
    hide EnvStep, Ok, Advance;
    if m.Answering? && AnswerDue(m.answer, c) {
      AnswerStep(c, m.answer);
    } else {
      StatusStep(c, Predicted(m, c).status);
    }
  }

  lemma StatusStep(c: Chip, s: Status)
    requires Ok(c) && (s == c.status || (c.status == SynSent && s == Established) || (c.status == Established && s == CloseWait))
    ensures EnvStep(c, c.(status := s))
  {
    hide TxOk, RxOk, FramesOk, Frames, Ring.Write, Dist;
    WriteNothing(c.rxMem, c.rxWr);
    EnvReflexive(c);
    assert Arrived(c, c.(status := s)) == [];
    assert c.frames[|c.frames|..] == [];
  }

  lemma AnswerStep(c: Chip, answer: seq<byte>)
    requires Ok(c) && AnswerDue(answer, c)
    ensures EnvStep(c, c.(rxMem := Ring.Write(c.rxMem, c.rxWr, answer), rxWr := Advance(c.rxWr, |answer|), inbound := answer))
  {
    hide TxOk, RxOk, FramesOk, Frames, Ring.Write, Dist, Advance;
    var d := c.(rxMem := Ring.Write(c.rxMem, c.rxWr, answer), rxWr := Advance(c.rxWr, |answer|), inbound := answer);
    EmptyWindow(c);
    assert Arrived(c, d) == answer;
    assert c.frames[|c.frames|..] == [];
  }

  lemma StoredGrows(c: Chip, d: Chip)
    requires Sizes(c) && EnvStep(c, d)
    ensures Stored(d) == Stored(c) + |Arrived(c, d)|
  {
    DistAdvance(c.rxWr, c.rxTaken, |Arrived(c, d)|);
  }

  lemma RxTransitive(c: Chip, d: Chip, e: Chip)
    requires Sizes(c) && EnvStep(c, d) && EnvStep(d, e)
    ensures Arrived(c, e) == Arrived(c, d) + Arrived(d, e)
    ensures Stored(c) + |Arrived(c, e)| <= |c.rxMem|
    ensures e.rxMem == Ring.Write(c.rxMem, c.rxWr, Arrived(c, e))
    ensures e.rxWr == Advance(c.rxWr, |Arrived(c, e)|)
  {
    hide Ring.Write;
    var x, y := Arrived(c, d), Arrived(d, e);
    StoredGrows(c, d);
    AdvanceTwice(c.rxWr, |x|, |y|);
    WriteTwice(c.rxMem, c.rxWr, x, y);
  }

  lemma StatusTransitive(c: Chip, d: Chip, e: Chip)
    requires EnvStatus(c.status, d.status) && EnvStatus(d.status, e.status) && LineStep(c, d) && LineStep(d, e)
    ensures EnvStatus(c.status, e.status) && LineStep(c, e)
  {
  }

  lemma EnvTransitive(c: Chip, d: Chip, e: Chip)
    requires Sizes(c) && EnvStep(c, d) && EnvStep(d, e)
    ensures EnvStep(c, e)
  {
    hide Ring.Write, Advance, Dist, Frames, LineStep;
    RxTransitive(c, d, e);
    StatusTransitive(c, d, e);
    if IsPacketMode(c.mode) {
      var a, b := d.frames[|c.frames|..], e.frames[|d.frames|..];
      assert e.frames[|c.frames|..] == a + b;
      FramesConcat(c.mode, a, b);
    }
  }

  lemma EnvKeepsTx(c: Chip, d: Chip)
    requires Ok(c) && EnvStep(c, d)
    ensures TxOk(d)
  {
    hide RxOk, FramesOk, Holds, Advance, Dist;
    var acked := Unacked(c) - Unacked(d);
    Closer(c.txRd, c.txAck, d.txAck);
    Drop(c.txMem, c.txAck, d.txAck, Unacked(c), acked, c.wire);
  }

  lemma EnvKeepsRx(c: Chip, d: Chip)
    requires Ok(c) && EnvStep(c, d)
    ensures RxOk(d)
  {
    hide TxOk, FramesOk, Holds, Advance, Dist;
    Arrival(c.rxMem, c.rxTaken, c.rxWr, c.inbound, Arrived(c, d));
    assert d.inbound == c.inbound + Arrived(c, d);
  }

  /** Whatever the chip does, it keeps its buffers consistent with the two streams. */
  lemma EnvKeepsOk(c: Chip, d: Chip)
    requires Ok(c) && EnvStep(c, d)
    ensures Ok(d)
  {
    hide TxOk, RxOk, FramesOk, Ring.Write, Advance, Dist, Frames, AllFit;
    EnvKeepsTx(c, d);
    EnvKeepsRx(c, d);
    EnvKeepsFrames(c, d);
  }

  lemma EnvKeepsFrames(c: Chip, d: Chip)
    requires Ok(c) && EnvStep(c, d)
    ensures FramesOk(d)
  {
    hide TxOk, RxOk, Ring.Write, Advance, Dist, Frames;
    if IsPacketMode(c.mode) {
      var newer := d.frames[|c.frames|..];
      assert d.frames == c.frames + newer;
      FramesConcat(c.mode, c.frames, newer);
      assert d.inbound == c.inbound + Arrived(c, d);
    }
  }

  /** The two size registers only grow while the driver issues no command. */
  lemma EnvGrows(c: Chip, d: Chip)
    requires Ok(c) && EnvStep(c, d)
    ensures 0 <= FreeSize(c) <= FreeSize(d) <= |c.txMem|
    ensures 0 <= Stored(c) <= Stored(d) <= |c.rxMem|
    ensures Taken(c) == Taken(d)
    ensures |d.txMem| == |c.txMem| && |d.rxMem| == |c.rxMem|
  {
    StoredGrows(c, d);
    DistSum(c.txAck, c.txRd, c.txWr);
    DistSum(d.txAck, d.txRd, d.txWr);
  }

  /** Every byte the peer may still ask for again is intact in the transmit buffer. */
  lemma Retransmittable(c: Chip, skip: nat, n: nat)
    requires Ok(c) && skip + n <= Unacked(c)
    ensures var lost := |c.wire| - Unacked(c) + skip;
            Ring.Read(c.txMem, Advance(c.txAck, skip), n) == c.wire[lost..lost + n]
  {
    var from := Advance(c.txAck, skip);
    Drop(c.txMem, c.txAck, from, Unacked(c), skip, c.wire);
    Front(c.txMem, from, Unacked(c) - skip, n, c.wire);
  }

  // ------------------------------------------------------------------------- driver's accesses

  function WriteBuf(c: Chip, ptr: u16, data: seq<byte>): Chip
    requires Sizes(c) && |data| <= |c.txMem|
  {
    c.(txMem := Ring.Write(c.txMem, ptr, data))
  }

  function ReadBuf(c: Chip, ptr: u16, n: nat): seq<byte>
    requires Sizes(c)
  {
    Ring.Read(c.rxMem, ptr, n)
  }

  function SendCommand(c: Chip): Chip
    requires Sizes(c)
  {
    c.(wire := c.wire + Pending(c), txRd := c.txWr, busy := true)
  }

  function RecvCommand(c: Chip): Chip {
    c.(rxTaken := c.rxRd)
  }

  function CloseCommand(c: Chip): Chip {
    c.(status := Closed, busy := false)
  }

  function OpenStatus(m: Mode): Status {
    match m
    case Tcp => Init
    case Udp => UdpOpen
    case IpRaw => IpRawOpen
    case MacRaw => MacRawOpen
    case NoMode => Closed
  }

  // OPEN and CONNECT set the pointers; their new values tx and rx are up to the chip.
  function OpenCommand(c: Chip, m: Mode, tx: u16, rx: u16): Chip {
    c.(mode := m, status := OpenStatus(m), txAck := tx, txRd := tx, txWr := tx, wire := [],
       rxRd := rx, rxTaken := rx, rxWr := rx, inbound := [], frames := [], past := c.past + [c.wire])
  }

  function ConnectCommand(c: Chip, tx: u16, rx: u16): Chip {
    c.(status := SynSent, txAck := tx, txRd := tx, txWr := tx, rxRd := rx, rxTaken := rx, rxWr := rx)
  }

  function DisconCommand(c: Chip): Chip {
    c.(status := if Rank(c.status) >= 1 then Teardown else Closed)
  }

  lemma FreeIsRest(c: Chip)
    requires Ok(c)
    ensures FreeSize(c) == |c.txMem| - Unacked(c) - Unsent(c)
  {
    DistSum(c.txAck, c.txRd, c.txWr);
  }

  /** Writing into free space leaves the unacknowledged bytes alone. */
  lemma WriteBufKeeps(c: Chip, data: seq<byte>)
    requires Ok(c) && Unsent(c) == 0 && |data| <= FreeSize(c)
    ensures var d := WriteBuf(c, c.txWr, data);
            && Ok(d) && Ring.Read(d.txMem, d.txWr, |data|) == data
            && Unsent(d) == 0 && FreeSize(d) == FreeSize(c) && Later(c, d) && Taken(d) == Taken(c)
  {
    FreeIsRest(c);
    AdvanceBy(c.txWr, c.txAck);
    WriteBehind(c.txMem, c.txAck, c.txWr, Unacked(c), c.wire, data);
  }

  lemma AdvanceKeeps(c: Chip, data: seq<byte>)
    requires Ok(c) && Unsent(c) == 0 && |data| <= FreeSize(c)
    requires Ring.Read(c.txMem, c.txWr, |data|) == data
    ensures var d := c.(txWr := Advance(c.txWr, |data|));
            && Ok(d) && Pending(d) == data
            && Later(c, d) && Taken(d) == Taken(c)
  {
    hide Holds, Frames, AllFit, Ring.Read, Dist, Advance;
    var d := c.(txWr := Advance(c.txWr, |data|));
    FreeIsRest(c);
    SamePlace(c.txWr, c.txRd);
    SameSpot(c.txWr);
    DistAdvance(c.txWr, c.txWr, |data|);
    assert Unsent(d) == |data|;
  }

  lemma SamePlace(p: u16, q: u16)
    requires Dist(p, q) == 0
    ensures p == q
  {
  }

  lemma SendKeeps(c: Chip)
    requires Ok(c)
    ensures var d := SendCommand(c);
            Ok(d) && Unsent(d) == 0 && Later(c, d) && Taken(d) == Taken(c)
  {
    DistSum(c.txAck, c.txRd, c.txWr);
    AdvanceBy(c.txRd, c.txAck);
    Extend(c.txMem, c.txAck, c.txRd, Unacked(c), Unsent(c), c.wire);
  }

  /** Reading n stored bytes at the released pointer yields the next n bytes of the stream. */
  lemma ReadBufIsNext(c: Chip, n: nat)
    requires Ok(c) && n <= Stored(c)
    ensures 0 <= Taken(c) && Taken(c) + n <= |c.inbound|
    ensures ReadBuf(c, c.rxTaken, n) == c.inbound[Taken(c)..Taken(c) + n]
  {
    Front(c.rxMem, c.rxTaken, Stored(c), n, c.inbound);
  }

  lemma ReleasedPointer(c: Chip, n: nat)
    requires n <= Stored(c) && c.rxRd == Advance(c.rxTaken, n)
    ensures Stored(RecvCommand(c)) == Stored(c) - n
  {
  }

  lemma RecvKeeps(c: Chip, n: nat)
    requires Ok(c) && n <= Stored(c) && c.rxRd == Advance(c.rxTaken, n)
    ensures var d := RecvCommand(c);
            && Ok(d) && d.rxRd == d.rxTaken && Stored(d) == Stored(c) - n && Taken(d) == Taken(c) + n
            && Unsent(d) == Unsent(c) && Later(c, d)
  {
    ReleasedPointer(c, n);
    Drop(c.rxMem, c.rxTaken, c.rxRd, Stored(c), n, c.inbound);
  }

  /** Writing Sn_RX_RD has no effect before the RECV command. */
  lemma PointerWritten(c: Chip, p: u16)
    requires Ok(c)
    ensures var d := c.(rxRd := p);
            && Ok(d) && Stored(d) == Stored(c) && Taken(d) == Taken(c)
            && Unsent(d) == Unsent(c) && Later(c, d)
  {
  }

  lemma OpenKeeps(c: Chip, m: Mode, tx: u16, rx: u16)
    requires Ok(c)
    ensures Ok(OpenCommand(c, m, tx, rx))
  {
    HoldsNothing(c.txMem, tx, []);
    HoldsNothing(c.rxMem, rx, []);
    assert Framed(m, []) == [];
  }

  /** Status and interrupt bits do not bear on the buffers. */
  lemma Relabelled(c: Chip, d: Chip)
    requires Ok(c)
    requires d == c.(status := d.status, busy := d.busy, sendOk := d.sendOk, timeout := d.timeout)
    ensures Ok(d)
    ensures Taken(d) == Taken(c) && Stored(d) == Stored(c) && FreeSize(d) == FreeSize(c)
    ensures Unsent(d) == Unsent(c)
    ensures d.status == c.status && LineStep(c, d) && (c.timeout ==> d.timeout) ==> Still(c, d)
  {
    FreeIsRest(c);
  }

  lemma ConnectKeeps(c: Chip, tx: u16, rx: u16)
    requires Ok(c) && c.mode == Tcp && c.inbound == [] && c.wire == []
    ensures var d := ConnectCommand(c, tx, rx);
            Ok(d) && Taken(c) == Taken(d) == 0 && Stored(d) == Unsent(d) == 0
            && FreeSize(d) == |d.txMem| && |d.txMem| == |c.txMem|
  {
    hide Holds, Ring.Read, Dist, Advance, BufferSize, FramesOk;
    var d := ConnectCommand(c, tx, rx);
    EmptyWindow(c);
    SameSpot(tx);
    SameSpot(rx);
    HoldsNothing(c.txMem, tx, []);
    HoldsNothing(c.rxMem, rx, []);
    assert d.wire == [] && d.inbound == [] && d.txMem == c.txMem && d.rxMem == c.rxMem;
    NoFrames(d);
  }

  lemma SameSpot(p: u16)
    ensures Dist(p, p) == 0
  {
  }

  /** With nothing received, nothing is stored. */
  lemma EmptyWindow(c: Chip)
    requires Ok(c) && c.inbound == []
    ensures Stored(c) == 0
  {
  }

  lemma NoFrames(c: Chip)
    requires c.mode == Tcp
    ensures FramesOk(c)
  {
  }

  function PowerOn(txSize: nat, rxSize: nat): Chip {
    Chip(NoMode, Closed, false, false, false, seq(txSize, _ => 0), 0, 0, 0, [],
         seq(rxSize, _ => 0), 0, 0, 0, [], [], [])
  }

  lemma PowerOnOk(txSize: nat, rxSize: nat)
    requires BufferSize(txSize) && BufferSize(rxSize)
    ensures Ok(PowerOn(txSize, rxSize))
  {
    HoldsNothing(PowerOn(txSize, rxSize).txMem, 0, []);
    HoldsNothing(PowerOn(txSize, rxSize).rxMem, 0, []);
  }
}
