/** The socket driver (socket.c) with its chip accesses (w5500.c), for one socket number. */
module Sockets {
  import opened Words
  import opened Datagrams
  import opened StreamRing
  import opened W5500
  import W = W5500
  import Ring

  const SOCK_OK := 1
  const SOCK_BUSY := 0
  const SOCKERR_SOCKINIT := -3
  const SOCKERR_SOCKCLOSED := -4
  const SOCKERR_SOCKMODE := -5
  const SOCKERR_SOCKFLAG := -6
  const SOCKERR_SOCKSTATUS := -7
  const SOCKERR_PORTZERO := -11
  const SOCKERR_IPINVALID := -12
  const SOCKERR_TIMEOUT := -13
  const SOCKERR_DATALEN := -14
  const SOCKFATAL_PACKLEN := -1001

  const PACK_FIRST: byte := 0x80
  const PACK_REMAINED: byte := 0x01
  const PACK_COMPLETED: byte := 0x00

  const MACRAW_MAX := 1514

  // ------------------------------------------------------------------ the SEND / SENDOK handshake

  /** `clear`: when the SEND was issued no SENDOK was up and none was to come. `done`: when the SENDOK
      was consumed, the SEND issued last had completed. `at`: the chip when CLOSE or DISCON was issued. */
  datatype LineEvent = SendIssued(clear: bool) | SendOkConsumed(done: bool) | Hangup(at: Chip)

  /** A SEND has been issued whose SENDOK the driver has not consumed, on a socket not yet closed
      or disconnected since. */
  function Outstanding(log: seq<LineEvent>): bool {
    log != [] && log[|log| - 1].SendIssued?
  }

  /** What may follow a log: a SEND while none is outstanding, with SENDOK down, or the SENDOK of the
      one that is outstanding, which has completed. */
  predicate MayFollow(log: seq<LineEvent>, e: LineEvent) {
    match e
    case SendIssued(clear) => clear && !Outstanding(log)
    case SendOkConsumed(done) => done && Outstanding(log)
    case Hangup(_) => true
  }

  predicate Disciplined(log: seq<LineEvent>) {
    forall i | 0 <= i < |log| :: MayFollow(log[..i], log[i])
  }

  lemma DisciplinedSnoc(log: seq<LineEvent>, e: LineEvent)
    requires Disciplined(log) && MayFollow(log, e)
    ensures Disciplined(log + [e])
  {
    var more := log + [e];
    forall i | 0 <= i < |more|
      ensures MayFollow(more[..i], more[i])
    {
      if i < |log| {
        assert more[..i] == log[..i];
      } else {
        assert more[..i] == log;
      }
    }
  }

  /** Between two SENDs there is a hang-up, or the consumption of the SENDOK that the first of them
      raised on completing; and no SENDOK is up when the second is issued. */
  lemma SendsAreSeparated(log: seq<LineEvent>, i: nat, j: nat)
    requires Disciplined(log) && i < j < |log|
    requires log[i].SendIssued? && log[j].SendIssued?
    ensures log[j].clear
    ensures exists k :: i < k < j && (log[k].Hangup? || (log[k] == SendOkConsumed(true) && log[k - 1].SendIssued?))
  {
    assert MayFollow(log[..j], log[j]) && MayFollow(log[..j - 1], log[j - 1]);
    assert !log[j - 1].Hangup? ==> log[j - 1] == SendOkConsumed(true) && log[..j - 1][j - 2] == log[j - 2];
  }

  // ------------------------------------------------------------------------------ torn registers

  /** Two equal two-byte reads of a growing register, byte by byte at four moments, show the value
      it had when the first low byte was read. */
  lemma DoubleRead(r1: u16, r2: u16, r3: u16, r4: u16)
    requires r1 <= r2 <= r3 <= r4
    requires Join(Hi(r1), Lo(r2)) == Join(Hi(r3), Lo(r4))
    ensures Join(Hi(r1), Lo(r2)) == r2
  {
    assert Hi(r1) == Hi(r3) && Lo(r2) == Lo(r4);
    assert Hi(r1) <= Hi(r2) <= Hi(r3);
  }

  /** A torn read never exceeds what the register ends up holding, and is exact if it held still. */
  lemma TornIsLow(r1: u16, r2: u16)
    requires r1 <= r2
    ensures Join(Hi(r1), Lo(r2)) <= r2
    ensures r1 == r2 ==> Join(Hi(r1), Lo(r2)) == r2
  {
    assert Hi(r1) <= Hi(r2);
  }

  // ------------------------------------------------------------------- datagrams handed to callers

  /** The datagrams received so far when `remained` bytes of the newest are still in the buffer. */
  function Received(frames: seq<Datagram>, begun: nat, remained: nat): seq<Datagram>
    requires begun <= |frames|
    requires remained > 0 ==> begun > 0 && remained <= |frames[begun - 1].data|
  {
    if remained == 0 then frames[..begun]
    else
      var d := frames[begun - 1];
      frames[..begun - 1] + [d.(data := d.data[..|d.data| - remained])]
  }

  /** The unread part of the receive buffer: the rest of the current datagram, then whole frames. */
  ghost predicate Positioned(c: Chip, begun: nat, remained: nat)
    requires Ok(c) && IsPacketMode(c.mode)
  {
    && begun <= |c.frames|
    && (remained > 0 ==> begun > 0 && remained <= |c.frames[begun - 1].data|)
    && AllFit(c.mode, c.frames[..begun])
    && Taken(c) == |Frames(c.mode, c.frames[..begun])| - remained
  }

  ghost predicate RxShape(c: Chip, begun: nat, remained: nat, chunks: seq<Chunk>)
    requires Ok(c) && IsPacketMode(c.mode)
  {
    && Positioned(c, begun, remained)
    && Reassemble(chunks) == Received(c.frames, begun, remained)
  }

  /** In that position the bytes to come are those of the current datagram, then of the next. */
  lemma UnreadIsShaped(c: Chip, begun: nat, remained: nat)
    requires Ok(c) && IsPacketMode(c.mode) && Positioned(c, begun, remained)
    ensures AllFit(c.mode, c.frames[begun..])
    ensures var rest := if remained == 0 then [] else
                          var d := c.frames[begun - 1]; d.data[|d.data| - remained..];
            Ring.Read(c.rxMem, c.rxTaken, Stored(c)) == rest + Frames(c.mode, c.frames[begun..])
  {
    hide TxOk, Frames, Stored;
    var m, fs := c.mode, c.frames;
    var done, next := fs[..begun], fs[begun..];
    assert fs == done + next;
    FramesConcat(m, done, next);
    var at := Taken(c);
    assert c.inbound[at..] == c.inbound[at..|Frames(m, done)|] + Frames(m, next);
    if remained > 0 {
      FrameAt(m, fs, begun - 1);
      assert fs[..begun - 1 + 1] == done;
      var d := fs[begun - 1];
      assert c.inbound[at..|Frames(m, done)|] == d.data[|d.data| - remained..];
    }
  }

  /** With bytes stored and no datagram begun, a whole frame is waiting. */
  lemma FrameWaiting(c: Chip, begun: nat)
    requires Ok(c) && IsPacketMode(c.mode) && Positioned(c, begun, 0) && Stored(c) > 0
    ensures begun < |c.frames| && Fits(c.mode, c.frames[begun])
    ensures var d, h := c.frames[begun], HeaderSize(c.mode);
            && 0 <= Taken(c) && Taken(c) + h + |d.data| <= |c.inbound|
            && h + |d.data| <= Stored(c)
            && c.inbound[Taken(c)..Taken(c) + h] == Header(c.mode, d)
            && AllFit(c.mode, c.frames[..begun + 1])
            && |Frames(c.mode, c.frames[..begun + 1])| == Taken(c) + h + |d.data|
  {
    hide TxOk, Frames, Header;
    assert c.frames == c.frames[..|c.frames|];
    if begun == |c.frames| {
      assert false;
    }
    FrameAt(c.mode, c.frames, begun);
  }

  lemma HeaderStored(c: Chip, begun: nat)
    requires Ok(c) && IsPacketMode(c.mode) && Positioned(c, begun, 0) && Stored(c) > 0
    ensures HeaderSize(c.mode) <= Stored(c)
  {
    FrameWaiting(c, begun);
  }

  /** The header bytes taken off the ring are those of the next datagram. */
  lemma HeaderRead(c: Chip, d: Chip, begun: nat, head: seq<byte>)
    requires Ok(c) && IsPacketMode(c.mode) && Positioned(c, begun, 0) && Stored(c) > 0
    requires Ok(d) && Later(c, d) && Taken(d) == Taken(c) + HeaderSize(c.mode)
    requires 0 <= Taken(c) && Taken(d) <= |d.inbound| && head == d.inbound[Taken(c)..Taken(d)]
    ensures d.mode == c.mode && begun < |d.frames| && Fits(d.mode, d.frames[begun])
    ensures head == Header(d.mode, d.frames[begun])
    ensures Positioned(d, begun + 1, |d.frames[begun].data|)
  {
    hide Ok, Stored, Frames, Header, Fits, Positioned, Taken;
    FrameWaiting(c, begun);
    HeaderTaken(c, d, begun);
    assert d.inbound[Taken(c)..Taken(d)] == c.inbound[Taken(c)..Taken(d)];
  }

  /** With a whole frame waiting the header can be fetched. */
  lemma NextIsFrame(c: Chip, sending: bool, remained: u16, packInfo: byte, log: seq<LineEvent>, begun: nat, chunks: seq<Chunk>)
    requires Consistent(c, sending, remained, packInfo, log, begun, chunks)
    requires IsPacketMode(c.mode) && remained == 0 && Stored(c) > 0 && c.status != Closed
    ensures Ok(c) && Unsent(c) == 0 && c.rxRd == c.rxTaken && Paired(c, sending)
    ensures Disciplined(log) && (sending <==> Outstanding(log))
    ensures Positioned(c, begun, 0) && HeaderSize(c.mode) <= Stored(c) && HeaderSize(c.mode) <= 8
  {
    hide Ok, Unsent, Stored, Positioned, RxShape, Paired, Disciplined, Outstanding, ShapedAt;
    ShapeGives(c, begun, 0, chunks);
    HeaderStored(c, begun);
  }

  lemma HeaderFetched(a: Chip, c: Chip, begun: nat, sending: bool, head: seq<byte>)
    requires Ok(a) && IsPacketMode(a.mode) && Positioned(a, begun, 0) && Stored(a) > 0 && Paired(a, sending)
    requires Ok(c) && Later(a, c) && LineStep(a, c) && Taken(c) == Taken(a) + HeaderSize(a.mode)
    requires 0 <= Taken(a) && Taken(c) <= |c.inbound| && head == c.inbound[Taken(a)..Taken(c)]
    ensures Paired(c, sending) && c.mode == a.mode && begun < |c.frames| && Fits(c.mode, c.frames[begun])
    ensures head == Header(c.mode, c.frames[begun])
    ensures Positioned(c, begun + 1, |c.frames[begun].data|)
  {
    hide Ok, Stored, Frames, Header, Fits, Positioned, Taken, Later, LineStep, Paired;
    PairedLater(a, c, sending);
    HeaderRead(a, c, begun, head);
  }

  lemma HeaderTaken(c: Chip, d: Chip, begun: nat)
    requires Ok(c) && IsPacketMode(c.mode) && Positioned(c, begun, 0) && Stored(c) > 0
    requires Ok(d) && Later(c, d) && Taken(d) == Taken(c) + HeaderSize(c.mode)
    ensures begun < |c.frames| <= |d.frames| && d.frames[begun] == c.frames[begun]
    ensures Positioned(d, begun + 1, |d.frames[begun].data|)
  {
    hide TxOk, RxOk, FramesOk, Stored, Frames, Header;
    FrameWaiting(c, begun);
    assert d.frames[..begun + 1] == c.frames[..begun + 1];
  }

  /** The next n bytes belong to the current datagram. */
  lemma PayloadNext(c: Chip, begun: nat, remained: nat, n: nat)
    requires Ok(c) && IsPacketMode(c.mode) && Positioned(c, begun, remained) && begun > 0
    requires n <= remained <= |c.frames[begun - 1].data|
    ensures var p := c.frames[begun - 1].data;
            var from := |p| - remained;
            && begun <= |c.frames|
            && 0 <= Taken(c) && Taken(c) + n <= |c.inbound| && n <= Stored(c)
            && c.inbound[Taken(c)..Taken(c) + n] == p[from..from + n]
  {
    hide TxOk, Stored, Frames, Header;
    FrameAt(c.mode, c.frames, begun - 1);
    assert c.frames[..begun - 1 + 1] == c.frames[..begun];
    var p := c.frames[begun - 1].data;
    var end := |Frames(c.mode, c.frames[..begun])|;
    assert Taken(c) == end - remained && end <= |c.inbound|;
    Inner(c.inbound, end - |p|, p, |p| - remained, n);
  }

  lemma Inner(s: seq<byte>, start: nat, p: seq<byte>, from: nat, n: nat)
    requires start + |p| <= |s| && s[start..start + |p|] == p && from + n <= |p|
    ensures s[start + from..start + from + n] == p[from..from + n]
  {
    var x, y := s[start + from..start + from + n], p[from..from + n];
    forall i | 0 <= i < n
      ensures x[i] == y[i]
    {
      assert s[start..start + |p|][from + i] == s[start + from + i];
    }
  }

  lemma PayloadTaken(c: Chip, d: Chip, begun: nat, remained: nat, n: nat)
    requires Ok(c) && IsPacketMode(c.mode) && Positioned(c, begun, remained) && begun > 0
    requires n <= remained <= |c.frames[begun - 1].data|
    requires Ok(d) && Later(c, d) && Taken(d) == Taken(c) + n
    ensures Positioned(d, begun, remained - n)
    ensures d.frames[begun - 1] == c.frames[begun - 1]
  {
    hide TxOk, RxOk, FramesOk, Stored, Frames, Header;
    assert d.frames[..begun] == c.frames[..begun];
  }

  /** Handing over a piece brings the caller's view up to date. */
  lemma ChunkHandedOver(m: Mode, frames: seq<Datagram>, begun: nat, before: nat, n: nat, chunks: seq<Chunk>, c: Chunk)
    requires begun > 0 && begun <= |frames|
    requires n <= before <= |frames[begun - 1].data|
    requires var d := frames[begun - 1];
             var from := |d.data| - before;
             && c.data == d.data[from..from + n]
             && (c.start ==> from == 0 && c.ip == d.ip && c.port == d.port && Reassemble(chunks) == frames[..begun - 1])
             && (!c.start ==> before > 0 && Reassemble(chunks) == Received(frames, begun, before))
    ensures Reassemble(chunks + [c]) == Received(frames, begun, before - n)
  {
    hide Reassemble;
    var d := frames[begun - 1];
    ReassembleSnoc(chunks, c);
    assert frames[..begun] == frames[..begun - 1] + [d];
    var left := before - n;
    var upto := d.(data := d.data[..|d.data| - left]);
    assert left == 0 ==> upto == d;
    assert Received(frames, begun, left) == frames[..begun - 1] + [upto];
    if !c.start {
      var ds := Reassemble(chunks);
      assert ds == frames[..begun - 1] + [d.(data := d.data[..|d.data| - before])];
      assert ds[..|ds| - 1] == frames[..begun - 1];
      assert d.data[..|d.data| - before] + c.data == upto.data;
    }
  }

  /** The shape above, unless the socket has been closed with nothing left to read. */
  ghost predicate ShapedAt(c: Chip, begun: nat, remained: nat, chunks: seq<Chunk>)
    requires Ok(c)
  {
    IsPacketMode(c.mode) ==>
      && (c.status == Closed || c.status == OpenStatus(c.mode))
      && ((c.status == Closed && remained == 0) || RxShape(c, begun, remained, chunks))
  }

  lemma ShapeKept(c: Chip, d: Chip, begun: nat, remained: nat, chunks: seq<Chunk>)
    requires Ok(c) && Ok(d) && Later(c, d) && Taken(d) == Taken(c)
    requires ShapedAt(c, begun, remained, chunks)
    ensures ShapedAt(d, begun, remained, chunks)
  {
    hide TxOk, RxOk, FramesOk, Stored, Frames, Reassemble;
    if IsPacketMode(c.mode) && !(d.status == Closed && remained == 0) {
      assert d.frames[..begun] == c.frames[..begun];
      if remained > 0 {
        assert d.frames[..begun - 1] == c.frames[..begun - 1];
      }
    }
  }

  /** The sending flag and the chip's SENDOK: while a SEND is unconfirmed it is either still under way or
      its SENDOK is up; otherwise no SENDOK is up or to come, on a socket not hung up. */
  predicate Paired(c: Chip, sending: bool) {
    if sending then c.busy <==> !c.sendOk
    else (!c.busy && !c.sendOk) || c.status == Teardown || c.status == Closed
  }

  lemma PairedLater(c: Chip, d: Chip, sending: bool)
    requires Paired(c, sending) && LineStep(c, d) && Later(c, d)
    ensures Paired(d, sending)
  {
  }

  lemma LineClear(c: Chip, sending: bool)
    requires Paired(c, sending) && !sending && Live(c.status)
    ensures !c.busy && !c.sendOk
  {
  }

  /** The driver's statics agree with the chip and with what has happened so far. */
  ghost predicate Consistent(chip: Chip, sending: bool, remained: u16, packInfo: byte,
                             log: seq<LineEvent>, begun: nat, chunks: seq<Chunk>) {
    && Ok(chip)
    && Unsent(chip) == 0
    && chip.rxRd == chip.rxTaken
    && (chip.status == Init ==> chip.wire == [] && chip.inbound == [] && !sending)
    && ShapedAt(chip, begun, remained, chunks)
    && Disciplined(log)
    && (sending <==> Outstanding(log))
    && Paired(chip, sending)
    && (packInfo != 0 <==> remained != 0)
  }

  // ------------------------------------------------------------------------------------ arguments

  /** The flag checks of socket() for a protocol; bits as in Sn_MR, bit 0 is SF_IO_NONBLOCK. */
  predicate FlagsOk(protocol: Mode, flag: bv8) {
    && flag & 0x04 == 0
    && (protocol == Tcp && flag != 0 ==> flag & 0x21 != 0)
    && (protocol == Udp && flag & 0x20 != 0 ==> flag & 0x80 != 0)
    && (protocol == Udp && flag & 0x10 != 0 ==> flag & 0x80 != 0)
  }

  /** Which flag bytes each protocol takes: 0x01 and 0x20 are SF_IO_NONBLOCK and, in TCP, SF_TCP_NODELAY; in UDP
      SF_IGMP_VER2 (0x20) and SF_UNI_BLOCK (0x10) go with SF_MULTI_ENABLE (0x80) only. */
  lemma FlagTable(flag: bv8)
    ensures FlagsOk(Tcp, 0) && FlagsOk(Udp, 0) && FlagsOk(IpRaw, 0) && FlagsOk(MacRaw, 0)
    ensures FlagsOk(Tcp, 0x01) && FlagsOk(Tcp, 0x20) && FlagsOk(Tcp, 0x21) && !FlagsOk(Tcp, 0x80) && !FlagsOk(Tcp, 0x10)
    ensures FlagsOk(Udp, 0x01) && FlagsOk(Udp, 0x80) && FlagsOk(Udp, 0xB0) && !FlagsOk(Udp, 0x20) && !FlagsOk(Udp, 0x10)
    ensures FlagsOk(MacRaw, 0x80) && FlagsOk(IpRaw, 0x20)
    ensures !FlagsOk(Tcp, flag | 0x04) && !FlagsOk(Udp, flag | 0x04) && !FlagsOk(MacRaw, flag | 0x04)
  {
    assert (flag | 0x04) & 0x04 == 0x04;
  }

  predicate Live(s: Status) {
    s == Established || s == CloseWait
  }

  // ---------------------------------------------------------------------------- what one call does

  /** A socket at one moment, as far as the calls below go. */
  datatype Snap = Snap(chip: Chip, sending: bool, nonblocking: bool, begun: nat, remained: nat, chunks: seq<Chunk>,
                       log: seq<LineEvent>)

  datatype Request = Sending(data: seq<byte>) | Receiving(len: u16) | ReceivingFrom(len: u16)

  /** A call with its result, the bytes it handed over, and the socket before and after it. */
  datatype Io = Io(request: Request, result: int, bytes: seq<byte>, before: Snap, after: Snap)

  predicate Blocked(s: Snap) {
    s.sending && !s.chip.sendOk
  }

  /** What the consumption of an earlier SENDOK leaves in the log. */
  function Consumed(a: Snap): seq<LineEvent> {
    if a.sending then [SendOkConsumed(true)] else []
  }

  /** The log has grown by a CLOSE. */
  predicate ClosedAfter(log: seq<LineEvent>, more: seq<LineEvent>) {
    |more| == |log| + 1 && more[..|log|] == log && more[|log|].Hangup?
  }

  lemma ClosedBy(log: seq<LineEvent>, at: Chip)
    ensures ClosedAfter(log, log + [Hangup(at)])
  {
  }

  /** send(): all of the data, up to the buffer size, or nothing. On a blocking socket it is refused only
      while the SENDOK of an earlier send is down, or with the connection gone; as long as the chip does
      nothing of its own, that is exact. */
  predicate SendMeets(m: Mood, a: Snap, data: seq<byte>, r: int, b: Snap) {
    && Later(a.chip, b.chip) && Taken(b.chip) == Taken(a.chip)
    && r <= |data| && b.chip.wire == a.chip.wire + (if r > 0 then data[..r] else [])
    && (b.nonblocking ==> a.nonblocking)
    && (a.chip.mode != Tcp <==> r == SOCKERR_SOCKMODE)
    && (a.chip.mode == Tcp ==> (data == [] <==> r == SOCKERR_DATALEN))
    && (r > 0 ==> r == Min(|data|, |b.chip.txMem|) && (Live(a.chip.status) || a.chip.status == SynSent) && b.sending)
    && (r > 0 ==> b.log == a.log + Consumed(a) + [SendIssued(true)])
    && (r <= 0 ==> SendStops(a, r, b))
    && (a.chip.mode == Tcp && data != [] && !Live(a.chip.status) && a.chip.status != SynSent ==> r == SOCKERR_SOCKSTATUS)
    && (Calm(m, a.chip) && Blocked(a) ==> r <= 0 && (!a.chip.timeout ==> b.chip == a.chip))
    && (Calm(m, a.chip) && !Blocked(a) && a.chip.mode == Tcp && Live(a.chip.status) && 0 < |data| <= FreeSize(a.chip) ==>
          && r > 0 && b.chip.status == a.chip.status && b.chip.timeout == a.chip.timeout && Blocked(b)
          && (!a.sending ==> AnsweredBy(m, a.chip, b.chip)))
  }

  /** Why send() sent nothing. A connection is closed by the driver only if it is gone already, or the chip has
      reported a timeout while the SENDOK of an earlier send was down. */
  predicate SendStops(a: Snap, r: int, b: Snap) {
    && SendCode(r)
    && (r == SOCKERR_SOCKMODE || r == SOCKERR_DATALEN ==> b == a)
    && (r == SOCK_BUSY ==>
          || (Blocked(a) && b.sending && b.log == a.log)
          || (a.nonblocking && (b.log == a.log || b.log == a.log + Consumed(a))))
    && (r == SOCKERR_TIMEOUT ==>
          Blocked(a) && b.chip.status == Closed && ClosedAfter(a.log, b.log) && b.log[|a.log|].at.timeout)
    && (r == SOCKERR_SOCKSTATUS ==>
          && !Live(b.chip.status)
          && (b.log == a.log || (ClosedAfter(a.log + Consumed(a), b.log) && !Live(b.log[|b.log| - 1].at.status))))
  }

  /** The first bytes of a session have been answered. */
  predicate AnsweredBy(m: Mood, c: Chip, d: Chip) {
    m.Answering? && 0 < |m.answer| <= |c.rxMem| && c.status == Established && c.wire == [] && c.inbound == [] ==>
      d.inbound == m.answer && Calm(m, d)
  }

  /** recv(): the next bytes of the peer's stream, all that waited or as many as asked for; nothing only
      from a non-blocking socket with nothing waiting, or from one whose connection is gone. As long as the chip
      does nothing of its own, what waits is returned. */
  predicate RecvMeets(m: Mood, a: Snap, len: u16, r: int, bytes: seq<byte>, b: Snap) {
    && Later(a.chip, b.chip) && b.chip.wire == a.chip.wire
    && (b.nonblocking ==> a.nonblocking) && (Blocked(b) ==> Blocked(a))
    && (a.chip.mode != Tcp <==> r == SOCKERR_SOCKMODE)
    && (a.chip.mode == Tcp ==> (len == 0 <==> r == SOCKERR_DATALEN))
    && |bytes| == (if r > 0 then r else 0) && Taken(b.chip) == Taken(a.chip) + |bytes|
    && 0 <= Taken(a.chip) && Taken(b.chip) <= |b.chip.inbound|
    && bytes == b.chip.inbound[Taken(a.chip)..Taken(b.chip)]
    && (r > 0 ==> r <= len && (r == len || r >= Stored(a.chip)))
    && (r <= 0 ==> r in {SOCK_BUSY, SOCKERR_SOCKMODE, SOCKERR_DATALEN, SOCKERR_SOCKSTATUS})
    && (r == SOCK_BUSY ==> a.nonblocking && NothingWaited(a.chip, b.chip))
    && (if r == SOCKERR_SOCKSTATUS then
          b.chip.status == Closed && ClosedAfter(a.log, b.log) && Deserted(a.chip, b.log[|a.log|].at)
        else b.log == a.log)
    && (Calm(m, a.chip) && a.chip.mode == Tcp && Live(a.chip.status) && len > 0 && Stored(a.chip) > 0 ==>
          r == Min(len, Stored(a.chip)))
  }

  /** The connection once made is over: torn down, or closed by the peer with nothing left to read, as far as
      looking tells, and everything sent acknowledged. */
  predicate Deserted(c: Chip, at: Chip) {
    Met(c.status) ==>
      || !Live(at.status)
      || (at.status == CloseWait && NothingWaited(c, at) && FreeSize(at) == |at.txMem|)
  }

  /** Nothing was in the buffer, or something came in while its size was read. */
  predicate NothingWaited(c: Chip, d: Chip) {
    Stored(c) == 0 || Stored(c) < Stored(d)
  }

  /** recvfrom(): the next piece of the current datagram, or of the next one; nothing only from a
      non-blocking socket with nothing waiting, or from one that is closed. The driver closes it only for a frame
      that cannot be; as long as the chip does nothing of its own, what waits is returned. */
  predicate RecvFromMeets(m: Mood, a: Snap, len: u16, r: int, bytes: seq<byte>, b: Snap) {
    && Later(a.chip, b.chip) && b.chip.wire == a.chip.wire
    && (b.nonblocking ==> a.nonblocking)
    && (!IsPacketMode(a.chip.mode) <==> r == SOCKERR_SOCKMODE)
    && (IsPacketMode(a.chip.mode) ==> (len == 0 <==> r == SOCKERR_DATALEN))
    && |bytes| == (if r > 0 then r else 0)
    && (r < 0 ==> RecvFromError(r) && b.chunks == a.chunks)
    && (r < 0 && r != SOCKFATAL_PACKLEN ==> b.begun == a.begun && b.remained == a.remained)
    && (r == SOCKERR_SOCKCLOSED ==> a.remained == 0 && b.chip.status == Closed)
    && (if r == SOCKFATAL_PACKLEN then ClosedAfter(a.log, b.log) else b.log == a.log)
    && (r == SOCKFATAL_PACKLEN ==>
          && b.chip.mode == MacRaw && a.remained == 0 && b.chip.status == Closed
          && a.begun < |b.chip.frames| && |b.chip.frames[a.begun].data| > MACRAW_MAX)
    && (r >= 0 ==> IdleAnswer(a, r, b) || PieceAnswer(a, len, r, bytes, b))
    && (DatagramWaits(m, a) && len > 0 ==> r == SOCKFATAL_PACKLEN || PieceAnswer(a, len, r, bytes, b))
  }

  /** There is something to return, and the chip does nothing of its own. */
  predicate DatagramWaits(m: Mood, a: Snap) {
    Calm(m, a.chip) && IsPacketMode(a.chip.mode) && (a.remained > 0 || (a.chip.status != Closed && Stored(a.chip) > 0))
  }

  predicate IdleAnswer(a: Snap, r: int, b: Snap) {
    && r == SOCK_BUSY && a.nonblocking && NothingWaited(a.chip, b.chip)
    && b.chunks == a.chunks && b.begun == a.begun && b.remained == a.remained == 0
  }

  predicate PieceAnswer(a: Snap, len: u16, r: int, bytes: seq<byte>, b: Snap) {
    && IsPacketMode(b.chip.mode)
    && b.begun == a.begun + (if a.remained == 0 then 1 else 0) && 0 < b.begun <= |b.chip.frames| && r <= len
    && (var d := b.chip.frames[b.begun - 1];
        var due := if a.remained == 0 then |d.data| else a.remained;
        && r == Min(len, due) && b.remained == due - r
        && b.chunks == a.chunks + [Piece(a.remained == 0, d, bytes)])
  }

  predicate IoMeets(m: Mood, io: Io) {
    match io.request
    case Sending(data) => io.bytes == [] && SendMeets(m, io.before, data, io.result, io.after)
    case Receiving(len) => RecvMeets(m, io.before, len, io.result, io.bytes, io.after)
    case ReceivingFrom(len) => RecvFromMeets(m, io.before, len, io.result, io.bytes, io.after)
  }

  /** A call refused for its arguments. */
  lemma SendRefused(m: Mood, a: Snap, data: seq<byte>, r: int)
    requires if a.chip.mode != Tcp then r == SOCKERR_SOCKMODE else data == [] && r == SOCKERR_DATALEN
    ensures SendMeets(m, a, data, r, a)
  {
  }

  /** The moment between two snapshots, the driver having done nothing. */
  predicate Waited(m: Mood, a: Snap, b: Snap) {
    && b == a.(chip := b.chip) && Still(a.chip, b.chip)
    && (m != Any ==> b.chip == Predicted(m, a.chip))
  }

  lemma SendDown(m: Mood, a: Snap, b: Snap, data: seq<byte>)
    requires Waited(m, a, b) && a.chip.mode == Tcp && data != [] && !Live(b.chip.status)
    ensures SendMeets(m, a, data, SOCKERR_SOCKSTATUS, b)
  {
    hide FreeSize, Taken, Unsent, Stored, Live;
    StillMeans(a.chip, b.chip);
    assert Calm(m, a.chip) ==> b == a;
  }

  /** What a call promises from the moment its status was read, it promises from the start. */
  lemma SendMeetsStill(m: Mood, a: Snap, b: Snap, data: seq<byte>, r: int, c: Snap)
    requires Waited(m, a, b) && Live(b.chip.status) && SendMeets(m, b, data, r, c) && a.chip.mode == Tcp && data != []
    ensures SendMeets(m, a, data, r, c)
  {
    hide FreeSize, Taken, Unsent, Stored, Min;
    StillMeans(a.chip, b.chip);
    LaterMode(a.chip, b.chip);
    LaterAgain(a.chip, b.chip, c.chip);
    assert Calm(m, a.chip) ==> b == a;
  }

  lemma RecvRefused(m: Mood, a: Snap, len: u16, r: int)
    requires if a.chip.mode != Tcp then r == SOCKERR_SOCKMODE else len == 0 && r == SOCKERR_DATALEN
    requires 0 <= Taken(a.chip) <= |a.chip.inbound|
    ensures RecvMeets(m, a, len, r, [], a)
  {
    hide Taken;
    LaterItself(a.chip);
  }

  /** Nothing came in time, or the connection is gone. */
  lemma RecvNothing(m: Mood, a: Snap, len: u16, r: int, b: Snap)
    requires a.chip.mode == Tcp && len > 0 && 0 <= Taken(a.chip) <= |a.chip.inbound|
    requires Later(a.chip, b.chip) && b.chip.wire == a.chip.wire && Taken(b.chip) == Taken(a.chip)
    requires (b.nonblocking ==> a.nonblocking) && (Blocked(b) ==> Blocked(a))
    requires !(Calm(m, a.chip) && Live(a.chip.status) && Stored(a.chip) > 0)
    requires if r == SOCK_BUSY then a.nonblocking && NothingWaited(a.chip, b.chip) && b.log == a.log
             else r == SOCKERR_SOCKSTATUS && b.chip.status == Closed && ClosedAfter(a.log, b.log)
                  && Deserted(a.chip, b.log[|a.log|].at)
    ensures RecvMeets(m, a, len, r, [], b)
  {
    hide Taken, Stored, Later, Calm, Blocked, NothingWaited, Deserted;
    LaterMode(a.chip, b.chip);
  }

  lemma RecvSome(m: Mood, a: Snap, len: u16, r: int, bytes: seq<byte>, b: Snap)
    requires a.chip.mode == Tcp && 0 < r <= len && |bytes| == r && 0 <= Taken(a.chip)
    requires Later(a.chip, b.chip) && b.chip.wire == a.chip.wire && Taken(b.chip) == Taken(a.chip) + r <= |b.chip.inbound|
    requires (b.nonblocking ==> a.nonblocking) && (Blocked(b) ==> Blocked(a)) && b.log == a.log
    requires bytes == b.chip.inbound[Taken(a.chip)..Taken(b.chip)]
    requires r == len || r >= Stored(a.chip)
    requires Calm(m, a.chip) && Live(a.chip.status) && Stored(a.chip) > 0 ==> r == Min(len, Stored(a.chip))
    ensures RecvMeets(m, a, len, r, bytes, b)
  {
    hide Taken, Stored, Later, Calm, Blocked;
  }

  /** What the handling of an earlier SEND leaves when send() goes on, */
  predicate Freed(m: Mood, a: Snap, b: Snap) {
    && Later(a.chip, b.chip) && b.chip.wire == a.chip.wire && Taken(b.chip) == Taken(a.chip) && Met(b.chip.status)
    && !b.sending && b.log == a.log + Consumed(a) && (b.nonblocking ==> a.nonblocking)
    && (!a.sending ==> b.chip == a.chip)
    && (Calm(m, a.chip) ==>
          && !Blocked(a) && Calm(m, b.chip) && b.chip.status == a.chip.status && FreeSize(b.chip) == FreeSize(a.chip)
          && b.chip.timeout == a.chip.timeout)
  }

  /** and when it does not. */
  predicate HeldUp(m: Mood, a: Snap, r: int, b: Snap) {
    && Later(a.chip, b.chip) && b.chip.wire == a.chip.wire && Taken(b.chip) == Taken(a.chip)
    && Blocked(a) && (b.nonblocking ==> a.nonblocking)
    && (r == SOCK_BUSY || r == SOCKERR_TIMEOUT)
    && (if r == SOCK_BUSY then b.sending && b.log == a.log
        else b.chip.status == Closed && ClosedAfter(a.log, b.log) && b.log[|a.log|].at.timeout)
    && (Calm(m, a.chip) && !a.chip.timeout ==> b.chip == a.chip)
  }

  /** The rest of send(), for data that fits the buffer. */
  predicate Roomed(m: Mood, a: Snap, data: seq<byte>, r: int, b: Snap) {
    && Later(a.chip, b.chip) && Taken(b.chip) == Taken(a.chip) && (b.nonblocking ==> a.nonblocking)
    && b.chip.wire == a.chip.wire + (if r > 0 then data else [])
    && (r > 0 ==> r == |data| && b.sending && b.log == a.log + [SendIssued(true)])
    && (r <= 0 ==>
          && (r == SOCK_BUSY || r == SOCKERR_SOCKSTATUS)
          && (if r == SOCK_BUSY then a.nonblocking && b.log == a.log
              else b.chip.status == Closed && ClosedAfter(a.log, b.log) && !Live(b.log[|a.log|].at.status)))
    && (Calm(m, a.chip) && Live(a.chip.status) && |data| <= FreeSize(a.chip) ==>
          && r == |data| && b.chip.status == a.chip.status && b.chip.timeout == a.chip.timeout && Blocked(b)
          && AnsweredBy(m, a.chip, b.chip))
  }

  lemma SendHeldUp(m: Mood, a: Snap, data: seq<byte>, r: int, b: Snap)
    requires HeldUp(m, a, r, b) && a.chip.mode == Tcp && Live(a.chip.status) && data != []
    ensures SendMeets(m, a, data, r, b)
  {
    hide Taken, FreeSize, Later, Calm;
    assert a.chip.wire + [] == a.chip.wire;
  }

  lemma SendInTwo(m: Mood, a: Snap, b: Snap, data: seq<byte>, r: int, c: Snap)
    requires Freed(m, a, b) && a.chip.mode == Tcp && Live(a.chip.status) && 0 < |data|
    requires |c.chip.txMem| == |a.chip.txMem| >= 1024 && FreeSize(a.chip) <= |a.chip.txMem|
    requires Roomed(m, b, data[..Min(|data|, |a.chip.txMem|)], r, c)
    ensures SendMeets(m, a, data, r, c)
  {
    hide Taken, FreeSize, Later, Calm, AnsweredBy, Blocked;
    LaterAgain(a.chip, b.chip, c.chip);
    BlockedMeans(a);
  }

  lemma BlockedMeans(a: Snap)
    ensures Blocked(a) ==> a.sending
  {
  }

  lemma RecvFromRefused(m: Mood, a: Snap, len: u16, r: int)
    requires if !IsPacketMode(a.chip.mode) then r == SOCKERR_SOCKMODE else len == 0 && r == SOCKERR_DATALEN
    ensures RecvFromMeets(m, a, len, r, [], a)
  {
  }

  /** No datagram to take a piece from. */
  lemma RecvFromNothing(m: Mood, a: Snap, len: u16, r: int, b: Snap)
    requires IsPacketMode(a.chip.mode) && len > 0
    requires Later(a.chip, b.chip) && b.chip.wire == a.chip.wire && b.chunks == a.chunks && a.remained == 0
    requires b.nonblocking ==> a.nonblocking
    requires r == SOCK_BUSY || r == SOCKERR_SOCKCLOSED || r == SOCKFATAL_PACKLEN
    requires r != SOCKFATAL_PACKLEN ==> b.begun == a.begun && b.remained == 0
    requires r == SOCK_BUSY ==> a.nonblocking && NothingWaited(a.chip, b.chip)
    requires r == SOCKERR_SOCKCLOSED ==> b.chip.status == Closed
    requires if r == SOCKFATAL_PACKLEN then ClosedAfter(a.log, b.log) else b.log == a.log
    requires r == SOCKFATAL_PACKLEN ==>
               && b.chip.mode == MacRaw && b.chip.status == Closed
               && a.begun < |b.chip.frames| && |b.chip.frames[a.begun].data| > MACRAW_MAX
    requires DatagramWaits(m, a) ==> r == SOCKFATAL_PACKLEN
    ensures RecvFromMeets(m, a, len, r, [], b)
  {
    hide Later, NothingWaited, DatagramWaits;
  }

  lemma RecvFromPiece(m: Mood, a: Snap, len: u16, r: int, bytes: seq<byte>, b: Snap)
    requires IsPacketMode(a.chip.mode) && len > 0 && IsPacketMode(b.chip.mode)
    requires Later(a.chip, b.chip) && b.chip.wire == a.chip.wire && (b.nonblocking ==> a.nonblocking) && b.log == a.log
    requires b.begun == a.begun + (if a.remained == 0 then 1 else 0) && 0 < b.begun <= |b.chip.frames|
    requires |bytes| == r <= len
    requires var d := b.chip.frames[b.begun - 1];
             var due := if a.remained == 0 then |d.data| else a.remained;
             && r == Min(len, due) && b.remained == due - r
             && b.chunks == a.chunks + [Piece(a.remained == 0, d, bytes)]
    ensures RecvFromMeets(m, a, len, r, bytes, b) && b.chunks != a.chunks
  {
    hide Later, Piece;
  }

  class Network {
    var mood: Mood
  }

  class Socket {
    const sn: nat
    const net: Network
    const sourceIp: u32   // SIPR
    var chip: Chip
    var nonblocking: bool // bit sn of sock_io_mode
    var sending: bool     // bit sn of sock_is_sending
    var remained: u16     // sock_remained_size[sn]
    var packInfo: byte    // sock_pack_info[sn]
    ghost var log: seq<LineEvent>
    ghost var begun: nat           // frames whose header has been read
    ghost var chunks: seq<Chunk>   // what recvfrom has returned in this session
    ghost var ios: seq<Io>         // every call of send, recv and recvfrom, in order

    ghost predicate Valid()
      reads this
    {
      Consistent(chip, sending, remained, packInfo, log, begun, chunks)
    }

    /** What the transmit side and the statics need, whatever recvfrom is in the middle of. */
    ghost predicate Sound()
      reads this
    {
      && Ok(chip)
      && Unsent(chip) == 0
      && chip.rxRd == chip.rxTaken
      && Disciplined(log)
      && (sending <==> Outstanding(log))
      && Paired(chip, sending)
    }

    ghost function Now(): Snap
      reads this
    {
      Snap(chip, sending, nonblocking, begun, remained, chunks, log)
    }

    /** A SEND has been issued and its SENDOK is not up. */
    predicate Unconfirmed()
      reads this
    {
      sending && !chip.sendOk
    }

    constructor (sn: nat, sourceIp: u32, txSize: nat, rxSize: nat, net: Network)
      requires sn < 8 && BufferSize(txSize) && BufferSize(rxSize)
      ensures Valid()
      ensures this.sn == sn && this.sourceIp == sourceIp && this.net == net
      ensures chip.mode == NoMode && chip.status == Closed && chip.wire == [] && chip.inbound == []
      ensures chip.past == [] && |chip.txMem| == txSize && |chip.rxMem| == rxSize
    {
      this.sn, this.sourceIp, this.net := sn, sourceIp, net;
      hide Ok, BufferSize;
      PowerOnOk(txSize, rxSize);
      chip := PowerOn(txSize, rxSize);
      nonblocking, sending, remained, packInfo := false, false, 0, 0;
      log, begun, chunks, ios := [], 0, [], [];
    }

    // ------------------------------------------------------------------------- register accesses

    /** Time passes between two register accesses. */
    method Tick()
      requires Ok(chip)
      modifies this`chip
      ensures Ok(chip) && EnvStep(old(chip), chip) && Still(old(chip), chip)
      ensures net.mood != Any ==> chip == Predicted(net.mood, old(chip))
    {
      var next: Chip := *;
      PredictedStep(net.mood, chip);
      if net.mood != Any || !EnvStep(chip, next) {
        next := Predicted(net.mood, chip);
      }
      EnvIsStill(chip, next);
      chip := next;
    }

    method ReadStatus() returns (s: Status)
      requires Ok(chip)
      modifies this`chip
      ensures Ok(chip) && Still(old(chip), chip) && s == chip.status
      ensures net.mood != Any ==> chip == Predicted(net.mood, old(chip))
    {
      Tick();
      s := chip.status;
    }

    method ReadInterrupts() returns (sendOk: bool, timeout: bool)
      requires Ok(chip)
      modifies this`chip
      ensures Ok(chip) && Still(old(chip), chip)
      ensures sendOk == chip.sendOk && timeout == chip.timeout
      ensures net.mood != Any ==> chip == Predicted(net.mood, old(chip))
    {
      Tick();
      sendOk, timeout := chip.sendOk, chip.timeout;
    }

    /** High byte, then low byte of the free-size register; r is the register at the first read. */
    method ReadFreeSize(ghost before: Chip) returns (v: u16, ghost r: u16)
      requires Ok(chip) && Sizes(before) && EnvStep(before, chip)
      modifies this`chip
      ensures Ok(chip) && EnvStep(before, chip) && Still(old(chip), chip)
      ensures FreeSize(old(chip)) <= r <= FreeSize(chip)
      ensures Calm(net.mood, old(chip)) ==> chip == old(chip)
      ensures v == Join(Hi(r), Lo(FreeSize(chip)))
    {
      hide EnvStep, TxOk, RxOk, FramesOk, Dist;
      Tick();
      EnvTransitive(before, old(chip), chip);
      var hi := Hi(FreeSize(chip));
      r := FreeSize(chip);
      ghost var mid := chip;
      Tick();
      EnvTransitive(before, mid, chip);
      v := Join(hi, Lo(FreeSize(chip)));
    }

    method ReadStored(ghost before: Chip) returns (v: u16, ghost r: u16)
      requires Ok(chip) && Sizes(before) && EnvStep(before, chip)
      modifies this`chip
      ensures Ok(chip) && EnvStep(before, chip) && Still(old(chip), chip)
      ensures Stored(old(chip)) <= r <= Stored(chip)
      ensures Calm(net.mood, old(chip)) ==> chip == old(chip)
      ensures v == Join(Hi(r), Lo(Stored(chip)))
    {
      hide EnvStep, TxOk, RxOk, FramesOk, Dist;
      Tick();
      EnvTransitive(before, old(chip), chip);
      var hi := Hi(Stored(chip));
      r := Stored(chip);
      ghost var mid := chip;
      Tick();
      EnvTransitive(before, mid, chip);
      v := Join(hi, Lo(Stored(chip)));
    }

    // getSn_TX_FSR
    method GetFreeSize() returns (val: u16, ghost held: Chip)
      requires Ok(chip)
      modifies this`chip
      ensures Ok(chip) && EnvStep(old(chip), chip) && Still(old(chip), chip)
      ensures Sizes(held) && EnvStep(old(chip), held) && EnvStep(held, chip)
      ensures val == FreeSize(held) || (val == 0 && FreeSize(old(chip)) < FreeSize(chip))
      ensures val <= FreeSize(chip)
      ensures val > 0 ==> FreeSize(old(chip)) <= val
      ensures Calm(net.mood, old(chip)) ==> chip == old(chip) && val == FreeSize(chip)
    {
      hide EnvStep, TxOk, RxOk, FramesOk, FreeSize, Join, Hi, Lo, Dist, Stored, Later;
      ghost var before := chip;
      EnvReflexive(chip);
      EnvIsStill(chip, chip);
      val := 0;
      while true
        invariant Ok(chip) && EnvStep(before, chip) && Still(before, chip)
        invariant 0 <= val <= FreeSize(chip)
        invariant Calm(net.mood, before) ==> chip == before
        decreases |before.txMem| - FreeSize(chip)
      {
        var val1, r1 := ReadFreeSize(before);
        held := chip;
        EnvReflexive(held);
        TornIsLow(r1, FreeSize(held));
        if val1 != 0 {
          ghost var r3;
          val, r3 := ReadFreeSize(held);
          EnvTransitive(before, held, chip);
          TornIsLow(r3, FreeSize(chip));
          if val == val1 {
            DoubleRead(r1, FreeSize(held), r3, FreeSize(chip));
          }
        }
        EnvIsStill(before, held);
        EnvIsStill(before, chip);
        if val == val1 {
          break;
        }
      }
    }

    // getSn_RX_RSR
    method GetStored() returns (val: u16, ghost held: Chip)
      requires Ok(chip)
      modifies this`chip
      ensures Ok(chip) && EnvStep(old(chip), chip) && Still(old(chip), chip)
      ensures Sizes(held) && EnvStep(old(chip), held) && EnvStep(held, chip)
      ensures val == Stored(held) || (val == 0 && Stored(old(chip)) < Stored(chip))
      ensures val <= Stored(chip)
      ensures val > 0 ==> Stored(old(chip)) <= val
      ensures val == 0 ==> Stored(old(chip)) == 0 || Stored(old(chip)) < Stored(chip)
      ensures Calm(net.mood, old(chip)) ==> chip == old(chip) && val == Stored(chip)
    {
      hide EnvStep, TxOk, RxOk, FramesOk, FreeSize, Join, Hi, Lo, Dist, Stored, Later;
      ghost var before := chip;
      EnvReflexive(chip);
      EnvIsStill(chip, chip);
      val := 0;
      while true
        invariant Ok(chip) && EnvStep(before, chip) && Still(before, chip)
        invariant 0 <= val <= Stored(chip)
        invariant Calm(net.mood, before) ==> chip == before
        decreases |before.rxMem| - Stored(chip)
      {
        var val1, r1 := ReadStored(before);
        held := chip;
        EnvReflexive(held);
        TornIsLow(r1, Stored(held));
        if val1 != 0 {
          ghost var r3;
          val, r3 := ReadStored(held);
          EnvTransitive(before, held, chip);
          TornIsLow(r3, Stored(chip));
          if val == val1 {
            DoubleRead(r1, Stored(held), r3, Stored(chip));
          }
        }
        EnvIsStill(before, held);
        EnvIsStill(before, chip);
        if val == val1 {
          break;
        }
      }
    }

    /** A wait does not last for ever: in the end the chip reports a timeout. */
    method GiveUp()
      requires Ok(chip)
      modifies this`chip
      ensures Ok(chip) && Still(old(chip), chip) && chip.timeout && chip.status == old(chip.status)
    {
      hide EnvStep, TxOk, RxOk, FramesOk, Still;
      Relabelled(chip, chip.(timeout := true));
      chip := chip.(timeout := true);
    }

    // ---------------------------------------------------------------------- close, socket, connect

    method Close() returns (r: int, ghost at: Chip)
      requires Sound()
      modifies this
      ensures ios == old(ios)
      ensures Valid()
      ensures r == SOCK_OK
      ensures begun == old(begun) && chunks == old(chunks)
      ensures Later(old(chip), chip) && chip.status == Closed
      ensures chip.wire == old(chip.wire) && Taken(chip) == Taken(old(chip))
      ensures !sending && !nonblocking && remained == 0 && packInfo == 0
      ensures !chip.busy && !chip.sendOk
      ensures log == old(log) + [Hangup(at)] && Still(old(chip), at)
    {
      hide Ok, Disciplined, EnvStep, FreeSize, Taken, Unsent, RxShape, Still, Later;
      ghost var a := chip;
      at := IssueClose();
      nonblocking, sending, remained, packInfo := false, false, 0, 0;
      ghost var d := chip;
      // The wait for SOCK_CLOSED ends at once: nothing reopens the socket.
      var s := ReadStatus();
      StillMeans(d, chip);
      LaterAgain(a, d, chip);
      assert s == Closed;
      r := SOCK_OK;
    }

    /** The CLOSE command, and the interrupt flags cleared. */
    method IssueClose() returns (ghost at: Chip)
      requires Sound()
      modifies this`chip, this`log
      ensures Ok(chip) && Unsent(chip) == 0 && chip.rxRd == chip.rxTaken
      ensures Later(old(chip), chip) && chip.status == Closed
      ensures chip.wire == old(chip.wire) && Taken(chip) == Taken(old(chip))
      ensures log == old(log) + [Hangup(at)] && Still(old(chip), at) && Disciplined(log) && !Outstanding(log)
      ensures !chip.busy && !chip.sendOk
    {
      hide Ok, Disciplined, EnvStep, FreeSize, Taken, Unsent, RxShape, Still, Later;
      ghost var a := chip;
      Tick();
      StillMeans(a, chip);
      ghost var b := chip;
      at := chip;
      Relabelled(chip, CloseCommand(chip));
      chip := CloseCommand(chip);
      CloseIsLater(b);
      LaterAgain(a, b, chip);
      ghost var c := chip;
      DisciplinedSnoc(log, Hangup(at));
      log := log + [Hangup(at)];
      Relabelled(chip, chip.(sendOk := false, timeout := false));
      chip := chip.(sendOk := false, timeout := false);
      CloseIsLater(c);
      LaterAgain(a, c, chip);
    }

    // socket()
    method Open(protocol: Mode, flag: bv8) returns (r: int)
      requires Valid()
      modifies this
      ensures ios == old(ios)
      ensures Valid()
      ensures r == (if protocol == NoMode then SOCKERR_SOCKMODE
                    else if protocol == Tcp && sourceIp == 0 then SOCKERR_SOCKINIT
                    else if !FlagsOk(protocol, flag) then SOCKERR_SOCKFLAG
                    else sn)
      ensures r < 0 ==> chip == old(chip) && log == old(log) && sending == old(sending) && nonblocking == old(nonblocking)
      ensures r >= 0 ==>
                && chip.mode == protocol && chip.status == OpenStatus(protocol)
                && chip.wire == [] && chip.inbound == [] && chip.frames == [] && Taken(chip) == 0
                && chip.past == old(chip.past) + [old(chip.wire)]
                && |chip.txMem| == |old(chip.txMem)| && |chip.rxMem| == |old(chip.rxMem)|
                && begun == 0 && chunks == [] && remained == 0 && !sending && !chip.busy && !chip.sendOk
                && (nonblocking <==> flag & 0x01 != 0)
    {
      hide EnvStep, Ok, Frames, Disciplined, RxShape, Still, Later, ShapedAt, Outstanding, Taken, Unsent;
      if protocol == NoMode {
        return SOCKERR_SOCKMODE;
      }
      if protocol == Tcp && sourceIp == 0 {
        return SOCKERR_SOCKINIT;
      }
      if !FlagsOk(protocol, flag) {
        return SOCKERR_SOCKFLAG;
      }
      ghost var was := chip;
      var _, _ := Close();
      LaterMode(was, chip);
      var tx: u16 := *;
      var rx: u16 := *;
      OpenKeeps(chip, protocol, tx, rx);
      OpenShape(chip, protocol, tx, rx);
      OpenIsFresh(chip, protocol, tx, rx);
      chip := OpenCommand(chip, protocol, tx, rx);
      nonblocking := flag & 0x01 != 0;
      sending, remained, packInfo := false, 0, PACK_COMPLETED;
      begun, chunks := 0, [];
      r := sn;
    }

    method Connect(addr: seq<byte>, port: u16) returns (r: int, ghost at: Chip)
      requires Valid() && |addr| == 4
      modifies this`chip
      ensures Valid()
      ensures Later(old(chip).(status := chip.status), chip)
      ensures chip.wire == old(chip.wire) && Taken(chip) == Taken(old(chip))
      ensures r == SOCK_OK ==>
                && chip.mode == Tcp && chip.status == Established && chip.wire == [] && Taken(chip) == 0
                && !nonblocking
      ensures if old(chip.mode) != Tcp then r == SOCKERR_SOCKMODE
              else if old(chip.status) != Init then r == SOCKERR_SOCKINIT
              else if addr == [255, 255, 255, 255] || addr == [0, 0, 0, 0] then r == SOCKERR_IPINVALID
              else if port == 0 then r == SOCKERR_PORTZERO
              else r in {SOCK_OK, SOCK_BUSY, SOCKERR_TIMEOUT, SOCKERR_SOCKCLOSED}
      ensures r in {SOCKERR_SOCKMODE, SOCKERR_SOCKINIT, SOCKERR_IPINVALID, SOCKERR_PORTZERO} ==>
                Still(old(chip), chip)
      ensures r in {SOCK_OK, SOCK_BUSY, SOCKERR_TIMEOUT, SOCKERR_SOCKCLOSED} ==> (r == SOCK_BUSY <==> nonblocking)
      ensures r == SOCKERR_TIMEOUT ==> at.timeout && chip == at.(timeout := false)
      ensures r == SOCKERR_SOCKCLOSED ==> chip.status == Closed
      ensures Welcoming(net.mood) && r !in {SOCKERR_SOCKMODE, SOCKERR_SOCKINIT, SOCKERR_IPINVALID, SOCKERR_PORTZERO} && !nonblocking ==>
                r == SOCK_OK && FreeSize(chip) == |chip.txMem| && chip.inbound == []
    {
      hide Ok, EnvStep, Still, Later, Taken, Unsent, FreeSize, ShapedAt, Paired, RxShape, Disciplined;
      LaterItself(chip);
      EnvReflexive(chip);
      EnvIsStill(chip, chip);
      if chip.mode != Tcp {
        return SOCKERR_SOCKMODE, chip;
      }
      ghost var a := chip;
      var s := ReadStatus();
      Awaited(a, chip);
      StillMeans(a, chip);
      KeptStill(a, chip, sending, begun, remained, chunks);
      LaterExceptStatus(a, chip);
      if s != Init {
        return SOCKERR_SOCKINIT, chip;
      }
      if addr == [255, 255, 255, 255] || addr == [0, 0, 0, 0] {
        return SOCKERR_IPINVALID, chip;
      }
      if port == 0 {
        return SOCKERR_PORTZERO, chip;
      }
      ghost var b := chip;
      r, at := Dial();
      LaterRelabelled(a, b, chip);
    }

    /** The CONNECT command and the wait for its outcome. */
    method Dial() returns (r: int, ghost at: Chip)
      requires Valid() && chip.mode == Tcp && chip.status == Init
      modifies this`chip
      ensures Valid()
      ensures Later(old(chip).(status := chip.status), chip)
      ensures chip.wire == [] && Taken(chip) == Taken(old(chip)) == 0
      ensures r == SOCK_OK ==> chip.status == Established && !nonblocking
      ensures r in {SOCK_OK, SOCK_BUSY, SOCKERR_TIMEOUT, SOCKERR_SOCKCLOSED} && (r == SOCK_BUSY <==> nonblocking)
      ensures r == SOCKERR_TIMEOUT ==> at.timeout && chip == at.(timeout := false)
      ensures r == SOCKERR_SOCKCLOSED ==> chip.status == Closed
      ensures Welcoming(net.mood) && !nonblocking ==> r == SOCK_OK && FreeSize(chip) == |chip.txMem| && chip.inbound == []
    {
      hide Ok, EnvStep, Still, Later, Taken, Unsent, FreeSize, ShapedAt, Paired, RxShape, Disciplined, Stored, ConnectCommand;
      ghost var was := chip;
      var tx: u16 := *;
      var rx: u16 := *;
      ConnectKeeps(chip, tx, rx);
      ConnectShape(chip, tx, rx);
      chip := ConnectCommand(chip, tx, rx);
      ghost var dialled := chip;
      TcpShape(chip, begun, remained, chunks);
      EnvReflexive(chip);
      EnvIsStill(chip, chip);
      if nonblocking {
        DialEnds(was, dialled, chip);
        TcpShape(chip, begun, remained, chunks);
        return SOCK_BUSY, chip;
      }
      var patience: nat := *;
      var s := ReadStatus();
      StillMeans(dialled, chip);
      while s != Established
        invariant Ok(chip) && Still(dialled, chip) && s == chip.status
        invariant Welcoming(net.mood) ==> s == Established && chip.inbound == []
        decreases patience, if chip.timeout || chip.status == Closed then 0 else 1
      {
        ghost var before := chip;
        var _, expired := ReadInterrupts();
        StillMeans(before, chip);
        StillAgain(dialled, before, chip);
        if expired {
          DialEnds(was, dialled, chip);
          Relabelled(chip, chip.(timeout := false));
          at := chip;
          chip := chip.(timeout := false);
          TcpShape(chip, begun, remained, chunks);
          return SOCKERR_TIMEOUT, at;
        }
        ghost var mid := chip;
        s := ReadStatus();
        StillMeans(mid, chip);
        StillAgain(dialled, mid, chip);
        if s == Closed {
          DialEnds(was, dialled, chip);
          TcpShape(chip, begun, remained, chunks);
          return SOCKERR_SOCKCLOSED, chip;
        }
        ghost var next := chip;
        if patience > 0 {
          patience := patience - 1;
        } else {
          GiveUp();
          StillMeans(next, chip);
          StillAgain(dialled, next, chip);
        }
        ghost var last := chip;
        s := ReadStatus();
        StillMeans(last, chip);
        StillAgain(dialled, last, chip);
      }
      DialEnds(was, dialled, chip);
      TcpShape(chip, begun, remained, chunks);
      r, at := SOCK_OK, chip;
    }

    method Disconnect() returns (r: int)
      requires Valid()
      modifies this
      ensures ios == old(ios)
      ensures Valid()
      ensures Later(old(chip), chip)
      ensures chip.wire == old(chip.wire) && Taken(chip) == Taken(old(chip))
      ensures old(chip.mode) != Tcp <==> r == SOCKERR_SOCKMODE
      ensures r == SOCKERR_SOCKMODE ==> chip == old(chip) && log == old(log)
      ensures r != SOCKERR_SOCKMODE ==> !sending && !Live(chip.status)
      ensures r == SOCK_OK || r == SOCKERR_TIMEOUT ==> chip.status == Closed
      ensures r in {SOCK_OK, SOCK_BUSY} ==> log == old(log) + [Hangup(old(chip))]
      ensures r == SOCKERR_TIMEOUT ==>
                ClosedAfter(old(log) + [Hangup(old(chip))], log) && log[|log| - 1].at.timeout
      ensures r in {SOCK_OK, SOCK_BUSY, SOCKERR_SOCKMODE, SOCKERR_TIMEOUT}
      ensures r == SOCK_BUSY <==> old(chip.mode) == Tcp && old(nonblocking)
      ensures nonblocking ==> old(nonblocking)
    {
      hide EnvStep, Ok, Still, Later, Taken, Unsent, ShapedAt, Paired, RxShape, Disciplined, DisconCommand;
      if chip.mode != Tcp {
        LaterItself(chip);
        return SOCKERR_SOCKMODE;
      }
      ghost var a := chip;
      DisconKeeps(chip);
      chip := DisconCommand(chip);
      LaterMode(a, chip);
      TcpShape(chip, begun, remained, chunks);
      DisciplinedSnoc(log, Hangup(a));
      log := log + [Hangup(a)];
      sending := false;
      if nonblocking {
        return SOCK_BUSY;
      }
      ghost var b := chip;
      r := AwaitClosed();
      LaterAgain(a, b, chip);
    }

    method AwaitClosed() returns (r: int)
      requires Valid() && !sending && !Live(chip.status)
      modifies this
      ensures ios == old(ios)
      ensures Valid() && !sending && !Live(chip.status)
      ensures Later(old(chip), chip)
      ensures chip.wire == old(chip.wire) && Taken(chip) == Taken(old(chip))
      ensures chip.status == Closed && (r == SOCK_OK || r == SOCKERR_TIMEOUT)
      ensures if r == SOCK_OK then log == old(log) else ClosedAfter(old(log), log) && log[|old(log)|].at.timeout
      ensures nonblocking ==> old(nonblocking)
    {
      hide Ok, EnvStep, Still, Later, Taken, Unsent, ShapedAt, Paired, RxShape, Disciplined, Predicted;
      ghost var hung := chip;
      var patience: nat := *;
      var s := ReadStatus();
      Awaited(hung, chip);
      KeptStill(hung, chip, sending, begun, remained, chunks);
      while s != Closed
        invariant Valid() && !sending && Still(hung, chip) && s == chip.status && ios == old(ios) && log == old(log)
        invariant nonblocking ==> old(nonblocking)
        decreases patience, if chip.timeout then 0 else 1
      {
        ghost var before := chip;
        var _, expired := ReadInterrupts();
        StillAgain(hung, before, chip);
        StillMeans(before, chip);
        KeptStill(before, chip, sending, begun, remained, chunks);
        ghost var mid := chip;
        if expired {
          var _, at := Close();
          StillMeans(mid, at);
          ClosedBy(old(log), at);
          Awaited(hung, mid);
          LaterAgain(hung, mid, chip);
          return SOCKERR_TIMEOUT;
        }
        if patience > 0 {
          patience := patience - 1;
          EnvReflexive(chip);
          EnvIsStill(chip, chip);
        } else {
          GiveUp();
        }
        ghost var next := chip;
        s := ReadStatus();
        StillAgain(mid, next, chip);
        StillAgain(hung, mid, chip);
        StillMeans(mid, chip);
        KeptStill(mid, chip, sending, begun, remained, chunks);
      }
      Awaited(hung, chip);
      r := SOCK_OK;
    }

    // -------------------------------------------------------------------------------- send (TCP)

    /** wiz_send_data and the SEND command. */
    method Transmit(buf: array<byte>, len: u16)
      requires Valid() && !sending && chip.mode == Tcp && chip.status != Init
      requires !chip.busy && !chip.sendOk
      requires 0 < len <= buf.Length && len <= FreeSize(chip)
      modifies this
      ensures ios == old(ios)
      ensures Valid() && sending
      ensures Later(old(chip), chip)
      ensures chip.wire == old(chip.wire) + buf[..len] && Taken(chip) == Taken(old(chip))
      ensures log == old(log) + [SendIssued(true)]
      ensures nonblocking == old(nonblocking) && remained == old(remained)
      ensures Calm(net.mood, old(chip)) ==>
                && chip.status == old(chip.status) && chip.timeout == old(chip.timeout) && !chip.sendOk
                && AnsweredBy(net.mood, old(chip), chip)
    {
      hide Ok, Disciplined, EnvStep, RxShape, FreeSize, Taken, Unsent, Pending, Later, Paired, ShapedAt, Predicted;
      ghost var was := chip;
      Stage(buf, len);
      ghost var staged := chip;
      LaterMode(was, staged);
      assert |buf[..len]| == len;
      ghost var clear := SendStaged();
      LaterAgain(was, staged, chip);
      LaterMode(was, chip);
      TcpShape(chip, begun, remained, chunks);
      DisciplinedSnoc(log, SendIssued(clear));
      log := log + [SendIssued(clear)];
      sending := true;
    }

    /** The SEND command; clear tells whether SENDOK was down, and none to come, when it was issued. */
    method SendStaged() returns (ghost clear: bool)
      requires Ok(chip) && chip.status != Init && !chip.busy && !chip.sendOk
      modifies this`chip
      ensures Ok(chip) && Unsent(chip) == 0 && Later(old(chip), chip)
      ensures chip.wire == old(chip.wire) + Pending(old(chip))
      ensures chip.status != Init && chip.rxRd == old(chip.rxRd) && chip.rxTaken == old(chip.rxTaken)
      ensures Taken(chip) == Taken(old(chip))
      ensures clear && Paired(chip, true)
      ensures Calm(net.mood, old(chip)) ==>
                && chip.status == old(chip.status) && chip.timeout == old(chip.timeout) && !chip.sendOk
                && (Pending(old(chip)) != [] && old(chip).mode == Tcp ==> AnsweredBy(net.mood, old(chip), chip))
    {
      hide Ok, Disciplined, EnvStep, FreeSize, Taken, Unsent;
      ghost var a := chip;
      Tick();
      ghost var b := chip;
      assert Pending(b) == Pending(a);
      SendKeeps(chip);
      clear := !chip.busy && !chip.sendOk;
      chip := SendCommand(chip);
      ghost var c := chip;
      Tick();
      LaterAgain(a, b, c);
      LaterAgain(a, c, chip);
    }

    /** wiz_send_data: copy into the transmit buffer and advance Sn_TX_WR. */
    method Stage(buf: array<byte>, len: u16)
      requires Ok(chip) && Unsent(chip) == 0 && chip.status != Init && !chip.busy && !chip.sendOk
      requires 0 < len <= buf.Length && len <= FreeSize(chip)
      modifies this`chip
      ensures Ok(chip) && Pending(chip) == buf[..len] && !chip.busy && !chip.sendOk
      ensures Calm(net.mood, old(chip)) ==>
                && Calm(net.mood, chip) && chip.status == old(chip.status) && chip.timeout == old(chip.timeout)
                && chip.inbound == old(chip.inbound)
      ensures Later(old(chip), chip) && chip.wire == old(chip.wire) && chip.status != Init
      ensures chip.rxRd == old(chip.rxRd) && chip.rxTaken == old(chip.rxTaken)
      ensures Taken(chip) == Taken(old(chip))
    {
      hide Ok, Disciplined, EnvStep, FreeSize, Taken, Unsent;
      ghost var a, data := chip, buf[..len];
      Tick();
      var ptr := chip.txWr;
      ghost var b := chip;
      WriteBufKeeps(chip, data);
      chip := WriteBuf(chip, ptr, buf[..len]);
      ghost var c := chip;
      Tick();
      ghost var d := chip;
      AdvanceKeeps(chip, data);
      chip := chip.(txWr := Advance(ptr, len));
      LaterAgain(a, b, c);
      LaterAgain(a, c, d);
      LaterAgain(a, d, chip);
    }

    /** Consume a raised SENDOK. */
    method ConsumeSendOk()
      requires Valid() && sending && chip.sendOk
      modifies this
      ensures ios == old(ios)
      ensures Valid() && !sending && log == old(log) + [SendOkConsumed(true)]
      ensures chip == old(chip).(sendOk := false) && FreeSize(chip) == FreeSize(old(chip))
      ensures Later(old(chip), chip) && chip.wire == old(chip.wire) && Taken(chip) == Taken(old(chip))
      ensures chip.status == old(chip.status) && nonblocking == old(nonblocking)
    {
      hide Ok, Disciplined, EnvStep, FreeSize, Taken, Unsent, RxShape;
      ghost var was := chip;
      Relabelled(chip, chip.(sendOk := false));
      chip := chip.(sendOk := false);
      ghost var done := !chip.busy;
      DisciplinedSnoc(log, SendOkConsumed(done));
      log := log + [SendOkConsumed(done)];
      sending := false;
      ShapeKept(was, chip, begun, remained, chunks);
    }

    /** The wait for room: room for len bytes, or a connection that is gone, or a full buffer that a
        non-blocking socket does not wait for. */
    method AwaitRoom(len: u16) returns (room: bool, gone: bool)
      requires Valid() && Met(chip.status) && len <= |chip.txMem|
      modifies this`chip
      ensures Valid()
      ensures Later(old(chip), chip) && chip.wire == old(chip.wire) && Taken(chip) == Taken(old(chip))
      ensures Met(chip.status)
      ensures room ==> !gone && len <= FreeSize(chip) && Live(chip.status)
      ensures gone ==> !Live(chip.status)
      ensures Calm(net.mood, old(chip)) && Live(old(chip.status)) && len <= FreeSize(old(chip)) ==> room && chip == old(chip)
      ensures !room && !gone ==> nonblocking
    {
      hide Ok, Disciplined, EnvStep, FreeSize, Taken, Unsent, RxShape, Later, Still, Paired, ShapedAt, LineStep, Predicted;
      ghost var was := chip;
      EnvReflexive(chip);
      EnvIsStill(chip, chip);
      var patience: nat := *;
      while true
        invariant Ok(chip) && Still(was, chip)
        invariant Calm(net.mood, was) && Live(was.status) && len <= FreeSize(was) ==> chip == was
        decreases patience, if chip.status == Closed then 0 else 1
      {
        ghost var a := chip;
        var free, held := GetFreeSize();
        ghost var b := chip;
        var s := ReadStatus();
        StillMeans(a, b);
        StillMeans(b, chip);
        StillAgain(was, a, b);
        StillAgain(was, b, chip);
        StillMeans(was, chip);
        if !Live(s) || (nonblocking && len > free) || len <= free {
          KeptStill(was, chip, sending, begun, remained, chunks);
          return Live(s) && len <= free, !Live(s);
        }
        if patience > 0 {
          patience := patience - 1;
        } else {
          ghost var c := chip;
          HangUp();
          StillAgain(was, c, chip);
        }
      }
    }

    /** A wait does not last for ever: in the end the connection is gone. */
    method HangUp()
      requires Ok(chip) && chip.status != Init
      modifies this`chip
      ensures Ok(chip) && Still(old(chip), chip) && chip.status == Closed
    {
      hide EnvStep, TxOk, RxOk, FramesOk;
      Relabelled(chip, chip.(status := Closed));
      Relabelled(chip, chip);
      chip := chip.(status := Closed);
    }

    /** send()'s handling of an earlier SEND: go on only once its SENDOK has been consumed. */
    method FinishEarlierSend() returns (proceed: bool, r: int)
      requires Valid() && Met(chip.status)
      modifies this
      ensures ios == old(ios)
      ensures Valid() && Met(chip.status)
      ensures if proceed then Freed(net.mood, old(Now()), Now()) else HeldUp(net.mood, old(Now()), r, Now())
      ensures Calm(net.mood, old(chip)) ==> (proceed <==> !old(Unconfirmed()))
    {
      hide Ok, Disciplined, EnvStep, FreeSize, Taken, Unsent, RxShape, Still, Later, Paired, ShapedAt;
      proceed, r := true, SOCK_BUSY;
      ghost var a := chip;
      EnvReflexive(chip);
      EnvIsStill(chip, chip);
      StillMeans(chip, chip);
      if sending {
        var done, expired := ReadInterrupts();
        StillMeans(a, chip);
        KeptStill(a, chip, sending, begun, remained, chunks);
        ghost var b := chip;
        if done {
          ConsumeSendOk();
          LaterAgain(a, b, chip);
        } else if expired {
          var _, at := Close();
          LaterAgain(a, b, chip);
          StillMeans(b, at);
          assert log == old(log) + [Hangup(at)];
          return false, SOCKERR_TIMEOUT;
        } else {
          return false, SOCK_BUSY;
        }
      }
    }

    method Send(buf: array<byte>, len: u16) returns (r: int)
      requires Valid() && len <= buf.Length
      modifies this
      ensures Valid()
      ensures SendMeets(net.mood, old(Now()), buf[..len], r, Now())
      ensures ios == old(ios) + [Io(Sending(buf[..len]), r, [], old(Now()), Now())]
    {
      hide Consistent, SendMeets;
      ghost var before := Now();
      r := TrySend(buf, len);
      ios := ios + [Io(Sending(buf[..len]), r, [], before, Now())];
    }

    method TrySend(buf: array<byte>, len: u16) returns (r: int)
      requires Valid() && len <= buf.Length
      modifies this
      ensures ios == old(ios)
      ensures Valid()
      ensures SendMeets(net.mood, old(Now()), buf[..len], r, Now())
    {
      hide Ok, Disciplined, EnvStep, FreeSize, Taken, Unsent, RxShape, Still, Later, Paired, ShapedAt, Predicted,
        SendMeets, Calm;
      ghost var a := Now();
      if chip.mode != Tcp {
        SendRefused(net.mood, a, buf[..len], SOCKERR_SOCKMODE);
        return SOCKERR_SOCKMODE;
      }
      if len == 0 {
        SendRefused(net.mood, a, buf[..len], SOCKERR_DATALEN);
        return SOCKERR_DATALEN;
      }
      var s := ReadStatus();
      StillMeans(a.chip, chip);
      KeptStill(a.chip, chip, sending, begun, remained, chunks);
      ghost var b := Now();
      if !Live(s) {
        SendDown(net.mood, a, b, buf[..len]);
        return SOCKERR_SOCKSTATUS;
      }
      r := SendLive(buf, len);
      SendMeetsStill(net.mood, a, b, buf[..len], r, Now());
    }

    /** send() on a socket found connected. */
    method SendLive(buf: array<byte>, len: u16) returns (r: int)
      requires Valid() && chip.mode == Tcp && Live(chip.status) && 0 < len <= buf.Length
      modifies this
      ensures ios == old(ios)
      ensures Valid()
      ensures SendMeets(net.mood, old(Now()), buf[..len], r, Now())
    {
      hide Ok, Disciplined, EnvStep, FreeSize, Taken, Unsent, RxShape, Still, Later, Paired, ShapedAt, Predicted, SendMeets,
        HeldUp, Roomed, Calm;
      SizesOf(chip);
      ghost var a := Now();
      RoomBound(chip);
      var proceed, code := FinishEarlierSend();
      if !proceed {
        SendHeldUp(net.mood, a, buf[..len], code, Now());
        return code;
      }
      LaterMode(a.chip, chip);
      ghost var b := Now();
      var n := Min(len, |chip.txMem|);
      r := SendRoomy(buf, n);
      RoomedLater(net.mood, b, buf[..n], r, Now());
      LaterMode(b.chip, chip);
      assert buf[..n] == buf[..len][..n];
      SendInTwo(net.mood, a, b, buf[..len], r, Now());
    }

    /** The rest of send() once no SEND is outstanding. */
    method SendRoomy(buf: array<byte>, len: u16) returns (r: int)
      requires Valid() && !sending && chip.mode == Tcp && Met(chip.status)
      requires 0 < len <= buf.Length && len <= |chip.txMem|
      modifies this
      ensures ios == old(ios)
      ensures Valid()
      ensures Roomed(net.mood, old(Now()), buf[..len], r, Now())
    {
      hide Ok, Disciplined, EnvStep, FreeSize, Taken, Unsent, RxShape, Still, Predicted, AnsweredBy;
      ghost var was := chip;
      var room, gone := AwaitRoom(len);
      ghost var a := chip;
      if gone {
        var _, at := Close();
        LaterAgain(was, a, chip);
        StillMeans(a, at);
        StillGone(a, at);
        assert log == old(log) + [Hangup(at)];
        return SOCKERR_SOCKSTATUS;
      }
      if !room {
        return SOCK_BUSY;
      }
      LineClear(chip, sending);
      Transmit(buf, len);
      LaterAgain(was, a, chip);
      r := len;
    }

    // -------------------------------------------------------------------------------- recv (TCP)

    /** wiz_recv_data and the RECV command. */
    method TakeBytes(buf: array<byte>, n: u16)
      requires Ok(chip) && Unsent(chip) == 0 && chip.rxRd == chip.rxTaken && Met(chip.status)
      requires n <= Stored(chip) && n <= buf.Length
      modifies this`chip, buf
      ensures Ok(chip) && Unsent(chip) == 0 && chip.rxRd == chip.rxTaken && Met(chip.status)
      ensures Later(old(chip), chip) && chip.wire == old(chip.wire)
      ensures var at := Taken(old(chip));
              && 0 <= at && at + n <= |chip.inbound|
              && Taken(chip) == at + n
              && buf[..n] == chip.inbound[at..at + n]
      ensures buf[n..] == old(buf[n..])
      ensures Stored(chip) >= Stored(old(chip)) - n
      ensures LineStep(old(chip), chip)
    {
      hide Ok, EnvStep, FreeSize, Taken, Unsent, Later, Still, Stored;
      ghost var a := chip;
      FetchBytes(buf, n);
      ghost var b := chip;
      Tick();
      StillMeans(b, chip);
      LaterAgain(a, b, chip);
      ghost var c := chip;
      RecvKeeps(c, n);
      chip := RecvCommand(chip);
      LaterAgain(a, c, chip);
      ghost var d := chip;
      Tick();
      StillMeans(d, chip);
      LaterAgain(a, d, chip);
      LaterMode(b, c);
      LaterMode(c, d);
      LaterMode(d, chip);
    }

    /** wiz_recv_data: copy out of the receive buffer and advance Sn_RX_RD. */
    method FetchBytes(buf: array<byte>, n: u16)
      requires Ok(chip) && chip.rxRd == chip.rxTaken && Met(chip.status)
      requires n <= Stored(chip) && n <= buf.Length
      modifies this`chip, buf
      ensures Ok(chip) && Unsent(chip) == Unsent(old(chip)) && Met(chip.status)
      ensures chip.rxTaken == old(chip.rxTaken) && chip.rxRd == Advance(chip.rxTaken, n)
      ensures Later(old(chip), chip) && chip.wire == old(chip.wire)
      ensures var at := Taken(old(chip));
              && 0 <= at && at + n <= |chip.inbound|
              && Taken(chip) == at
              && buf[..n] == chip.inbound[at..at + n]
      ensures buf[n..] == old(buf[n..])
      ensures Stored(chip) >= Stored(old(chip))
      ensures LineStep(old(chip), chip)
    {
      hide Ok, EnvStep, FreeSize, Taken, Unsent, Later, Still, Stored, ReadBuf;
      ghost var a := chip;
      EnvReflexive(a);
      EnvIsStill(a, a);
      StillMeans(a, a);
      ReadBufIsNext(a, n);
      if n == 0 {
        PointerWritten(a, a.rxRd);
        return;
      }
      Tick();
      var ptr := chip.rxRd;
      ghost var b := chip;
      StillMeans(a, b);
      LaterMode(a, b);
      ReadBufIsNext(b, n);
      var data := ReadBuf(chip, ptr, n);
      forall i | 0 <= i < n {
        buf[i] := data[i];
      }
      assert buf[..n] == data;
      PointerWritten(b, Advance(ptr, n));
      chip := chip.(rxRd := Advance(ptr, n));
      LaterAgain(a, b, chip);
    }

    /** recv()'s wait: how much has arrived, or whether the connection is gone. */
    method AwaitData() returns (size: u16, gone: bool)
      requires Valid() && chip.mode == Tcp
      modifies this`chip
      ensures Valid()
      ensures Later(old(chip), chip) && chip.wire == old(chip.wire) && Taken(chip) == Taken(old(chip))
      ensures !gone && size > 0 ==> Stored(old(chip)) <= size <= Stored(chip) && Met(chip.status)
      ensures !gone && size == 0 ==> nonblocking && NothingWaited(old(chip), chip)
      ensures gone ==> chip.status != Established && Deserted(old(chip), chip)
      ensures LineStep(old(chip), chip)
      ensures Calm(net.mood, old(chip)) && Live(old(chip.status)) && Stored(old(chip)) > 0 ==>
                !gone && chip == old(chip) && size == Stored(chip)
    {
      hide Ok, Disciplined, EnvStep, FreeSize, Taken, Unsent, RxShape, Later, Still, Stored, Paired, ShapedAt;
      ghost var was := chip;
      EnvReflexive(chip);
      EnvIsStill(chip, chip);
      StillMeans(chip, chip);
      var patience: nat := *;
      while true
        invariant Ok(chip) && Still(was, chip) && Stored(chip) <= |was.rxMem|
        invariant nonblocking || (Calm(net.mood, was) && Stored(was) > 0 && was.status != Closed) ==> chip == was
        decreases patience, if Stored(chip) > 0 || chip.status == Closed then 0 else 1, |was.rxMem| - Stored(chip)
      {
        ghost var a := chip;
        StillMeans(was, a);
        size, gone := LookForData();
        StillAgain(was, a, chip);
        StillMeans(was, chip);
        if gone || nonblocking || size != 0 {
          KeptStill(was, chip, sending, begun, remained, chunks);
          return;
        }
        if patience > 0 {
          patience := patience - 1;
        } else if Stored(chip) == 0 {
          ghost var d := chip;
          HangUp();
          StillAgain(was, d, chip);
          StillMeans(was, chip);
        }
      }
    }

    /** One round of recv()'s wait. */
    method LookForData() returns (size: u16, gone: bool)
      requires Ok(chip)
      modifies this`chip
      ensures Ok(chip) && Still(old(chip), chip)
      ensures size <= Stored(chip)
      ensures size == 0 ==> Stored(old(chip)) == 0 || Stored(old(chip)) < Stored(chip)
      ensures size > 0 ==> Stored(old(chip)) <= size
      ensures old(chip.status) == Closed ==> gone
      ensures !gone ==> Met(chip.status)
      // The peer's close counts only once nothing is left to read and all that was sent is acknowledged.
      ensures gone ==> chip.status != Established
      ensures gone && Live(chip.status) ==> chip.status == CloseWait && size == 0 && FreeSize(chip) == |chip.txMem|
      ensures Calm(net.mood, old(chip)) ==> chip == old(chip) && size == Stored(chip)
      ensures Live(old(chip.status)) && Calm(net.mood, old(chip)) && size > 0 ==> !gone
    {
      hide Ok, EnvStep, FreeSize, Taken, Unsent, Later, Still, Stored;
      ghost var a := chip;
      ghost var held;
      size, held := GetStored();
      ghost var b := chip;
      var s := ReadStatus();
      ghost var c := chip;
      StillMeans(a, b);
      StillMeans(b, c);
      StillAgain(a, b, c);
      StillMeans(a, c);
      gone := s != Established && s != CloseWait;
      if s == CloseWait && size == 0 {
        var free, _ := GetFreeSize();
        StillMeans(c, chip);
        LaterMode(c, chip);
        StillAgain(a, c, chip);
        gone := free == |chip.txMem|;
      }
    }

    method Recv(buf: array<byte>, len: u16) returns (r: int)
      requires Valid() && len <= buf.Length
      modifies this, buf
      ensures Valid()
      ensures r <= len && RecvMeets(net.mood, old(Now()), len, r, buf[..if r > 0 then r else 0], Now())
      ensures if r > 0 then buf[r..] == old(buf[r..]) else buf[..] == old(buf[..])
      ensures ios == old(ios) + [Io(Receiving(len), r, buf[..if r > 0 then r else 0], old(Now()), Now())]
    {
      hide Consistent, RecvMeets;
      ghost var before := Now();
      r := TryRecv(buf, len);
      ios := ios + [Io(Receiving(len), r, buf[..if r > 0 then r else 0], before, Now())];
    }

    method TryRecv(buf: array<byte>, len: u16) returns (r: int)
      requires Valid() && len <= buf.Length
      modifies this, buf
      ensures ios == old(ios)
      ensures Valid()
      ensures r <= len && RecvMeets(net.mood, old(Now()), len, r, buf[..if r > 0 then r else 0], Now())
      ensures if r > 0 then buf[r..] == old(buf[r..]) else buf[..] == old(buf[..])
    {
      hide Ok, Disciplined, EnvStep, FreeSize, Taken, Unsent, RxShape, Later, Still, Stored, Paired, ShapedAt, NothingWaited,
        Deserted, Calm, RecvMeets, ClosedAfter, LineStep, Met;
      ghost var was := Now();
      WindowOf(chip);
      if chip.mode != Tcp {
        RecvRefused(net.mood, was, len, SOCKERR_SOCKMODE);
        return SOCKERR_SOCKMODE;
      }
      if len == 0 {
        RecvRefused(net.mood, was, len, SOCKERR_DATALEN);
        return SOCKERR_DATALEN;
      }
      var limit := Min(len, |chip.rxMem|);
      SizesOf(chip);
      WaitingFits(chip);
      var size, gone := AwaitData();
      ghost var a := chip;
      LineGoesOn(was.chip, a, sending);
      if gone {
        CloseDeserted(was);
        RecvNothing(net.mood, was, len, SOCKERR_SOCKSTATUS, Now());
        return SOCKERR_SOCKSTATUS;
      }
      if size == 0 {
        RecvNothing(net.mood, was, len, SOCK_BUSY, Now());
        return SOCK_BUSY;
      }
      LaterMode(was.chip, a);
      r := Min(size, limit);
      TakeWaiting(buf, r);
      LaterAgain(was.chip, a, chip);
      LineGoesOn(a, chip, sending);
      RecvSome(net.mood, was, len, r, buf[..r], Now());
    }

    /** recv() closes a socket whose connection it found gone. */
    method CloseDeserted(ghost was: Snap)
      requires Valid() && Now().(chip := was.chip) == was && Later(was.chip, chip) && Deserted(was.chip, chip)
      requires chip.wire == was.chip.wire && Taken(chip) == Taken(was.chip)
      modifies this
      ensures ios == old(ios)
      ensures Valid() && Later(was.chip, chip) && chip.status == Closed && !sending && !nonblocking
      ensures chip.wire == was.chip.wire && Taken(chip) == Taken(was.chip)
      ensures ClosedAfter(was.log, log) && Deserted(was.chip, log[|was.log|].at)
    {
      hide Ok, Disciplined, EnvStep, FreeSize, Taken, Unsent, RxShape, Later, Still, Stored, Paired, ShapedAt, Deserted;
      ghost var a := chip;
      var _, at := Close();
      LaterAgain(was.chip, a, chip);
      DesertedStill(was.chip, a, at);
    }

    /** Bytes that are waiting. */
    method TakeWaiting(buf: array<byte>, n: u16)
      requires Valid() && chip.mode == Tcp && Met(chip.status) && n <= Stored(chip) && n <= buf.Length
      modifies this`chip, buf
      ensures Valid() && LineStep(old(chip), chip)
      ensures Later(old(chip), chip) && chip.wire == old(chip.wire)
      ensures var at := Taken(old(chip));
              && 0 <= at && Taken(chip) == at + n <= |chip.inbound|
              && buf[..n] == chip.inbound[at..at + n]
      ensures buf[n..] == old(buf[n..])
    {
      hide Ok, Disciplined, EnvStep, FreeSize, Taken, Unsent, RxShape, Later, Still, Stored, Paired, ShapedAt;
      ghost var a := chip;
      TakeBytes(buf, n);
      PairedLater(a, chip, sending);
      LaterMode(a, chip);
      TcpShape(chip, begun, remained, chunks);
    }

    /** getSn_RX_RSR, called by an application. */
    method Available() returns (n: u16)
      requires Valid()
      modifies this`chip
      ensures Valid() && n <= Stored(chip)
      ensures if n > 0 then Stored(old(chip)) <= n else NothingWaited(old(chip), chip)
      ensures Later(old(chip), chip) && chip.wire == old(chip.wire) && Taken(chip) == Taken(old(chip))
      ensures Unconfirmed() ==> old(Unconfirmed())
      ensures Calm(net.mood, old(chip)) ==> chip == old(chip) && n == Stored(chip)
    {
      hide Ok, Disciplined, EnvStep, FreeSize, Taken, Unsent, RxShape, Later, Still, Stored, Calm;
      ghost var a := chip;
      var size, held := GetStored();
      n := size;
      StillMeans(a, chip);
      KeptStill(a, chip, sending, begun, remained, chunks);
    }

    /** getSn_SR, called by an application. */
    method Status() returns (s: W.Status)
      requires Valid()
      modifies this`chip
      ensures Valid() && s == chip.status
      ensures Later(old(chip), chip) && chip.wire == old(chip.wire) && Taken(chip) == Taken(old(chip))
      ensures Unconfirmed() ==> old(Unconfirmed())
      ensures net.mood != Any ==> chip == Predicted(net.mood, old(chip))
      ensures FreeSize(old(chip)) <= FreeSize(chip) <= |chip.txMem|
    {
      hide Ok, Disciplined, EnvStep, FreeSize, Taken, Unsent, RxShape, Later, Still, Stored;
      ghost var a := chip;
      s := ReadStatus();
      StillMeans(a, chip);
      KeptStill(a, chip, sending, begun, remained, chunks);
    }

    // ----------------------------------------------------------------------------------- recvfrom

    /** recvfrom()'s wait for the next frame. */
    method AwaitFrame() returns (size: u16, gone: bool)
      requires Valid() && IsPacketMode(chip.mode)
      modifies this`chip
      ensures Valid()
      ensures Later(old(chip), chip) && chip.wire == old(chip.wire) && Taken(chip) == Taken(old(chip))
      ensures gone ==> chip.status == Closed
      ensures !gone && size > 0 ==> size <= Stored(chip) && chip.status != Closed
      ensures Calm(net.mood, old(chip)) && old(chip.status) != Closed && Stored(old(chip)) > 0 ==> !gone && size > 0
      ensures !gone && size == 0 ==> nonblocking && NothingWaited(old(chip), chip)
    {
      hide Ok, Disciplined, EnvStep, FreeSize, Taken, Unsent, RxShape, Later, Still, Stored;
      ghost var was := chip;
      EnvReflexive(chip);
      EnvIsStill(chip, chip);
      StillMeans(chip, chip);
      PacketStatus(chip, begun, remained, chunks);
      var patience: nat := *;
      while true
        invariant Ok(chip) && Still(was, chip) && Stored(chip) <= |was.rxMem|
        invariant nonblocking || (Calm(net.mood, was) && Stored(was) > 0 && was.status != Closed) ==> chip == was
        decreases patience, if Stored(chip) > 0 || chip.status == Closed then 0 else 1, |was.rxMem| - Stored(chip)
      {
        ghost var a := chip;
        ghost var held;
        size, held := GetStored();
        ghost var b := chip;
        var s := ReadStatus();
        StillMeans(a, b);
        StillMeans(b, chip);
        StillAgain(was, a, b);
        StillAgain(was, b, chip);
        StillMeans(was, chip);
        gone := s == Closed;
        if gone || nonblocking || size != 0 {
          KeptStill(was, chip, sending, begun, remained, chunks);
          return;
        }
        if patience > 0 {
          patience := patience - 1;
        } else if Stored(chip) == 0 {
          ghost var d := chip;
          HangUp();
          StillAgain(was, d, chip);
          StillMeans(was, chip);
        }
      }
    }

    /** Take the header of the next frame off the ring. */
    method FetchHeader(head: array<byte>)
      requires Valid() && IsPacketMode(chip.mode) && remained == 0
      requires Stored(chip) > 0 && chip.status != Closed && Met(chip.status) && head.Length == 8
      modifies this`chip, head
      ensures Sound() && Met(chip.status)
      ensures Later(old(chip), chip) && chip.wire == old(chip.wire)
      ensures begun < |chip.frames| && IsPacketMode(chip.mode)
      ensures var d := chip.frames[begun];
              && Fits(chip.mode, d)
              && head[..HeaderSize(chip.mode)] == Header(chip.mode, d)
              && Positioned(chip, begun + 1, |d.data|)
    {
      hide Ok, Disciplined, EnvStep, FreeSize, Taken, Unsent, Later, Still, Stored, RxShape, Frames, Paired, Positioned,
        ShapedAt,
        Outstanding, Header, Fits, LineStep, Consistent, IsPacketMode, HeaderSize, Met;
      ghost var a := chip;
      NextIsFrame(a, sending, remained, packInfo, log, begun, chunks);
      var h := HeaderSize(chip.mode);
      TakeBytes(head, h);
      HeaderFetched(a, chip, begun, sending, head[..h]);
    }

    /** Read the frame header: sender, and the length of the datagram. */
    method ReadHeader(addr: array<byte>, portIn: u16) returns (port: u16, size: u16)
      requires Valid() && IsPacketMode(chip.mode) && remained == 0
      requires Stored(chip) > 0 && chip.status != Closed && Met(chip.status) && addr.Length == 4
      modifies this`chip, this`begun, addr
      ensures Sound() && Met(chip.status)
      ensures Later(old(chip), chip) && chip.wire == old(chip.wire)
      ensures old(begun) < |chip.frames| && begun == old(begun) + 1
      ensures var d := chip.frames[old(begun)];
              && Fits(chip.mode, d)
              && size == |d.data|
              && port == (if chip.mode == Udp then d.port else portIn)
              && addr[..] == (if chip.mode == MacRaw then old(addr[..]) else d.ip)
      ensures Positioned(chip, begun, size)
    {
      hide Ok, Disciplined, EnvStep, FreeSize, Taken, Unsent, Later, Still, Stored, RxShape, Frames, Paired, Positioned,
        ShapedAt,
        Outstanding, Header, Fits, LineStep, Consistent;
      var head := new byte[8];
      FetchHeader(head);
      port, size := DecodeHeader(head, chip.mode, chip.frames[begun], addr, portIn);
      begun := begun + 1;
    }

    /** Sender and length from the header bytes. */
    method DecodeHeader(head: array<byte>, mode: Mode, ghost d: Datagram, addr: array<byte>, portIn: u16)
      returns (port: u16, size: u16)
      requires head.Length == 8 && addr.Length == 4 && head != addr
      requires IsPacketMode(mode) && Fits(mode, d) && head[..HeaderSize(mode)] == Header(mode, d)
      modifies addr
      ensures size == |d.data|
      ensures port == (if mode == Udp then d.port else portIn)
      ensures addr[..] == (if mode == MacRaw then old(addr[..]) else d.ip)
    {
      hide Fits, Header, Join;
      port := portIn;
      ghost var h := head[..HeaderSize(mode)];
      if mode == Udp {
        UdpHeader(d, h);
        assert forall i | 4 <= i < 8 :: h[i] == head[i];
        port := Join(head[4], head[5]);
        size := Join(head[6], head[7]);
        CopyAddress(head, addr);
        assert h[..4] == old(head[..4]);
      } else if mode == MacRaw {
        MacRawHeader(d, h);
        assert h[0] == head[0] && h[1] == head[1];
        size := (Join(head[0], head[1]) - 2) % 0x1_0000;
      } else {
        IpRawHeader(d, h);
        assert h[4] == head[4] && h[5] == head[5];
        size := Join(head[4], head[5]);
        CopyAddress(head, addr);
        assert h[..4] == old(head[..4]);
      }
    }

    method CopyAddress(head: array<byte>, addr: array<byte>)
      requires head.Length == 8 && addr.Length == 4 && head != addr
      modifies addr
      ensures addr[..] == head[..4]
    {
      addr[0], addr[1], addr[2], addr[3] := head[0], head[1], head[2], head[3];
    }

    /** Hand the caller the next piece of the current datagram. */
    method ReadPayload(buf: array<byte>, len: u16, ghost start: bool) returns (n: u16)
      requires Sound() && Begun(chip, begun, remained, start, chunks) && len <= buf.Length
      modifies this`chip, this`remained, this`chunks, buf
      ensures Sound()
      ensures Later(old(chip), chip) && chip.wire == old(chip.wire)
      ensures n == Min(len, old(remained)) && remained == old(remained) - n
      ensures 0 < begun <= |chip.frames| && chip.frames[begun - 1] == old(chip.frames)[begun - 1]
      ensures var d := chip.frames[begun - 1];
              chunks == old(chunks) + [Piece(start, d, buf[..n])]
      ensures buf[n..] == old(buf[n..])
      ensures IsPacketMode(chip.mode) && RxShape(chip, begun, remained, chunks)
    {
      hide Ok, Disciplined, EnvStep, FreeSize, Taken, Unsent, Later, Still, Stored, Positioned, Received, Reassemble,
        RxShape, Piece, Paired, Begun, Outstanding, IsPacketMode, Met, LineStep;
      ghost var a := chip;
      n := Min(len, remained);
      BegunGives(a, begun, remained, start, chunks, n);
      TakeBytes(buf, n);
      LaterMode(a, chip);
      PairedLater(a, chip, sending);
      PieceTaken(a, chip, begun, remained, n, chunks, start, buf[..n]);
      chunks := chunks + [Piece(start, chip.frames[begun - 1], buf[..n])];
      remained := remained - n;
    }

    /** The piece and, in pack_info, whether anything of the datagram is left. */
    method TakePiece(buf: array<byte>, len: u16, ghost start: bool) returns (n: u16)
      requires Sound() && Begun(chip, begun, remained, start, chunks) && len <= buf.Length
      modifies this`chip, this`remained, this`chunks, this`packInfo, buf
      ensures Valid()
      ensures Later(old(chip), chip) && chip.wire == old(chip.wire)
      ensures n == Min(len, old(remained)) && remained == old(remained) - n
      ensures 0 < begun <= |chip.frames| && chip.frames[begun - 1] == old(chip.frames)[begun - 1]
      ensures chunks == old(chunks) + [Piece(start, chip.frames[begun - 1], buf[..n])]
      ensures buf[n..] == old(buf[n..])
      ensures IsPacketMode(chip.mode) && RxShape(chip, begun, remained, chunks)
    {
      hide Ok, Disciplined, EnvStep, FreeSize, Taken, Unsent, Later, Still, Stored, Positioned, Received, Reassemble,
        RxShape, Piece, Paired, Begun, Outstanding, IsPacketMode, Met, Consistent, PackRemained;
      ghost var a := chip;
      BegunGives(a, begun, remained, start, chunks, 0);
      n := ReadPayload(buf, len, start);
      LaterMode(a, chip);
      if remained != 0 {
        packInfo := PackRemained(packInfo);
      } else {
        packInfo := PACK_COMPLETED;
      }
      DatagramConsistent(a, chip, sending, remained, packInfo, log, begun, chunks);
    }

    /** The part of recvfrom() that runs when no datagram is begun: r is SOCK_OK once one is. */
    method BeginDatagram(addr: array<byte>, portIn: u16) returns (r: int, port: u16)
      requires Valid() && IsPacketMode(chip.mode) && remained == 0 && addr.Length == 4
      modifies this, addr
      ensures ios == old(ios)
      ensures Later(old(chip), chip) && chip.wire == old(chip.wire) && chunks == old(chunks)
      ensures r == SOCK_OK || r == SOCK_BUSY || r == SOCKERR_SOCKCLOSED || r == SOCKFATAL_PACKLEN
      ensures r != SOCK_OK ==> Valid()
      ensures r == SOCK_BUSY || r == SOCKERR_SOCKCLOSED ==> begun == old(begun) && remained == 0
      ensures r == SOCK_BUSY ==> old(nonblocking) && NothingWaited(old(chip), chip)
      ensures r == SOCKERR_SOCKCLOSED ==> chip.status == Closed
      ensures if r == SOCKFATAL_PACKLEN then ClosedAfter(old(log), log) else log == old(log)
      ensures Calm(net.mood, old(chip)) && old(chip.status) != Closed && Stored(old(chip)) > 0 ==> r == SOCK_OK || r == SOCKFATAL_PACKLEN
      ensures !old(nonblocking) ==> !nonblocking
      ensures r == SOCKFATAL_PACKLEN ==>
                && chip.mode == MacRaw && chip.status == Closed
                && old(begun) < |chip.frames| && |chip.frames[old(begun)].data| > MACRAW_MAX
      ensures r == SOCK_OK ==>
                && Sound() && packInfo != 0 && IsPacketMode(chip.mode)
                && begun == old(begun) + 1 && old(begun) < |chip.frames|
                && remained == |chip.frames[old(begun)].data|
                && Begun(chip, begun, remained, true, chunks)
                && (chip.mode != MacRaw ==> addr[..] == chip.frames[old(begun)].ip)
                && (chip.mode == Udp ==> port == chip.frames[old(begun)].port)
    {
      hide Ok, Disciplined, EnvStep, FreeSize, Taken, Unsent, Later, Still, Stored, Positioned, Received, Reassemble, Paired,
        ShapedAt, Begun, NothingWaited, Fits, Outstanding, IsPacketMode, Calm, ClosedAfter;
      port := portIn;
      ghost var a := chip;
      var size, gone := AwaitFrame();
      LaterMode(a, chip);
      if gone {
        return SOCKERR_SOCKCLOSED, port;
      }
      if size == 0 {
        return SOCK_BUSY, port;
      }
      PacketStatus(chip, begun, remained, chunks);
      ghost var b := chip;
      port, remained := ReadHeader(addr, portIn);
      packInfo := PACK_FIRST;
      LaterAgain(a, b, chip);
      LaterMode(b, chip);
      HeaderBegins(b, chip, begun - 1, remained, chunks);
      r := SOCK_OK;
      if chip.mode == MacRaw && remained > MACRAW_MAX {
        ghost var c := chip;
        var _, at := Close();
        ClosedBy(old(log), at);
        LaterAgain(a, c, chip);
        LaterMode(c, chip);
        return SOCKFATAL_PACKLEN, port;
      }
    }

    /** A datagram to take the next piece from: the one begun, or the next one. */
    method HaveDatagram(addr: array<byte>, portIn: u16) returns (r: int, port: u16)
      requires Valid() && IsPacketMode(chip.mode) && addr.Length == 4
      modifies this, addr
      ensures ios == old(ios)
      ensures Later(old(chip), chip) && chip.wire == old(chip.wire) && chunks == old(chunks)
      ensures IsPacketMode(chip.mode)
      ensures r == SOCK_OK || r == SOCK_BUSY || r == SOCKERR_SOCKCLOSED || r == SOCKFATAL_PACKLEN
      ensures r != SOCK_OK ==> Valid() && old(remained) == 0
      ensures r == SOCK_BUSY || r == SOCKERR_SOCKCLOSED ==> begun == old(begun) && remained == 0
      ensures r == SOCK_BUSY ==> old(nonblocking) && NothingWaited(old(chip), chip)
      ensures r == SOCKERR_SOCKCLOSED ==> chip.status == Closed
      ensures if r == SOCKFATAL_PACKLEN then ClosedAfter(old(log), log) else log == old(log)
      ensures DatagramWaits(net.mood, old(Now())) ==> r == SOCK_OK || r == SOCKFATAL_PACKLEN
      ensures !old(nonblocking) ==> !nonblocking
      ensures r == SOCKFATAL_PACKLEN ==>
                && chip.mode == MacRaw && chip.status == Closed
                && old(begun) < |chip.frames| && |chip.frames[old(begun)].data| > MACRAW_MAX
      ensures r == SOCK_OK ==>
                && Sound() && packInfo != 0
                && begun == old(begun) + (if old(remained) == 0 then 1 else 0) && 0 < begun <= |chip.frames|
                && remained == (if old(remained) == 0 then |chip.frames[begun - 1].data| else old(remained))
                && Begun(chip, begun, remained, old(remained) == 0, chunks)
                && (old(remained) == 0 && chip.mode != MacRaw ==> addr[..] == chip.frames[begun - 1].ip)
                && (old(remained) == 0 && chip.mode == Udp ==> port == chip.frames[begun - 1].port)
      ensures old(remained) > 0 ==> r == SOCK_OK && addr[..] == old(addr[..]) && port == portIn
    {
      hide Ok, Disciplined, EnvStep, FreeSize, Taken, Unsent, Later, Still, Stored, RxShape, Positioned, Received,
        Reassemble, Paired;
      ghost var a := chip;
      if remained == 0 {
        r, port := BeginDatagram(addr, portIn);
        LaterMode(a, chip);
      } else {
        r, port := SOCK_OK, portIn;
        EnvReflexive(chip);
        EnvIsStill(chip, chip);
        StillMeans(chip, chip);
        PacketStatus(chip, begun, remained, chunks);
        ShapeGives(chip, begun, remained, chunks);
        PositionBounds(chip, begun, remained);
      }
    }

    method RecvFrom(buf: array<byte>, len: u16, addr: array<byte>, portIn: u16) returns (r: int, port: u16)
      requires Valid() && len <= buf.Length && addr.Length == 4 && buf != addr
      modifies this, buf, addr
      ensures Valid()
      ensures r <= len && RecvFromMeets(net.mood, old(Now()), len, r, buf[..if r > 0 then r else 0], Now())
      ensures r >= 0 && chunks != old(chunks) ==> IsPacketMode(chip.mode) && RxShape(chip, begun, remained, chunks)
      ensures r >= 0 && chunks != old(chunks) && old(remained) == 0 ==>
                && 0 < begun <= |chip.frames|
                && (chip.mode != MacRaw ==> addr[..] == chip.frames[begun - 1].ip)
                && (chip.mode == Udp ==> port == chip.frames[begun - 1].port)
      ensures old(remained) > 0 ==> addr[..] == old(addr[..]) && port == portIn
      ensures ios == old(ios) + [Io(ReceivingFrom(len), r, buf[..if r > 0 then r else 0], old(Now()), Now())]
    {
      hide Consistent, RecvFromMeets, RxShape;
      ghost var before := Now();
      r, port := TryRecvFrom(buf, len, addr, portIn);
      ios := ios + [Io(ReceivingFrom(len), r, buf[..if r > 0 then r else 0], before, Now())];
    }

    method TryRecvFrom(buf: array<byte>, len: u16, addr: array<byte>, portIn: u16) returns (r: int, port: u16)
      requires Valid() && len <= buf.Length && addr.Length == 4 && buf != addr
      modifies this, buf, addr
      ensures ios == old(ios)
      ensures Valid()
      ensures r <= len && RecvFromMeets(net.mood, old(Now()), len, r, buf[..if r > 0 then r else 0], Now())
      ensures r >= 0 && chunks != old(chunks) ==> IsPacketMode(chip.mode) && RxShape(chip, begun, remained, chunks)
      ensures r >= 0 && chunks != old(chunks) && old(remained) == 0 ==>
                && 0 < begun <= |chip.frames|
                && (chip.mode != MacRaw ==> addr[..] == chip.frames[begun - 1].ip)
                && (chip.mode == Udp ==> port == chip.frames[begun - 1].port)
      ensures old(remained) > 0 ==> addr[..] == old(addr[..]) && port == portIn
    {
      hide Ok, Disciplined, EnvStep, FreeSize, Taken, Unsent, Later, Still, Stored, RxShape, Positioned, Received, Reassemble,
        Piece, Met, BufferSize, PackRemained, Consistent, ShapedAt, Paired, NothingWaited, RecvFromMeets, PieceAnswer, IdleAnswer,
        Outstanding, IsPacketMode, Begun, DatagramWaits;
      port := portIn;
      ghost var a := Now();
      if !IsPacketMode(chip.mode) {
        RecvFromRefused(net.mood, a, len, SOCKERR_SOCKMODE);
        return SOCKERR_SOCKMODE, port;
      }
      if len == 0 {
        RecvFromRefused(net.mood, a, len, SOCKERR_DATALEN);
        return SOCKERR_DATALEN, port;
      }
      ghost var start := remained == 0;
      r, port := HaveDatagram(addr, portIn);
      if r != SOCK_OK {
        RecvFromNothing(net.mood, a, len, r, Now());
        return;
      }
      ghost var e := Now();
      LaterMode(a.chip, chip);
      r := TakePiece(buf, len, start);
      LaterAgain(a.chip, e.chip, chip);
      LaterMode(a.chip, chip);
      RecvFromPiece(net.mood, a, len, r, buf[..r], Now());
    }
  }

  // pack_info |= PACK_REMAINED
  function PackRemained(info: byte): (r: byte)
    ensures r != 0
  {
    if info % 2 == 1 then info else info + PACK_REMAINED
  }

  predicate RecvFromError(r: int) {
    || r == SOCKERR_SOCKMODE || r == SOCKERR_DATALEN || r == SOCKERR_SOCKCLOSED || r == SOCKFATAL_PACKLEN
  }

  lemma Awaited(c: Chip, d: Chip)
    requires Still(c, d)
    ensures Later(c, d) && d.wire == c.wire && Taken(d) == Taken(c) && Unsent(d) == Unsent(c)
    ensures d.rxRd == c.rxRd && d.rxTaken == c.rxTaken
    ensures d.status == Init ==> c.status == Init && d.inbound == c.inbound
    ensures !Live(c.status) && c.status != SynSent ==> !Live(d.status)
  {
  }

  lemma LaterExceptStatus(c: Chip, d: Chip)
    requires Later(c, d)
    ensures Later(c.(status := d.status), d)
  {
  }

  lemma LaterRelabelled(c: Chip, d: Chip, e: Chip)
    requires Later(c, d) && Later(d.(status := e.status), e)
    ensures Later(c.(status := e.status), e)
  {
  }

  lemma RoomedLater(m: Mood, a: Snap, data: seq<byte>, r: int, b: Snap)
    requires Roomed(m, a, data, r, b)
    ensures Later(a.chip, b.chip)
  {
  }

  lemma RoomBound(c: Chip)
    requires Ok(c)
    ensures FreeSize(c) <= |c.txMem|
  {
    EnvReflexive(c);
    EnvGrows(c, c);
  }

  lemma StillGone(c: Chip, d: Chip)
    requires Still(c, d) && Met(c.status) && !Live(c.status)
    ensures !Live(d.status)
  {
  }

  lemma LineGoesOn(c: Chip, d: Chip, sending: bool)
    requires LineStep(c, d)
    ensures sending && !d.sendOk ==> !c.sendOk
  {
  }

  /** What made the wait give up still holds when the CLOSE is issued. */
  lemma DesertedStill(c: Chip, d: Chip, at: Chip)
    requires Later(c, d) && Deserted(c, d) && Still(d, at)
    ensures Deserted(c, at)
  {
    hide FreeSize, Stored, Taken, Unsent;
  }

  lemma WaitingFits(c: Chip)
    requires Ok(c)
    ensures 0 <= Stored(c) <= |c.rxMem|
  {
    EnvReflexive(c);
    EnvGrows(c, c);
  }

  lemma WindowOf(c: Chip)
    requires Ok(c)
    ensures 0 <= Taken(c) <= |c.inbound|
  {
  }

  lemma LaterItself(c: Chip)
    ensures Later(c, c)
  {
  }

  /** The driver's statics after a piece has been handed over. */
  lemma DatagramConsistent(a: Chip, c: Chip, sending: bool, remained: u16, packInfo: byte, log: seq<LineEvent>,
                           begun: nat, chunks: seq<Chunk>)
    requires IsPacketMode(a.mode) && (a.status == Closed || a.status == OpenStatus(a.mode))
    requires Ok(c) && Later(a, c) && c.mode == a.mode && Unsent(c) == 0 && c.rxRd == c.rxTaken
    requires Disciplined(log) && (sending <==> Outstanding(log)) && (packInfo != 0 <==> remained != 0)
    requires Paired(c, sending)
    requires RxShape(c, begun, remained, chunks)
    ensures Consistent(c, sending, remained, packInfo, log, begun, chunks)
  {
    hide Ok, Disciplined, RxShape, Unsent, Outstanding;
  }

  lemma ReceivedKept(c: Chip, d: Chip, begun: nat, remained: nat)
    requires Later(c, d) && begun <= |c.frames|
    requires remained > 0 ==> begun > 0 && remained <= |c.frames[begun - 1].data|
    ensures begun <= |d.frames|
    ensures remained > 0 ==> d.frames[begun - 1] == c.frames[begun - 1]
    ensures Received(d.frames, begun, remained) == Received(c.frames, begun, remained)
  {
    assert d.frames[..begun] == c.frames[..begun];
    if remained > 0 {
      assert d.frames[..begun - 1] == c.frames[..begun - 1];
    }
  }

  lemma ShapeMeans(c: Chip, begun: nat, remained: nat, chunks: seq<Chunk>)
    requires Ok(c) && IsPacketMode(c.mode) && RxShape(c, begun, remained, chunks)
    ensures begun <= |c.frames|
    ensures remained > 0 ==> begun > 0 && remained <= |c.frames[begun - 1].data|
    ensures Reassemble(chunks) == Received(c.frames, begun, remained)
  {
  }

  lemma FramesPrefix(c: Chip, d: Chip, begun: nat, remained: nat)
    requires Later(c, d) && 0 < begun <= |c.frames| && remained <= |c.frames[begun - 1].data|
    ensures d.frames[..begun - 1] == c.frames[..begun - 1] && d.frames[begun - 1] == c.frames[begun - 1]
    ensures remained <= |d.frames[begun - 1].data|
    ensures Received(d.frames, begun, remained) == Received(c.frames, begun, remained)
  {
    assert d.frames[..begun] == c.frames[..begun];
  }

  /** A datagram has been begun; `start` says that none of its bytes has been handed over yet. */
  ghost predicate Begun(c: Chip, begun: nat, remained: nat, start: bool, chunks: seq<Chunk>) {
    && Ok(c) && IsPacketMode(c.mode) && (c.status == Closed || c.status == OpenStatus(c.mode))
    && 0 < begun <= |c.frames| && remained <= |c.frames[begun - 1].data| && Positioned(c, begun, remained)
    && (if start then remained == |c.frames[begun - 1].data| && Reassemble(chunks) == c.frames[..begun - 1]
        else remained > 0 && Reassemble(chunks) == Received(c.frames, begun, remained))
  }

  lemma BegunGives(c: Chip, begun: nat, remained: nat, start: bool, chunks: seq<Chunk>, n: nat)
    requires Begun(c, begun, remained, start, chunks) && n <= remained
    ensures Ok(c) && IsPacketMode(c.mode) && Met(c.status) && (c.status == Closed || c.status == OpenStatus(c.mode))
    ensures 0 < begun <= |c.frames| && remained <= |c.frames[begun - 1].data|
    ensures n <= Stored(c)
  {
    hide Ok, Positioned, Stored, Taken, Received, Reassemble;
    PayloadNext(c, begun, remained, n);
  }

  /** The next n payload bytes taken off the ring make the caller's next piece. */
  lemma PieceTaken(a: Chip, e: Chip, begun: nat, remained: nat, n: nat, chunks: seq<Chunk>, start: bool, data: seq<byte>)
    requires Ok(e) && Later(a, e) && e.mode == a.mode
    requires Begun(a, begun, remained, start, chunks) && n <= remained
    requires 0 <= Taken(a) && Taken(a) + n <= |e.inbound| && Taken(e) == Taken(a) + n
    requires data == e.inbound[Taken(a)..Taken(a) + n]
    ensures begun <= |e.frames| && e.frames[begun - 1] == a.frames[begun - 1]
    ensures RxShape(e, begun, remained - n, chunks + [Piece(start, e.frames[begun - 1], data)])
  {
    hide Ok, EnvStep, FreeSize, Taken, Unsent, Still, Stored, Positioned, Received, Reassemble, Frames, Later;
    LaterMode(a, e);
    PayloadNext(a, begun, remained, n);
    PayloadTaken(a, e, begun, remained, n);
    assert e.inbound[Taken(a)..Taken(a) + n] == a.inbound[Taken(a)..Taken(a) + n];
    FramesPrefix(a, e, begun, remained);
    ChunkHandedOver(e.mode, e.frames, begun, remained, n, chunks, Piece(start, e.frames[begun - 1], data));
  }

  lemma ReceivedAll(c: Chip, begun: nat, chunks: seq<Chunk>)
    requires Ok(c) && IsPacketMode(c.mode) && Positioned(c, begun, 0)
    requires Reassemble(chunks) == Received(c.frames, begun, 0)
    ensures begun <= |c.frames| && Reassemble(chunks) == c.frames[..begun]
  {
  }

  /** Once its header has been read, a datagram has been begun. */
  lemma HeaderBegins(b: Chip, c: Chip, begun: nat, remained: nat, chunks: seq<Chunk>)
    requires Ok(b) && IsPacketMode(b.mode) && b.status != Closed && ShapedAt(b, begun, 0, chunks)
    requires Ok(c) && Later(b, c) && begun < |c.frames| && remained == |c.frames[begun].data|
    requires IsPacketMode(c.mode) && Positioned(c, begun + 1, remained)
    ensures Begun(c, begun + 1, remained, true, chunks)
  {
    hide Ok, Reassemble, Stored, Taken, Frames;
    ShapeGives(b, begun, 0, chunks);
    ReceivedAll(b, begun, chunks);
    assert c.frames[..begun] == b.frames[..begun];
  }

  lemma PositionBounds(c: Chip, begun: nat, remained: nat)
    requires Ok(c) && IsPacketMode(c.mode) && Positioned(c, begun, remained) && remained > 0
    ensures 0 < begun <= |c.frames| && remained <= |c.frames[begun - 1].data|
  {
  }

  lemma PacketStatus(c: Chip, begun: nat, remained: nat, chunks: seq<Chunk>)
    requires Ok(c) && IsPacketMode(c.mode) && ShapedAt(c, begun, remained, chunks)
    ensures Met(c.status)
  {
  }

  lemma ShapeGives(c: Chip, begun: nat, remained: nat, chunks: seq<Chunk>)
    requires Ok(c) && IsPacketMode(c.mode) && !(c.status == Closed && remained == 0)
    requires ShapedAt(c, begun, remained, chunks)
    ensures Positioned(c, begun, remained)
    ensures Reassemble(chunks) == Received(c.frames, begun, remained)
  {
  }

  lemma UdpHeader(d: Datagram, h: seq<byte>)
    requires Fits(Udp, d) && h == Header(Udp, d)
    ensures h[..4] == d.ip && Join(h[4], h[5]) == d.port && Join(h[6], h[7]) == |d.data|
  {
    hide Join, Hi, Lo;
    JoinHiLo(d.port);
    JoinHiLo(|d.data|);
  }

  lemma MacRawHeader(d: Datagram, h: seq<byte>)
    requires Fits(MacRaw, d) && h == Header(MacRaw, d)
    ensures (Join(h[0], h[1]) - 2) % 0x1_0000 == |d.data|
  {
    hide Join, Hi, Lo;
    JoinHiLo(|d.data| + 2);
  }

  lemma IpRawHeader(d: Datagram, h: seq<byte>)
    requires Fits(IpRaw, d) && h == Header(IpRaw, d)
    ensures h[..4] == d.ip && Join(h[4], h[5]) == |d.data|
  {
    hide Join, Hi, Lo;
    JoinHiLo(|d.data|);
  }

  lemma SizesOf(c: Chip)
    requires Ok(c)
    ensures |c.txMem| >= 1024 && |c.rxMem| >= 1024
  {
  }

  lemma CloseIsLater(c: Chip)
    ensures Later(c, CloseCommand(c))
    ensures Later(c, CloseCommand(c).(sendOk := false, timeout := false))
  {
  }

  predicate SendCode(r: int) {
    r == SOCK_BUSY || r == SOCKERR_SOCKMODE || r == SOCKERR_DATALEN || r == SOCKERR_SOCKSTATUS || r == SOCKERR_TIMEOUT
  }

  lemma KeptStill(c: Chip, d: Chip, sending: bool, begun: nat, remained: nat, chunks: seq<Chunk>)
    requires Ok(c) && Ok(d) && Still(c, d)
    requires ShapedAt(c, begun, remained, chunks) && Paired(c, sending)
    ensures ShapedAt(d, begun, remained, chunks) && Paired(d, sending)
  {
    hide Ok, Stored, FreeSize, Unsent, ShapedAt, Paired;
    PairedLater(c, d, sending);
    ShapeKept(c, d, begun, remained, chunks);
  }

  lemma OpenIsFresh(c: Chip, m: Mode, tx: u16, rx: u16)
    ensures Unsent(OpenCommand(c, m, tx, rx)) == 0
  {
  }

  /** DISCON ends a connection without touching what was sent or received. */
  lemma DisconKeeps(c: Chip)
    requires Ok(c)
    ensures var d := DisconCommand(c);
            && Ok(d) && Later(c, d) && Taken(d) == Taken(c) && Unsent(d) == Unsent(c)
            && d.wire == c.wire && d.rxRd == c.rxRd && d.rxTaken == c.rxTaken && d.status != Init
            && !Live(d.status) && Paired(d, false)
  {
    hide TxOk, RxOk, FramesOk;
    Relabelled(c, DisconCommand(c));
  }

  lemma TcpShape(c: Chip, begun: nat, remained: nat, chunks: seq<Chunk>)
    requires Ok(c) && c.mode == Tcp
    ensures ShapedAt(c, begun, remained, chunks)
  {
  }

  lemma ConnectShape(c: Chip, tx: u16, rx: u16)
    ensures var d := ConnectCommand(c, tx, rx);
            && d.mode == c.mode && d.status == SynSent
            && d.rxRd == d.rxTaken && d.wire == c.wire && d.inbound == c.inbound
            && (Paired(c, false) && c.status == Init ==> Paired(d, false))
    ensures Later(c.(status := SynSent), ConnectCommand(c, tx, rx))
  {
  }

  /** What the wait for the handshake leaves the driver with. */
  lemma DialEnds(was: Chip, c: Chip, d: Chip)
    requires Ok(c) && Ok(d) && Still(c, d) && c.mode == Tcp && c.status == SynSent
    requires Later(was.(status := SynSent), c)
    requires Unsent(c) == 0 && c.rxRd == c.rxTaken && Paired(c, false)
    ensures Unsent(d) == 0 && d.rxRd == d.rxTaken && d.wire == c.wire && Taken(d) == Taken(c)
    ensures Paired(d, false) && Paired(d.(timeout := false), false) && d.status != Init && d.mode == Tcp
    ensures Later(was.(status := d.status), d) && Later(was.(status := d.status), d.(timeout := false))
    ensures FreeSize(c) <= FreeSize(d) <= |d.txMem| == |c.txMem|
  {
    hide Ok;
    PairedLater(c, d, false);
  }

  lemma OpenShape(c: Chip, m: Mode, tx: u16, rx: u16)
    requires Ok(c) && Ok(OpenCommand(c, m, tx, rx))
    ensures Taken(OpenCommand(c, m, tx, rx)) == 0
    ensures ShapedAt(OpenCommand(c, m, tx, rx), 0, 0, [])
  {
    if IsPacketMode(m) {
      assert Framed(m, []) == [];
    }
  }
}
