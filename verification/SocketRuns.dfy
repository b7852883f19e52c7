/** Whole runs of driver calls on one socket, whatever the network does in between. */
module SocketRuns {
  import opened Words
  import opened Datagrams
  import opened W5500
  import opened Sockets

  /** A run of calls from one moment to another: each begins where the one before it ended. */
  predicate Linked(a: Snap, run: seq<Io>, b: Snap) {
    if run == [] then b == a
    else
      var io := run[|run| - 1];
      io.after == b && Linked(a, run[..|run| - 1], io.before)
  }

  function Requests(run: seq<Io>): (cs: seq<Request>)
    ensures |cs| == |run|
  {
    if run == [] then [] else Requests(run[..|run| - 1]) + [run[|run| - 1].request]
  }

  /** The bytes a send call took: the first n when it returned n. */
  function Accepted(io: Io): seq<byte> {
    if io.request.Sending? && 0 < io.result <= |io.request.data| then io.request.data[..io.result] else []
  }

  /** What the send calls of a run accepted. */
  function Prefixes(run: seq<Io>): seq<byte> {
    if run == [] then [] else Prefixes(run[..|run| - 1]) + Accepted(run[|run| - 1])
  }

  /** What the recv calls of a run returned. */
  function Gotten(run: seq<Io>): seq<byte> {
    if run == [] then [] else Gotten(run[..|run| - 1]) + run[|run| - 1].bytes
  }

  ghost predicate AllMeet(m: Mood, run: seq<Io>) {
    forall io | io in run :: IoMeets(m, io)
  }

  predicate OverTcp(script: seq<Request>) {
    forall c | c in script :: !c.ReceivingFrom? && (c.Sending? ==> |c.data| < 0x1_0000)
  }

  lemma RunSnoc(m: Mood, a: Snap, run: seq<Io>, io: Io)
    requires Linked(a, run, io.before) && AllMeet(m, run) && IoMeets(m, io)
    ensures var more := run + [io];
            && Linked(a, more, io.after) && AllMeet(m, more)
            && Requests(more) == Requests(run) + [io.request]
            && Gotten(more) == Gotten(run) + io.bytes
            && Prefixes(more) == Prefixes(run) + Accepted(io)
  {
    hide IoMeets;
    var more := run + [io];
    assert more[..|more| - 1] == run;
  }

  /** Any run of send and recv calls: what goes out on the wire is the concatenation of the first n bytes
      of each send that returned n; what the recv calls returned is the next piece of the peer's stream,
      without loss or repetition. */
  lemma {:induction false} RunStreams(m: Mood, a: Snap, run: seq<Io>, b: Snap)
    requires Linked(a, run, b) && AllMeet(m, run) && OverTcp(Requests(run)) && 0 <= Taken(a.chip) <= |a.chip.inbound|
    ensures Later(a.chip, b.chip)
    ensures b.chip.wire == a.chip.wire + Prefixes(run)
    ensures Taken(b.chip) == Taken(a.chip) + |Gotten(run)| <= |b.chip.inbound|
    ensures Gotten(run) == b.chip.inbound[Taken(a.chip)..Taken(b.chip)]
  {
    hide Taken, IoMeets, Later;
    if run == [] {
      LaterItself(a.chip);
    } else {
      var front, io := run[..|run| - 1], run[|run| - 1];
      assert run == front + [io] && io in run;
      assert Requests(run) == Requests(front) + [io.request];
      assert forall c | c in Requests(front) :: c in Requests(run);
      assert io.request in Requests(run);
      RunStreams(m, a, front, io.before);
      OneCall(m, io);
      StreamStep(a.chip, io.before.chip, b.chip, Prefixes(front), Accepted(io), Gotten(front), io.bytes);
    }
  }

  lemma StreamStep(a: Chip, b: Chip, c: Chip, sent: seq<byte>, more: seq<byte>, got: seq<byte>, bytes: seq<byte>)
    requires Later(a, b) && b.wire == a.wire + sent && Later(b, c) && c.wire == b.wire + more
    requires 0 <= Taken(a) && Taken(b) == Taken(a) + |got| <= |b.inbound| && got == b.inbound[Taken(a)..Taken(b)]
    requires Taken(c) == Taken(b) + |bytes| <= |c.inbound| && bytes == c.inbound[Taken(b)..Taken(c)]
    ensures Later(a, c) && c.wire == a.wire + (sent + more)
    ensures Taken(c) == Taken(a) + |got + bytes| && got + bytes == c.inbound[Taken(a)..Taken(c)]
  {
    hide Taken, Later;
    LaterAgain(a, b, c);
    LaterMode(b, c);
  }

  lemma OneCall(m: Mood, io: Io)
    requires IoMeets(m, io) && !io.request.ReceivingFrom?
    requires 0 <= Taken(io.before.chip) <= |io.before.chip.inbound|
    ensures Later(io.before.chip, io.after.chip)
    ensures io.after.chip.wire == io.before.chip.wire + Accepted(io)
    ensures Taken(io.after.chip) == Taken(io.before.chip) + |io.bytes| <= |io.after.chip.inbound|
    ensures io.bytes == io.after.chip.inbound[Taken(io.before.chip)..Taken(io.after.chip)]
  {
    hide Taken, Calm, Blocked;
    LaterMode(io.before.chip, io.after.chip);
  }

  /** Any script of send and recv calls, and everything that came of it: one entry of the socket's record
      per call, in the order of the script, each meeting what the call promises. */
  method TcpSession(s: Socket, script: seq<Request>) returns (sent: seq<byte>, got: seq<byte>, ghost run: seq<Io>)
    requires s.Valid() && OverTcp(script)
    modifies s
    ensures s.Valid()
    ensures s.ios == old(s.ios) + run && Requests(run) == script
    ensures Linked(old(s.Now()), run, s.Now()) && AllMeet(s.net.mood, run)
    ensures sent == Prefixes(run) && got == Gotten(run)
    ensures s.chip.wire == old(s.chip.wire) + sent
    ensures var at := Taken(old(s.chip));
            && 0 <= at && at + |got| <= |s.chip.inbound|
            && got == s.chip.inbound[at..at + |got|]
    ensures old(s.chip.inbound) <= s.chip.inbound
    ensures Disciplined(s.log)
  {
    hide Ok, Disciplined, ShapedAt, Taken, Later, IoMeets, Consistent, Prefixes, Gotten, Requests, Linked, AllMeet;
    sent, got, run := [], [], [];
    ghost var was := s.Now();
    WindowNonNegative(s);
    RunStarts(s.net.mood, was);
    for i := 0 to |script|
      invariant s.Valid() && s.ios == old(s.ios) + run
      invariant Requests(run) == script[..i] && Linked(was, run, s.Now()) && AllMeet(s.net.mood, run)
      invariant sent == Prefixes(run) && got == Gotten(run)
    {
      ghost var io;
      assert script[i] in script && script[..i + 1] == script[..i] + [script[i]];
      match script[i] {
        case Sending(data) =>
          var piece;
          piece, io := SendPiece(s, data);
          sent := sent + piece;
          assert got + [] == got;
        case Receiving(len) =>
          var piece;
          piece, io := RecvPiece(s, len);
          got := got + piece;
          assert Accepted(io) == [] && sent + [] == sent;
      }
      RunSnoc(s.net.mood, was, run, io);
      run := run + [io];
    }
    assert script[..|script|] == script;
    RunStreams(s.net.mood, was, run, s.Now());
    LaterMode(was.chip, s.chip);
    DisciplineHolds(s);
  }

  lemma RunStarts(m: Mood, a: Snap)
    ensures Linked(a, [], a) && AllMeet(m, []) && Requests([]) == [] && Prefixes([]) == [] && Gotten([]) == []
  {
  }

  lemma WindowNonNegative(s: Socket)
    requires s.Valid()
    ensures 0 <= Taken(s.chip) <= |s.chip.inbound|
  {
  }

  lemma DisciplineHolds(s: Socket)
    requires s.Valid()
    ensures Disciplined(s.log)
  {
  }

  method SendPiece(s: Socket, data: seq<byte>) returns (piece: seq<byte>, ghost io: Io)
    requires s.Valid() && |data| < 0x1_0000
    modifies s
    ensures s.Valid() && s.ios == old(s.ios) + [io]
    ensures io.request == Sending(data) && io.before == old(s.Now()) && io.after == s.Now() && io.bytes == []
    ensures piece == Accepted(io)
    ensures IoMeets(s.net.mood, io)
  {
    hide Consistent, SendMeets;
    var buf := new byte[|data|](i requires 0 <= i < |data| => data[i]);
    assert buf[..] == data == buf[..|data|];
    ghost var before := s.Now();
    var n := s.Send(buf, |data|);
    io := Io(Sending(data), n, [], before, s.Now());
    SentAtMost(s.net.mood, before, data, n, s.Now());
    piece := if n > 0 then buf[..n] else [];
  }

  lemma SentAtMost(m: Mood, a: Snap, data: seq<byte>, r: int, b: Snap)
    requires SendMeets(m, a, data, r, b)
    ensures r <= |data|
  {
  }

  method RecvPiece(s: Socket, len: u16) returns (piece: seq<byte>, ghost io: Io)
    requires s.Valid()
    modifies s
    ensures s.Valid() && s.ios == old(s.ios) + [io]
    ensures io.request == Receiving(len) && io.before == old(s.Now()) && io.after == s.Now() && piece == io.bytes
    ensures IoMeets(s.net.mood, io)
  {
    hide Consistent, RecvMeets;
    var buf := new byte[len];
    ghost var before := s.Now();
    var n := s.Recv(buf, len);
    piece := if n > 0 then buf[..n] else [];
    io := Io(Receiving(len), n, piece, before, s.Now());
  }

  /** What a caller of recvfrom has collected. `handed` are the pieces of datagrams handed over, `got` all
      results counted as pieces, `seen` those that brought bytes, `idle` how often the answer was that
      nothing had arrived; count datagrams have been begun, of the newest `left` bytes are still to come. */
  ghost predicate Progress(frames: seq<Datagram>, count: nat, left: nat, handed: seq<Chunk>, got: seq<Chunk>,
                           seen: seq<Chunk>, idle: nat) {
    && count <= |frames|
    && (left > 0 ==> count > 0 && left < |frames[count - 1].data|)
    && Reassemble(handed) == Received(frames, count, left)
    && |Reassemble(got)| == count + idle && (idle == 0 ==> got == handed)
    && Reassemble(seen) == WithoutEmpty(Reassemble(handed))
  }

  /** What that means for the caller: counting every result is right iff no answer was "nothing yet";
      counting those with bytes is right iff no datagram begun was empty. */
  lemma ProgressMeans(frames: seq<Datagram>, count: nat, left: nat, handed: seq<Chunk>, got: seq<Chunk>,
                      seen: seq<Chunk>, idle: nat)
    requires Progress(frames, count, left, handed, got, seen, idle)
    ensures Reassemble(got) == Received(frames, count, left) <==> idle == 0
    ensures Reassemble(seen) == Received(frames, count, left) <==> NoneEmpty(frames[..count])
  {
    hide Reassemble, WithoutEmpty;
    var ds := Received(frames, count, left);
    WithoutEmptyIff(ds);
    if left > 0 {
      var front, d := frames[..count - 1], frames[count - 1];
      var part := d.(data := d.data[..|d.data| - left]);
      assert frames[..count] == front + [d] && ds == front + [part];
      assert d in frames[..count] && part in ds && part.data != [] && d.data != [];
      assert NoneEmpty(front) <==> NoneEmpty(frames[..count]);
      assert NoneEmpty(front) <==> NoneEmpty(ds);
    }
  }

  lemma ProgressPiece(frames: seq<Datagram>, count: nat, left: nat, handed: seq<Chunk>, got: seq<Chunk>,
                      seen: seq<Chunk>, idle: nat, c: Chunk, more: nat)
    requires Progress(frames, count, left, handed, got, seen, idle)
    requires c.start <==> left == 0
    requires !c.start ==> c.data != []
    requires var next := if left == 0 then count + 1 else count;
             && next <= |frames| && (more > 0 ==> more < |frames[next - 1].data|)
             && Reassemble(handed + [c]) == Received(frames, next, more)
    ensures var next := if left == 0 then count + 1 else count;
            Progress(frames, next, more, handed + [c], got + [c], if c.data == [] then seen else seen + [c], idle)
  {
    hide Reassemble, WithoutEmpty;
    var ds := Reassemble(handed);
    if left > 0 {
      var d := frames[count - 1];
      assert ds[|ds| - 1] == d.(data := d.data[..|d.data| - left]);
    }
    SeenSnoc(handed, seen, c);
    PiecesCount(got, c);
  }

  lemma ProgressIdle(frames: seq<Datagram>, count: nat, handed: seq<Chunk>, got: seq<Chunk>, seen: seq<Chunk>,
                     idle: nat, c: Chunk)
    requires Progress(frames, count, 0, handed, got, seen, idle) && c.start
    ensures Progress(frames, count, 0, handed, got + [c], seen, idle + 1)
  {
    hide Reassemble, WithoutEmpty;
    PiecesCount(got, c);
  }

  lemma ProgressLater(c: Chip, d: Chip, count: nat, left: nat, handed: seq<Chunk>, got: seq<Chunk>, seen: seq<Chunk>, idle: nat)
    requires Later(c, d) && Progress(c.frames, count, left, handed, got, seen, idle)
    ensures Progress(d.frames, count, left, handed, got, seen, idle)
  {
    ReceivedKept(c, d, count, left);
  }

  /** The run handed over no piece for this call: the answer was that nothing had arrived. */
  predicate Nothing(io: Io) {
    io.result >= 0 && io.after.chunks == io.before.chunks
  }

  function Idle(run: seq<Io>): nat {
    if run == [] then 0 else Idle(run[..|run| - 1]) + (if Nothing(run[|run| - 1]) then 1 else 0)
  }

  /** The piece of a result: its bytes, with the sender if it begins a datagram. */
  predicate PieceOf(io: Io, c: Chunk) {
    && c.start == (io.before.remained == 0) && c.data == io.bytes
    && (!Nothing(io) ==> io.after.chunks == io.before.chunks + [c])
  }

  /** `got` is what the results of a run come to if each counts as a piece, `seen` if each with bytes does. */
  predicate Collected(run: seq<Io>, got: seq<Chunk>, seen: seq<Chunk>) {
    if run == [] then got == [] && seen == []
    else
      var front, io := run[..|run| - 1], run[|run| - 1];
      if io.result < 0 then Collected(front, got, seen)
      else
        && got != [] && PieceOf(io, got[|got| - 1])
        && (io.result > 0 ==> seen != [] && seen[|seen| - 1] == got[|got| - 1])
        && Collected(front, got[..|got| - 1], if io.result > 0 then seen[..|seen| - 1] else seen)
  }

  function Asked(lens: seq<u16>): (cs: seq<Request>)
    ensures |cs| == |lens|
  {
    seq(|lens|, i requires 0 <= i < |lens| => ReceivingFrom(lens[i]))
  }

  lemma CollectedSnoc(run: seq<Io>, io: Io, got: seq<Chunk>, seen: seq<Chunk>, c: Chunk)
    requires Collected(run, got, seen) && (io.result >= 0 ==> PieceOf(io, c))
    ensures Collected(run + [io], if io.result >= 0 then got + [c] else got, if io.result > 0 then seen + [c] else seen)
    ensures Idle(run + [io]) == Idle(run) + (if Nothing(io) then 1 else 0)
  {
    assert (run + [io])[..|run + [io]| - 1] == run;
    assert (got + [c])[..|got + [c]| - 1] == got;
    assert (seen + [c])[..|seen + [c]| - 1] == seen;
  }

  /** Any sequence of recvfrom calls with any lengths, on a blocking or a non-blocking socket, and the record
      of those calls: the pieces handed over are the datagrams received, complete and in order with their
      senders; only the newest may lack the `left` bytes not yet asked for. A frame that cannot be ends it. */
  method ReceiveDatagrams(s: Socket, lens: seq<u16>)
    returns (got: seq<Chunk>, seen: seq<Chunk>, fatal: bool, ghost count: nat, ghost left: nat, ghost run: seq<Io>)
    requires s.Valid() && IsPacketMode(s.chip.mode) && s.chip.status != Closed
    requires s.begun == 0 && s.chunks == []
    modifies s
    ensures s.Valid()
    ensures s.ios == old(s.ios) + run && Linked(old(s.Now()), run, s.Now()) && AllMeet(s.net.mood, run)
    ensures Requests(run) <= Asked(lens) && (!fatal ==> Requests(run) == Asked(lens))
    ensures fatal <==> run != [] && run[|run| - 1].result == SOCKFATAL_PACKLEN
    ensures Collected(run, got, seen)
    ensures s.chip.mode == old(s.chip.mode) && old(s.chip.frames) <= s.chip.frames
    ensures fatal ==>
              && s.chip.mode == MacRaw && left == 0 && count == run[|run| - 1].before.begun
              && count < |s.chip.frames| && |s.chip.frames[count].data| > MACRAW_MAX
    ensures !fatal ==> count == s.begun && left == s.remained
    ensures count <= |s.chip.frames| && (left > 0 ==> count > 0 && left < |s.chip.frames[count - 1].data|)
    ensures Reassemble(s.chunks) == Received(s.chip.frames, count, left)
    ensures Reassemble(got) == Received(s.chip.frames, count, left) <==> Idle(run) == 0
    ensures !old(s.nonblocking) ==> Idle(run) == 0
    ensures Reassemble(seen) == Received(s.chip.frames, count, left) <==> NoneEmpty(s.chip.frames[..count])
    ensures s.packInfo != 0 <==> s.remained != 0
  {
    hide Ok, Disciplined, RxShape, Positioned, ShapedAt, Taken, Later, Reassemble, Received, Progress, Paired, NoneEmpty,
      Linked, AllMeet, Requests, Collected, Idle, IoMeets, PieceOf, Reception, OneReceived;
    got, seen, fatal, count, left, run := [], [], false, 0, 0, [];
    var addr := new byte[4];
    var port: u16 := 0;
    ghost var was := s.Now();
    ShapeGives(was.chip, 0, s.remained, []);
    NothingBegun(was.chip, s.remained);
    ReceptionStarts(s.net.mood, was);
    var i := 0;
    while i < |lens| && !fatal
      invariant s.Valid() && s.ios == old(s.ios) + run && i <= |lens|
      invariant Requests(run) == Asked(lens[..i]) && IsPacketMode(s.chip.mode)
      invariant Reception(s.net.mood, was, run, s.Now(), got, seen, fatal, count, left)
      decreases |lens| - i
    {
      ghost var io;
      var r, c;
      r, port, c, io := ReceiveOne(s, lens[i], addr, port);
      ReceptionStep(s.net.mood, was, run, got, seen, count, left, io, c);
      RequestsSnoc(run, io, lens, i);
      if r == SOCKFATAL_PACKLEN {
        fatal := true;
      } else if r >= 0 {
        count, left := s.begun, s.remained;
        got := got + [c];
        if r > 0 {
          seen := seen + [c];
        }
      }
      run := run + [io];
      i := i + 1;
    }
    AskedPrefix(lens, i);
    ReceptionMeans(s.net.mood, was, run, s.Now(), got, seen, fatal, count, left);
  }

  /** Where a run of recvfrom calls that began at `was` with nothing read has got to. */
  ghost predicate Reception(m: Mood, was: Snap, run: seq<Io>, now: Snap, got: seq<Chunk>, seen: seq<Chunk>,
                            fatal: bool, count: nat, left: nat) {
    && Linked(was, run, now) && AllMeet(m, run) && Collected(run, got, seen)
    && now.chip.mode == was.chip.mode && Later(was.chip, now.chip)
    && (!was.nonblocking ==> !now.nonblocking && Idle(run) == 0)
    && Progress(now.chip.frames, count, left, now.chunks, got, seen, Idle(run))
    && (fatal <==> run != [] && run[|run| - 1].result == SOCKFATAL_PACKLEN)
    && (if fatal then
          && was.chip.mode == MacRaw && left == 0 && count == run[|run| - 1].before.begun
          && count < |now.chip.frames| && |now.chip.frames[count].data| > MACRAW_MAX
        else count == now.begun && left == now.remained)
  }

  lemma ReceptionStarts(m: Mood, a: Snap)
    requires a.begun == a.remained == 0 && a.chunks == []
    ensures Reception(m, a, [], a, [], [], false, 0, 0) && Requests([]) == []
  {
  }

  /** What one call and the piece made of it come to. */
  ghost predicate OneReceived(io: Io, c: Chunk) {
    var a, r, b := io.before, io.result, io.after;
    && Later(a.chip, b.chip) && b.chip.mode == a.chip.mode
    && (!a.nonblocking ==> !b.nonblocking)
    && (r < 0 ==> b.chunks == a.chunks)
    && (r < 0 && r != SOCKFATAL_PACKLEN ==> b.begun == a.begun && b.remained == a.remained)
    && (r == SOCKFATAL_PACKLEN ==>
          && b.chip.mode == MacRaw && a.remained == 0
          && a.begun < |b.chip.frames| && |b.chip.frames[a.begun].data| > MACRAW_MAX)
    && (r >= 0 ==> PieceOf(io, c) && |c.data| == r)
    && (Nothing(io) ==> r == 0 && a.nonblocking && b.begun == a.begun && b.remained == a.remained == 0)
    && (r >= 0 && !Nothing(io) ==>
          && (!c.start ==> c.data != [])
          && b.begun == a.begun + (if a.remained == 0 then 1 else 0) && 0 < b.begun <= |b.chip.frames|
          && (b.remained > 0 ==> b.remained < |b.chip.frames[b.begun - 1].data|)
          && Reassemble(b.chunks) == Received(b.chip.frames, b.begun, b.remained))
  }

  lemma ReceptionStep(m: Mood, was: Snap, run: seq<Io>, got: seq<Chunk>, seen: seq<Chunk>, count: nat, left: nat, io: Io, c: Chunk)
    requires Reception(m, was, run, io.before, got, seen, false, count, left)
    requires IoMeets(m, io) && OneReceived(io, c)
    ensures var r := io.result;
            Reception(m, was, run + [io], io.after, if r >= 0 then got + [c] else got, if r > 0 then seen + [c] else seen,
                      r == SOCKFATAL_PACKLEN, if r >= 0 then io.after.begun else count, if r >= 0 then io.after.remained else left)
  {
    hide IoMeets, Linked, AllMeet, Collected, Idle, Requests, Progress, Later, Reassemble, Received, Gotten, Prefixes, PieceOf;
    LaterAgain(was.chip, io.before.chip, io.after.chip);
    RunSnoc(m, was, run, io);
    CollectedSnoc(run, io, got, seen, c);
    ProgressStep(got, seen, count, left, Idle(run), io, c);
  }

  lemma ProgressStep(got: seq<Chunk>, seen: seq<Chunk>, count: nat, left: nat, idle: nat, io: Io, c: Chunk)
    requires Progress(io.before.chip.frames, count, left, io.before.chunks, got, seen, idle) && OneReceived(io, c)
    requires count == io.before.begun && left == io.before.remained
    ensures var r := io.result;
            Progress(io.after.chip.frames, if r >= 0 then io.after.begun else count, if r >= 0 then io.after.remained else left,
                     io.after.chunks, if r >= 0 then got + [c] else got, if r > 0 then seen + [c] else seen,
                     idle + (if Nothing(io) then 1 else 0))
  {
    hide Progress, Later, Reassemble, Received;
    var frames := io.after.chip.frames;
    ProgressLater(io.before.chip, io.after.chip, count, left, io.before.chunks, got, seen, idle);
    if Nothing(io) {
      ProgressIdle(frames, count, io.before.chunks, got, seen, idle, c);
    } else if io.result >= 0 {
      ProgressPiece(frames, count, left, io.before.chunks, got, seen, idle, c, io.after.remained);
    }
  }

  lemma ReceptionMeans(m: Mood, was: Snap, run: seq<Io>, now: Snap, got: seq<Chunk>, seen: seq<Chunk>,
                       fatal: bool, count: nat, left: nat)
    requires Reception(m, was, run, now, got, seen, fatal, count, left)
    ensures Linked(was, run, now) && AllMeet(m, run) && Collected(run, got, seen)
    ensures fatal <==> run != [] && run[|run| - 1].result == SOCKFATAL_PACKLEN
    ensures now.chip.mode == was.chip.mode && was.chip.frames <= now.chip.frames
    ensures fatal ==>
              && was.chip.mode == MacRaw && left == 0 && count == run[|run| - 1].before.begun
              && count < |now.chip.frames| && |now.chip.frames[count].data| > MACRAW_MAX
    ensures !fatal ==> count == now.begun && left == now.remained
    ensures count <= |now.chip.frames| && (left > 0 ==> count > 0 && left < |now.chip.frames[count - 1].data|)
    ensures Reassemble(now.chunks) == Received(now.chip.frames, count, left)
    ensures Reassemble(got) == Received(now.chip.frames, count, left) <==> Idle(run) == 0
    ensures !was.nonblocking ==> Idle(run) == 0
    ensures Reassemble(seen) == Received(now.chip.frames, count, left) <==> NoneEmpty(now.chip.frames[..count])
  {
    hide Linked, AllMeet, Collected, Idle, Reassemble, Received, NoneEmpty, WithoutEmpty;
    ProgressMeans(now.chip.frames, count, left, now.chunks, got, seen, Idle(run));
  }

  lemma RequestsSnoc(run: seq<Io>, io: Io, lens: seq<u16>, i: nat)
    requires i < |lens| && Requests(run) == Asked(lens[..i]) && io.request == ReceivingFrom(lens[i])
    ensures Requests(run + [io]) == Asked(lens[..i + 1])
  {
    assert (run + [io])[..|run + [io]| - 1] == run;
    AskedSnoc(lens, i);
  }

  lemma AskedSnoc(lens: seq<u16>, i: nat)
    requires i < |lens|
    ensures Asked(lens[..i + 1]) == Asked(lens[..i]) + [ReceivingFrom(lens[i])]
  {
  }

  lemma AskedPrefix(lens: seq<u16>, i: nat)
    requires i <= |lens|
    ensures Asked(lens[..i]) <= Asked(lens) && (i == |lens| ==> Asked(lens[..i]) == Asked(lens))
  {
    assert Asked(lens[..i]) == Asked(lens)[..i];
  }

  /** One call, and the piece its caller makes of the result. */
  method ReceiveOne(s: Socket, len: u16, addr: array<byte>, port0: u16) returns (r: int, port: u16, c: Chunk, ghost io: Io)
    requires s.Valid() && IsPacketMode(s.chip.mode) && addr.Length == 4
    modifies s, addr
    ensures s.Valid() && s.chip.mode == old(s.chip.mode)
    ensures s.ios == old(s.ios) + [io] && IoMeets(s.net.mood, io)
    ensures io.request == ReceivingFrom(len) && io.result == r && io.before == old(s.Now()) && io.after == s.Now()
    ensures OneReceived(io, c)
  {
    hide Ok, Disciplined, RxShape, Positioned, Taken, Later, Reassemble, Received, Paired, ShapedAt, NothingWaited;
    ghost var a := s.Now();
    var buf := new byte[len];
    var mode, start := s.chip.mode, s.remained == 0;
    if !start {
      ShapeGives(s.chip, s.begun, s.remained, s.chunks);
      PositionBounds(s.chip, s.begun, s.remained);
    }
    r, port := s.RecvFrom(buf, len, addr, port0);
    LaterMode(a.chip, s.chip);
    io := Io(ReceivingFrom(len), r, buf[..if r > 0 then r else 0], a, s.Now());
    c := Chunk(start, [], 0, []);
    if r >= 0 {
      var ip := if mode == MacRaw then [] else addr[..];
      var from: u16 := if mode == Udp then port else 0;
      c := if start then Chunk(true, ip, from, buf[..r]) else Chunk(false, [], 0, buf[..r]);
      if s.chunks != old(s.chunks) {
        ShapeMeans(s.chip, s.begun, s.remained, s.chunks);
        FrameFits(s.chip, s.begun - 1);
      }
    }
  }

  lemma NothingBegun(c: Chip, remained: nat)
    requires Ok(c) && IsPacketMode(c.mode) && Positioned(c, 0, remained)
    ensures remained == 0
  {
  }

  lemma FrameFits(c: Chip, k: nat)
    requires Ok(c) && IsPacketMode(c.mode) && k < |c.frames|
    ensures Fits(c.mode, c.frames[k])
  {
    assert c.frames[k] in c.frames;
  }
}
