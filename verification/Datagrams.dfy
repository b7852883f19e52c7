/** Datagrams, and the framing the W5500 puts around them in a receive buffer. */
module Datagrams {
  import opened Words
  import Flat

  datatype Mode = NoMode | Tcp | Udp | IpRaw | MacRaw

  datatype Datagram = Datagram(ip: seq<byte>, port: u16, data: seq<byte>)

  predicate IsPacketMode(m: Mode) {
    m == Udp || m == IpRaw || m == MacRaw
  }

  /** What a datagram of each kind can carry; unused fields are blank. */
  predicate Fits(m: Mode, d: Datagram) {
    match m
    case Udp => |d.ip| == 4 && |d.data| < 0x1_0000
    case IpRaw => |d.ip| == 4 && d.port == 0 && |d.data| < 0x1_0000
    case MacRaw => d.ip == [] && d.port == 0 && |d.data| < 0xFFFE
    case _ => false
  }

  function HeaderSize(m: Mode): nat {
    match m
    case Udp => 8
    case IpRaw => 6
    case MacRaw => 2
    case _ => 0
  }

  function Header(m: Mode, d: Datagram): (h: seq<byte>)
    requires Fits(m, d)
    ensures |h| == HeaderSize(m)
  {
    match m
    case Udp => d.ip + [Hi(d.port), Lo(d.port), Hi(|d.data|), Lo(|d.data|)]
    case IpRaw => d.ip + [Hi(|d.data|), Lo(|d.data|)]
    case MacRaw => [Hi(|d.data| + 2), Lo(|d.data| + 2)]
    case _ => []
  }

  /** The bytes themselves: of a one-byte datagram from 192.168.0.1, in UDP from port 0x1234. */
  lemma HeaderFormat(data: seq<byte>)
    requires |data| == 1
    ensures Header(Udp, Datagram([192, 168, 0, 1], 0x1234, data)) == [192, 168, 0, 1, 0x12, 0x34, 0, 1]
    ensures Header(IpRaw, Datagram([192, 168, 0, 1], 0, data)) == [192, 168, 0, 1, 0, 1]
    ensures Header(MacRaw, Datagram([], 0, data)) == [0, 3]
  {
    assert Hi(0x1234) == 0x12 && Lo(0x1234) == 0x34;
  }

  function Frame(m: Mode, d: Datagram): seq<byte>
    requires Fits(m, d)
  {
    Header(m, d) + d.data
  }

  predicate AllFit(m: Mode, ds: seq<Datagram>) {
    forall d | d in ds :: Fits(m, d)
  }

  function Framed(m: Mode, ds: seq<Datagram>): seq<seq<byte>>
    requires AllFit(m, ds)
  {
    seq(|ds|, i requires 0 <= i < |ds| => Frame(m, ds[i]))
  }

  /** The frames of a queue of datagrams, one after the other. */
  function Frames(m: Mode, ds: seq<Datagram>): seq<byte>
    requires AllFit(m, ds)
  {
    Flat.Flatten(Framed(m, ds))
  }

  lemma FramesConcat(m: Mode, a: seq<Datagram>, b: seq<Datagram>)
    requires AllFit(m, a) && AllFit(m, b)
    ensures AllFit(m, a + b)
    ensures Frames(m, a + b) == Frames(m, a) + Frames(m, b)
  {
    assert Framed(m, a + b) == Framed(m, a) + Framed(m, b);
    Flat.FlattenConcat(Framed(m, a), Framed(m, b));
  }

  lemma FramesOne(m: Mode, d: Datagram)
    requires Fits(m, d)
    ensures Frames(m, [d]) == Frame(m, d)
  {
    assert Framed(m, [d]) == [] + [Frame(m, d)];
    Flat.FlattenSnoc([], Frame(m, d));
  }

  /** Where datagram k lies in the frames of a queue. */
  lemma FrameAt(m: Mode, ds: seq<Datagram>, k: nat)
    requires AllFit(m, ds) && k < |ds|
    ensures Fits(m, ds[k]) && AllFit(m, ds[..k]) && AllFit(m, ds[..k + 1])
    ensures var pos, h, n := |Frames(m, ds[..k])|, HeaderSize(m), |ds[k].data|;
            && pos + h + n == |Frames(m, ds[..k + 1])| <= |Frames(m, ds)|
            && Frames(m, ds)[pos..pos + h] == Header(m, ds[k])
            && Frames(m, ds)[pos + h..pos + h + n] == ds[k].data
  {
    hide Header;
    var a, d, b := ds[..k], ds[k], ds[k + 1..];
    assert d in ds;
    assert ds[..k + 1] == a + [d] && ds == ds[..k + 1] + b;
    FramesOne(m, d);
    FramesConcat(m, a, [d]);
    FramesConcat(m, ds[..k + 1], b);
    Nested(Frames(m, a), Header(m, d), d.data, Frames(m, b));
  }

  lemma Nested(a: seq<byte>, h: seq<byte>, d: seq<byte>, b: seq<byte>)
    ensures var s := a + (h + d) + b;
            && s[|a|..|a| + |h|] == h
            && s[|a| + |h|..|a| + |h| + |d|] == d
  {
  }

  /** One piece of a datagram as a caller receives it: start marks the piece that came with the
      header, and only that piece carries the sender. */
  datatype Chunk = Chunk(start: bool, ip: seq<byte>, port: u16, data: seq<byte>)

  function Piece(start: bool, d: Datagram, data: seq<byte>): Chunk {
    if start then Chunk(true, d.ip, d.port, data) else Chunk(false, [], 0, data)
  }

  /** Put the pieces handed to the caller back together. */
  function Reassemble(cs: seq<Chunk>): seq<Datagram> {
    if cs == [] then []
    else
      var before := Reassemble(cs[..|cs| - 1]);
      var c := cs[|cs| - 1];
      if c.start then before + [Datagram(c.ip, c.port, c.data)]
      else if before == [] then []
      else
        var last := before[|before| - 1];
        before[..|before| - 1] + [last.(data := last.data + c.data)]
  }

  lemma ReassembleSnoc(cs: seq<Chunk>, c: Chunk)
    ensures c.start ==> Reassemble(cs + [c]) == Reassemble(cs) + [Datagram(c.ip, c.port, c.data)]
    ensures !c.start && Reassemble(cs) != [] ==>
              var ds := Reassemble(cs);
              var last := ds[|ds| - 1];
              Reassemble(cs + [c]) == ds[..|ds| - 1] + [last.(data := last.data + c.data)]
  {
    assert (cs + [c])[..|cs|] == cs;
  }

  // ----------------------------------------------------------------------------- empty datagrams

  predicate NoneEmpty(ds: seq<Datagram>) {
    forall d | d in ds :: d.data != []
  }

  function WithoutEmpty(ds: seq<Datagram>): (r: seq<Datagram>)
    ensures |r| <= |ds| && NoneEmpty(r)
  {
    if ds == [] then []
    else
      var last := ds[|ds| - 1];
      WithoutEmpty(ds[..|ds| - 1]) + if last.data == [] then [] else [last]
  }

  lemma WithoutEmptySnoc(ds: seq<Datagram>, d: Datagram)
    ensures WithoutEmpty(ds + [d]) == WithoutEmpty(ds) + if d.data == [] then [] else [d]
  {
    assert (ds + [d])[..|ds|] == ds;
  }

  lemma {:induction false} WithoutEmptyIff(ds: seq<Datagram>)
    ensures WithoutEmpty(ds) == ds <==> NoneEmpty(ds)
  {
    if ds != [] {
      var front, last := ds[..|ds| - 1], ds[|ds| - 1];
      WithoutEmptyIff(front);
      assert ds == front + [last];
    }
  }

  /** A caller that passes over empty pieces sees the same datagrams, less the empty ones. */
  lemma SeenSnoc(handed: seq<Chunk>, seen: seq<Chunk>, c: Chunk)
    requires Reassemble(seen) == WithoutEmpty(Reassemble(handed))
    requires !c.start ==> c.data != [] && Reassemble(handed) != [] && Reassemble(handed)[|Reassemble(handed)| - 1].data != []
    ensures Reassemble(if c.data == [] then seen else seen + [c]) == WithoutEmpty(Reassemble(handed + [c]))
  {
    hide Reassemble, WithoutEmpty;
    var ds := Reassemble(handed);
    ReassembleSnoc(handed, c);
    ReassembleSnoc(seen, c);
    if c.start {
      WithoutEmptySnoc(ds, Datagram(c.ip, c.port, c.data));
    } else {
      var front, last := ds[..|ds| - 1], ds[|ds| - 1];
      assert ds == front + [last];
      WithoutEmptySnoc(front, last);
      WithoutEmptySnoc(front, last.(data := last.data + c.data));
      assert (WithoutEmpty(front) + [last])[..|WithoutEmpty(front)|] == WithoutEmpty(front);
    }
  }

  lemma PiecesCount(cs: seq<Chunk>, c: Chunk)
    requires c.start || Reassemble(cs) != []
    ensures |Reassemble(cs + [c])| == |Reassemble(cs)| + if c.start then 1 else 0
  {
    ReassembleSnoc(cs, c);
  }
}
