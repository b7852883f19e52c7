/**
 * A W5500 ring buffer addressed by free-running 16-bit pointers, as a window on an unbounded
 * byte stream. The buffer size divides 65536, so a pointer may wrap without losing its place.
 */
module StreamRing {
  import opened Words
  import Ring

  predicate BufferSize(s: nat) {
    s == 1024 || s == 2048 || s == 4096 || s == 8192 || s == 16384
  }

  function Dist(later: u16, earlier: u16): u16 {
    (later - earlier) % 0x1_0000
  }

  function Advance(p: u16, n: nat): u16 {
    (p + n) % 0x1_0000
  }

  /** The n bytes at p are the last n bytes of the stream. */
  ghost predicate Holds(mem: seq<byte>, p: u16, n: nat, stream: seq<byte>) {
    && BufferSize(|mem|)
    && n <= |mem|
    && n <= |stream|
    && Ring.Read(mem, p, n) == stream[|stream| - n..]
  }

  lemma HoldsNothing(mem: seq<byte>, p: u16, stream: seq<byte>)
    requires BufferSize(|mem|)
    ensures Holds(mem, p, 0, stream)
  {
  }

  lemma WrapInRing(p: nat, size: nat)
    requires BufferSize(size)
    ensures p % 0x1_0000 % size == p % size
  {
  }

  lemma DistAdvance(p: u16, q: u16, n: nat)
    requires Dist(p, q) + n < 0x1_0000
    ensures Dist(Advance(p, n), q) == Dist(p, q) + n
  {
  }

  lemma AdvanceTwice(p: u16, a: nat, b: nat)
    ensures Advance(Advance(p, a), b) == Advance(p, a + b)
  {
  }

  lemma DistSum(a: u16, b: u16, c: u16)
    requires Dist(c, b) + Dist(b, a) < 0x1_0000
    ensures Dist(c, a) == Dist(c, b) + Dist(b, a)
  {
  }

  lemma AdvanceBy(p: u16, q: u16)
    ensures p == Advance(q, Dist(p, q))
  {
  }

  lemma Closer(end: u16, a: u16, b: u16)
    requires Dist(end, b) <= Dist(end, a)
    ensures b == Advance(a, Dist(end, a) - Dist(end, b))
  {
  }

  lemma Contiguous(mem: seq<byte>, from: u16, at: u16, n: nat, u: nat)
    requires BufferSize(|mem|) && at == Advance(from, n)
    ensures Ring.Read(mem, from, n + u) == Ring.Read(mem, from, n) + Ring.Read(mem, at, u)
  {
    WrapInRing(from + n, |mem|);
    Ring.SameStart(mem, at, from + n, u);
    Ring.ReadSplit(mem, from, n, u);
  }

  lemma Take(s: seq<byte>, a: seq<byte>, b: seq<byte>)
    requires s == a + b
    ensures s[..|a|] == a && s[|a|..] == b
  {
  }

  /** Releasing the k oldest bytes. */
  lemma Drop(mem: seq<byte>, p: u16, q: u16, n: nat, k: nat, stream: seq<byte>)
    requires Holds(mem, p, n, stream) && k <= n && q == Advance(p, k)
    ensures Holds(mem, q, n - k, stream)
  {
    Contiguous(mem, p, q, k, n - k);
    var whole := Ring.Read(mem, p, n);
    Take(whole, Ring.Read(mem, p, k), Ring.Read(mem, q, n - k));
    assert whole[k..] == stream[|stream| - (n - k)..];
  }

  /** The k oldest bytes are the next ones of the stream. */
  lemma Front(mem: seq<byte>, p: u16, n: nat, k: nat, stream: seq<byte>)
    requires Holds(mem, p, n, stream) && k <= n
    ensures var at := |stream| - n;
            Ring.Read(mem, p, k) == stream[at..at + k]
  {
    var q := Advance(p, k);
    Contiguous(mem, p, q, k, n - k);
    var whole := Ring.Read(mem, p, n);
    Take(whole, Ring.Read(mem, p, k), Ring.Read(mem, q, n - k));
    assert whole[..k] == stream[|stream| - n..][..k];
  }

  lemma SuffixGrows(s: seq<byte>, x: seq<byte>, n: nat)
    requires n <= |s|
    ensures (s + x)[|s| - n..] == s[|s| - n..] + x
  {
  }

  /** Extending the window over u bytes that already lie behind it. */
  lemma Extend(mem: seq<byte>, p: u16, at: u16, n: nat, u: nat, stream: seq<byte>)
    requires Holds(mem, p, n, stream) && at == Advance(p, n) && n + u <= |mem|
    ensures Holds(mem, p, n + u, stream + Ring.Read(mem, at, u))
  {
    Contiguous(mem, p, at, n, u);
    SuffixGrows(stream, Ring.Read(mem, at, u), n);
  }

  /** Writing behind the window, into free space, leaves the window alone. */
  lemma WriteBehind(mem: seq<byte>, p: u16, at: u16, n: nat, stream: seq<byte>, x: seq<byte>)
    requires Holds(mem, p, n, stream) && at == Advance(p, n) && n + |x| <= |mem|
    ensures var after := Ring.Write(mem, at, x);
            Holds(after, p, n, stream) && Ring.Read(after, at, |x|) == x
  {
    WrapInRing(p + n, |mem|);
    Ring.SameStartWrite(mem, at, p + n, x);
    Ring.ReadBefore(mem, p, n, x);
    Ring.ReadWritten(mem, at, x);
  }

  lemma Append(mem: seq<byte>, p: u16, at: u16, n: nat, stream: seq<byte>, x: seq<byte>)
    requires Holds(mem, p, n, stream) && at == Advance(p, n) && n + |x| <= |mem|
    ensures Holds(Ring.Write(mem, at, x), p, n + |x|, stream + x)
  {
    WriteBehind(mem, p, at, n, stream, x);
    Extend(Ring.Write(mem, at, x), p, at, n, |x|, stream);
  }

  /** Arrival of x behind the n stored bytes. */
  lemma Arrival(mem: seq<byte>, taken: u16, wr: u16, stream: seq<byte>, x: seq<byte>)
    requires Holds(mem, taken, Dist(wr, taken), stream) && Dist(wr, taken) + |x| <= |mem|
    ensures var after := Advance(wr, |x|);
            && Dist(after, taken) == Dist(wr, taken) + |x|
            && Holds(Ring.Write(mem, wr, x), taken, Dist(after, taken), stream + x)
  {
    DistAdvance(wr, taken, |x|);
    AdvanceBy(wr, taken);
    Append(mem, taken, wr, Dist(wr, taken), stream, x);
  }

  lemma WriteTwice(mem: seq<byte>, at: u16, x: seq<byte>, y: seq<byte>)
    requires BufferSize(|mem|) && |x| + |y| <= |mem|
    ensures Ring.Write(Ring.Write(mem, at, x), Advance(at, |x|), y) == Ring.Write(mem, at, x + y)
  {
    WrapInRing(at + |x|, |mem|);
    Ring.SameStartWrite(Ring.Write(mem, at, x), Advance(at, |x|), at + |x|, y);
    Ring.WriteTwice(mem, at, x, y);
  }
}
