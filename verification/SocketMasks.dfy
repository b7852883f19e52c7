/** The driver's 16-bit masks with one bit per socket: what is done to one socket's bit leaves the
    bits of the others alone, so each socket may be looked at by itself. */
module SocketMasks {

  type SocketNumber = x: nat | x < 8

  function Bit(sn: SocketNumber): bv16 {
    1 << sn
  }

  predicate Hits(mask: bv16, bits: bv16) {
    mask & bits != 0
  }

  function Raise(mask: bv16, bits: bv16): bv16 {
    mask | bits
  }

  function Lower(mask: bv16, bits: bv16): bv16 {
    mask & !bits
  }

  /** Bit sn of a mask. */
  predicate Has(mask: bv16, sn: SocketNumber) {
    Hits(mask, Bit(sn))
  }

  // sock_is_sending |= (1 << sn)
  function Set(mask: bv16, sn: SocketNumber): bv16 {
    Raise(mask, Bit(sn))
  }

  // sock_is_sending &= ~(1 << sn)
  function Cleared(mask: bv16, sn: SocketNumber): bv16 {
    Lower(mask, Bit(sn))
  }

  // (flag & SF_IO_NONBLOCK) << sn
  function FlagBit(flag: bv16, sn: SocketNumber): bv16 {
    (flag & 1) << sn
  }

  predicate NonBlocking(flag: bv16) {
    flag & 1 != 0
  }

  /** socket()'s update of sock_io_mode. */
  function IoMode(mask: bv16, flag: bv16, sn: SocketNumber): bv16 {
    Raise(Cleared(mask, sn), FlagBit(flag, sn))
  }

  lemma BitsDiffer(a: SocketNumber, b: SocketNumber)
    ensures Hits(Bit(a), Bit(b)) <==> a == b
    ensures Bit(a) == Bit(b) <==> a == b
    ensures Bit(a) != 0
  {
  }

  lemma HitsSame(p: bv16, q: bv16, y: bv16)
    requires p & y == q & y
    ensures Hits(p, y) <==> Hits(q, y)
  {
  }

  lemma Misses(x: bv16, y: bv16)
    requires !Hits(x, y)
    ensures x & y == 0
  {
  }

  lemma RaiseHits(m: bv16, x: bv16, y: bv16)
    requires !Hits(x, y)
    ensures Hits(Raise(m, x), y) <==> Hits(m, y)
  {
    hide Hits, Raise;
    Misses(x, y);
    RaiseOther(m, x, y);
    HitsSame(Raise(m, x), m, y);
  }

  lemma RaiseOther(m: bv16, x: bv16, y: bv16)
    requires x & y == 0
    ensures Raise(m, x) & y == m & y
  {
    assert (m | x) & y == (m & y) | (x & y);
  }

  lemma RaiseThere(m: bv16, x: bv16)
    requires x != 0
    ensures Hits(Raise(m, x), x)
  {
    assert (m | x) & x == x;
  }

  lemma LowerHits(m: bv16, x: bv16, y: bv16)
    requires !Hits(x, y)
    ensures Hits(Lower(m, x), y) <==> Hits(m, y)
  {
    hide Hits, Lower;
    Misses(x, y);
    LowerOther(m, x, y);
    HitsSame(Lower(m, x), m, y);
  }

  lemma LowerOther(m: bv16, x: bv16, y: bv16)
    requires x & y == 0
    ensures Lower(m, x) & y == m & y
  {
    assert m & !x & y == m & (!x & y);
    assert !x & y == y;
  }

  lemma LowerGone(m: bv16, x: bv16)
    ensures !Hits(Lower(m, x), x)
  {
  }

  lemma SetBits(mask: bv16, a: SocketNumber, b: SocketNumber)
    ensures Has(Set(mask, a), b) <==> a == b || Has(mask, b)
  {
    hide Bit, Hits, Raise, Lower;
    BitsDiffer(a, b);
    if a == b {
      RaiseThere(mask, Bit(a));
    } else {
      RaiseHits(mask, Bit(a), Bit(b));
    }
  }

  lemma ClearedBits(mask: bv16, a: SocketNumber, b: SocketNumber)
    ensures Has(Cleared(mask, a), b) <==> a != b && Has(mask, b)
  {
    hide Bit, Hits, Raise, Lower;
    BitsDiffer(a, b);
    if a == b {
      LowerGone(mask, Bit(a));
    } else {
      LowerHits(mask, Bit(a), Bit(b));
    }
  }

  lemma IoModeBits(mask: bv16, flag: bv16, a: SocketNumber, b: SocketNumber)
    ensures Has(IoMode(mask, flag, a), b) <==> if a == b then NonBlocking(flag) else Has(mask, b)
  {
    hide Bit, Hits, Raise, Lower, Cleared, FlagBit, NonBlocking;
    ClearedBits(mask, a, b);
    FlagBits(flag, a);
    NothingRaised(Cleared(mask, a));
    SetBits(Cleared(mask, a), a, b);
  }

  lemma NothingRaised(m: bv16)
    ensures Raise(m, 0) == m
  {
  }

  lemma FlagBits(flag: bv16, sn: SocketNumber)
    ensures FlagBit(flag, sn) == if NonBlocking(flag) then Bit(sn) else 0
  {
    assert flag & 1 == 0 || flag & 1 == 1;
  }
}
