/** Circular memory: reading and writing runs of bytes that wrap at the end of a buffer. */
module Ring {

  function Read<T>(mem: seq<T>, start: nat, n: nat): (r: seq<T>)
    requires |mem| > 0
    ensures |r| == n
  {
    seq(n, i requires 0 <= i < n => mem[(start + i) % |mem|])
  }

  function Write<T>(mem: seq<T>, start: nat, data: seq<T>): (r: seq<T>)
    requires |mem| > 0 && |data| <= |mem|
    ensures |r| == |mem|
  {
    seq(|mem|, j requires 0 <= j < |mem| =>
      var k := (j - start) % |mem|;
      if k < |data| then data[k] else mem[j])
  }

  lemma {:induction false} AddMultiple(x: int, q: int, m: nat)
    requires m > 0
    ensures (x + q * m) % m == x % m
    decreases if q < 0 then -q else q
  {
    if q > 0 {
      AddMultiple(x, q - 1, m);
      AddOnce(x + (q - 1) * m, m);
      assert x + q * m == x + (q - 1) * m + m;
    } else if q < 0 {
      AddMultiple(x, q + 1, m);
      AddOnce(x + q * m, m);
      assert x + (q + 1) * m == x + q * m + m;
    }
  }

  lemma AddOnce(x: int, m: nat)
    requires m > 0
    ensures (x + m) % m == x % m
  {
    var q, r := x / m, x % m;
    assert x == q * m + r;
    assert x + m == (q + 1) * m + r by { assert (q + 1) * m == q * m + m; }
    Unique(x + m, q + 1, r, m);
  }

  lemma Unique(x: int, q: int, r: int, m: nat)
    requires m > 0 && x == q * m + r && 0 <= r < m
    ensures x % m == r
  {
    var q' := x / m;
    var d := q' - q;
    assert d * m == q' * m - q * m;
    assert d * m < m && 0 < d * m + m;
    if d >= 1 {
      MulGrows(d, m);
      assert false;
    }
    if d <= -1 {
      MulGrows(-d, m);
      assert false;
    }
    assert x - q * m == r;
  }

  lemma MulGrows(k: int, m: nat)
    requires k >= 1
    ensures k * m >= m
  {
    assert k * m == (k - 1) * m + m;
    assert (k - 1) * m >= 0;
  }

  /** The index at distance i from start lies at offset (start + i - base) from base. */
  lemma OffsetOf(start: int, base: int, m: nat)
    requires m > 0
    ensures (start % m - base) % m == (start - base) % m
  {
    AddMultiple(start % m - base, start / m, m);
    assert start == (start / m) * m + start % m;
  }

  lemma SmallMod(x: int, m: nat)
    requires 0 <= x < m
    ensures x % m == x
  {
  }

  /** Data just written is read back. */
  lemma ReadWritten<T>(mem: seq<T>, start: nat, data: seq<T>)
    requires |mem| > 0 && |data| <= |mem|
    ensures Read(Write(mem, start, data), start, |data|) == data
  {
    forall i | 0 <= i < |data|
      ensures Read(Write(mem, start, data), start, |data|)[i] == data[i]
    {
      OffsetOf(start + i, start, |mem|);
      SmallMod(i, |mem|);
    }
  }

  /** A write does not disturb the n bytes stored immediately before it, if both fit. */
  lemma ReadBefore<T>(mem: seq<T>, from: nat, n: nat, data: seq<T>)
    requires |mem| > 0 && n + |data| <= |mem|
    ensures Read(Write(mem, from + n, data), from, n) == Read(mem, from, n)
  {
    forall i | 0 <= i < n
      ensures Read(Write(mem, from + n, data), from, n)[i] == Read(mem, from, n)[i]
    {
      OffsetOf(from + i, from + n, |mem|);
      AddOnce(i - n, |mem|);
      SmallMod(i - n + |mem|, |mem|);
    }
  }

  lemma ReadSplit<T>(mem: seq<T>, start: nat, a: nat, b: nat)
    requires |mem| > 0
    ensures Read(mem, start, a + b) == Read(mem, start, a) + Read(mem, start + a, b)
  {
    var r := Read(mem, start, a + b);
    assert r[..a] == Read(mem, start, a);
    assert r[a..] == Read(mem, start + a, b);
  }

  lemma Shifted(s: int, t: int, i: int, m: nat)
    requires m > 0 && s % m == t % m
    ensures (s + i) % m == (t + i) % m
  {
    OffsetOf(s, -i, m);
    OffsetOf(t, -i, m);
  }

  /** Only the start modulo the buffer size matters. */
  lemma SameStart<T>(mem: seq<T>, s: nat, t: nat, n: nat)
    requires |mem| > 0 && s % |mem| == t % |mem|
    ensures Read(mem, s, n) == Read(mem, t, n)
  {
    forall i | 0 <= i < n
      ensures Read(mem, s, n)[i] == Read(mem, t, n)[i]
    {
      Shifted(s, t, i, |mem|);
    }
  }

  lemma Negated(s: int, t: int, j: int, m: nat)
    requires m > 0 && s % m == t % m
    ensures (j - s) % m == (j - t) % m
  {
    Shifted(s, t, j - s - t, m);
  }

  lemma SameStartWrite<T>(mem: seq<T>, s: nat, t: nat, data: seq<T>)
    requires |mem| > 0 && s % |mem| == t % |mem| && |data| <= |mem|
    ensures Write(mem, s, data) == Write(mem, t, data)
  {
    forall j | 0 <= j < |mem|
      ensures Write(mem, s, data)[j] == Write(mem, t, data)[j]
    {
      Negated(s, t, j, |mem|);
    }
  }

  /** Two adjacent writes are one write of the concatenation. */
  lemma WriteTwice<T>(mem: seq<T>, start: nat, a: seq<T>, b: seq<T>)
    requires |mem| > 0 && |a| + |b| <= |mem|
    ensures Write(Write(mem, start, a), start + |a|, b) == Write(mem, start, a + b)
  {
    var m := |mem|;
    forall j | 0 <= j < m
      ensures Write(Write(mem, start, a), start + |a|, b)[j] == Write(mem, start, a + b)[j]
    {
      var k := (j - start) % m;
      OffsetOf(j - start, |a|, m);
      assert (j - (start + |a|)) % m == (k - |a|) % m;
      if k < |a| {
        AddOnce(k - |a|, m);
        SmallMod(k - |a| + m, m);
      } else {
        SmallMod(k - |a|, m);
      }
    }
  }
}
