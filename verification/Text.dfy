/** C strings, and decimal numbers and ports as the console prints and parses them. */
module Text {
  import opened Words

  const SPACE: byte := 32
  const DOT: byte := 46
  const COLON: byte := 58
  const ZERO: byte := 48

  /** A C string: the bytes before the first NUL. */
  function CStr(s: seq<byte>): (r: seq<byte>)
    ensures r <= s && 0 !in r
    ensures 0 !in s ==> r == s
  {
    if s == [] || s[0] == 0 then [] else [s[0]] + CStr(s[1..])
  }

  predicate IsDigit(b: byte) {
    48 <= b <= 57
  }

  predicate AllDigits(s: seq<byte>) {
    forall b | b in s :: IsDigit(b)
  }

  predicate AllSpaces(s: seq<byte>) {
    forall b | b in s :: b == SPACE
  }

  function DecValue(ds: seq<byte>): nat
    requires AllDigits(ds)
  {
    if ds == [] then 0
    else
      assert ds[|ds| - 1] in ds;
      10 * DecValue(ds[..|ds| - 1]) + DigitValue(ds[|ds| - 1])
  }

  function DigitValue(b: byte): nat
    requires IsDigit(b)
  {
    (b - ZERO) as nat
  }

  function Decimal(n: nat): (r: seq<byte>)
    ensures r != [] && AllDigits(r)
  {
    if n < 10 then [ZERO + n] else Decimal(n / 10) + [ZERO + n % 10]
  }

  lemma {:induction false} DecimalRoundTrip(n: nat)
    ensures DecValue(Decimal(n)) == n
  {
    if n >= 10 {
      DecimalRoundTrip(n / 10);
      assert Decimal(n)[..|Decimal(n)| - 1] == Decimal(n / 10);
    } else {
      assert Decimal(n)[..0] == [];
    }
  }

  lemma DecSnoc(ds: seq<byte>, d: byte)
    requires AllDigits(ds) && IsDigit(d)
    ensures AllDigits(ds + [d])
    ensures DecValue(ds + [d]) == 10 * DecValue(ds) + DigitValue(d)
  {
    assert (ds + [d])[..|ds|] == ds;
  }

  lemma {:induction false} DecPrefix(a: seq<byte>, b: seq<byte>)
    requires AllDigits(a) && AllDigits(b)
    ensures AllDigits(a + b) && DecValue(a) <= DecValue(a + b)
  {
    if b == [] {
      assert a + b == a;
    } else {
      var front, d := b[..|b| - 1], b[|b| - 1];
      assert d in b;
      DecPrefix(a, front);
      DecSnoc(a + front, d);
      assert a + b == a + front + [d];
    }
  }

  // --------------------------------------------------------------------------------------- ports

  /** The first position from i on that does not hold a space. */
  function SpaceRun(s: seq<byte>, i: nat): (r: nat)
    requires i <= |s|
    ensures i <= r <= |s| && AllSpaces(s[i..r]) && (r < |s| ==> s[r] != SPACE)
    decreases |s| - i
  {
    if i < |s| && s[i] == SPACE then
      var r := SpaceRun(s, i + 1);
      assert s[i..r] == [s[i]] + s[i + 1..r];
      r
    else i
  }

  function DigitRun(s: seq<byte>, i: nat): (r: nat)
    requires i <= |s|
    ensures i <= r <= |s| && AllDigits(s[i..r]) && (r < |s| ==> !IsDigit(s[r]))
    decreases |s| - i
  {
    if i < |s| && IsDigit(s[i]) then
      var r := DigitRun(s, i + 1);
      assert s[i..r] == [s[i]] + s[i + 1..r];
      r
    else i
  }

  /** The port a text stands for, read from the left. */
  function PortOf(s: seq<byte>): Option<u16> {
    var i := SpaceRun(s, 0);
    var j := DigitRun(s, i);
    var v := DecValue(s[i..j]);
    if i < j && SpaceRun(s, j) == |s| && 0 < v < 0x1_0000 then Some(v) else None
  }

  /** Spaces, at least one digit, spaces. */
  predicate IsPortText(s: seq<byte>, before: seq<byte>, digits: seq<byte>, after: seq<byte>) {
    && s == before + digits + after
    && AllSpaces(before) && digits != [] && AllDigits(digits) && AllSpaces(after)
  }

  lemma {:induction false} SpacesThen(s: seq<byte>, i: nat, r: nat)
    requires i <= r <= |s| && AllSpaces(s[i..r]) && (r < |s| ==> s[r] != SPACE)
    ensures SpaceRun(s, i) == r
    decreases r - i
  {
    if i < r {
      assert s[i] in s[i..r];
      assert s[i + 1..r] == s[i..r][1..];
      var rest := s[i + 1..r];
      forall b | b in rest
        ensures b == SPACE
      {
        assert b in s[i..r];
      }
      SpacesThen(s, i + 1, r);
    }
  }

  lemma {:induction false} DigitsThen(s: seq<byte>, i: nat, r: nat)
    requires i <= r <= |s| && AllDigits(s[i..r]) && (r < |s| ==> !IsDigit(s[r]))
    ensures DigitRun(s, i) == r
    decreases r - i
  {
    if i < r {
      assert s[i] in s[i..r];
      assert s[i + 1..r] == s[i..r][1..];
      assert forall b | b in s[i + 1..r] :: b in s[i..r];
      DigitsThen(s, i + 1, r);
    }
  }

  /** A port is recognised exactly in space-padded decimals from 1 to 65535, and is their value. */
  lemma PortTextIff(s: seq<byte>, v: u16)
    ensures PortOf(s) == Some(v) <==>
              0 < v && exists a, d, b :: IsPortText(s, a, d, b) && DecValue(d) == v
  {
    hide PortOf, DecValue;
    if PortOf(s) == Some(v) {
      var a, d, b := PortFound(s, v);
    }
    if 0 < v {
      forall a, d, b | IsPortText(s, a, d, b) && DecValue(d) == v
        ensures PortOf(s) == Some(v)
      {
        PortRead(s, a, d, b);
      }
    }
  }

  lemma PortFound(s: seq<byte>, v: u16) returns (a: seq<byte>, d: seq<byte>, b: seq<byte>)
    requires PortOf(s) == Some(v)
    ensures IsPortText(s, a, d, b) && DecValue(d) == v && 0 < v
  {
    hide DecValue;
    var i := SpaceRun(s, 0);
    var j := DigitRun(s, i);
    a, d, b := s[..i], s[i..j], s[j..];
    assert s == a + d + b;
    assert a == s[0..i] && b == s[j..SpaceRun(s, j)];
  }

  lemma PortRead(s: seq<byte>, a: seq<byte>, d: seq<byte>, b: seq<byte>)
    requires IsPortText(s, a, d, b) && 0 < DecValue(d) < 0x1_0000
    ensures PortOf(s) == Some(DecValue(d))
  {
    hide DecValue;
    PortPieces(s, a, d, b);
    assert s[|a|..|a| + |d|] == d;
  }

  lemma PortPieces(s: seq<byte>, a: seq<byte>, d: seq<byte>, b: seq<byte>)
    requires IsPortText(s, a, d, b)
    ensures |a| + |d| <= |s|
    ensures SpaceRun(s, 0) == |a| && DigitRun(s, |a|) == |a| + |d| && SpaceRun(s, |a| + |d|) == |s|
  {
    hide AllSpaces, AllDigits, IsDigit;
    var j := |a| + |d|;
    Cut(s, a, d, b);
    Heads(d, b);
    SpacesThen(s, 0, |a|);
    DigitsThen(s, |a|, j);
    SpacesThen(s, j, |s|);
  }

  lemma Heads(d: seq<byte>, b: seq<byte>)
    requires d != [] && AllDigits(d) && AllSpaces(b)
    ensures IsDigit(d[0]) && d[0] != SPACE
    ensures b != [] ==> !IsDigit(b[0])
  {
    assert d[0] in d;
    assert b != [] ==> b[0] in b;
  }

  lemma Cut(s: seq<byte>, a: seq<byte>, d: seq<byte>, b: seq<byte>)
    requires s == a + d + b
    ensures |s| == |a| + |d| + |b|
    ensures s[0..|a|] == a && s[|a|..|a| + |d|] == d && s[|a| + |d|..|s|] == b
    ensures d != [] ==> s[|a|] == d[0]
    ensures b != [] ==> s[|a| + |d|] == b[0]
  {
  }

  method SkipSpaces(s: seq<byte>, from: nat) returns (i: nat)
    requires from <= |s|
    ensures i == SpaceRun(s, from)
  {
    i := from;
    while i < |s| && s[i] == SPACE
      invariant from <= i <= |s| && SpaceRun(s, i) == SpaceRun(s, from)
      decreases |s| - i
    {
      i := i + 1;
    }
  }

  // parse_port_u16; the end of s is its terminating NUL.
  method ParsePort(s: seq<byte>) returns (r: Option<u16>)
    ensures r == PortOf(s)
  {
    hide IsDigit, DecValue;
    var i := SkipSpaces(s, 0);
    ghost var end := DigitRun(s, i);
    ghost var first := i;
    if i == |s| || !IsDigit(s[i]) {
      return None;
    }
    var port: nat := 0;
    NoDigits(s, i);
    while i < |s| && IsDigit(s[i])
      invariant first <= i <= end <= |s| && DigitRun(s, i) == end
      invariant AllDigits(s[first..i]) && port == DecValue(s[first..i]) < 0x1_0000
      decreases |s| - i
    {
      DigitAt(s, first, i, end);
      port := port * 10 + DigitValue(s[i]);
      if port > 65535 {
        return None;
      }
      i := i + 1;
    }
    var k := SkipSpaces(s, i);
    if k != |s| || port == 0 {
      return None;
    }
    r := Some(port);
  }

  lemma NoDigits(s: seq<byte>, i: nat)
    requires i <= |s|
    ensures AllDigits(s[i..i]) && DecValue(s[i..i]) == 0
  {
  }

  /** One more digit of a run, and what it means for the value of the whole run. */
  lemma DigitAt(s: seq<byte>, first: nat, i: nat, end: nat)
    requires first <= i < end <= |s| && AllDigits(s[first..i]) && IsDigit(s[i]) && end == DigitRun(s, first)
    ensures AllDigits(s[first..i + 1])
    ensures DecValue(s[first..i + 1]) == 10 * DecValue(s[first..i]) + DigitValue(s[i])
    ensures DecValue(s[first..i + 1]) <= DecValue(s[first..end])
  {
    assert s[first..i + 1] == s[first..i] + [s[i]];
    DecSnoc(s[first..i], s[i]);
    assert s[first..end] == s[first..i + 1] + s[i + 1..end];
    assert forall b | b in s[i + 1..end] :: b in s[first..end];
    DecPrefix(s[first..i + 1], s[i + 1..end]);
  }

  // the port part of the "show" command
  method PrintPort(port: u16) returns (r: seq<byte>)
    ensures r == Decimal(port)
  {
    if port == 0 {
      return [ZERO];
    }
    var rev := new byte[5];
    var p: nat := port;
    var n: nat := 0;
    while p > 0 && n < 5
      invariant 0 <= n <= 5
      invariant p < Shift(5 - n)
      invariant Decimal(port) == Leading(p) + Backwards(rev[..n])
    {
      ghost var before := rev[..n];
      rev[n] := ZERO + p % 10;
      assert rev[..n + 1] == before + [ZERO + p % 10];
      MoveDigit(p, before);
      p, n := p / 10, n + 1;
    }
    r := [];
    while n > 0
      invariant 0 <= n <= 5 && Decimal(port) == r + Backwards(rev[..n])
    {
      n := n - 1;
      assert rev[..n + 1][..n] == rev[..n];
      r := r + [rev[n]];
    }
  }

  /** The digits still to be written: none once the value is used up. */
  function Leading(p: nat): seq<byte> {
    if p == 0 then [] else Decimal(p)
  }

  function Shift(k: nat): nat {
    if k == 0 then 1 else 10 * Shift(k - 1)
  }

  function Backwards(s: seq<byte>): seq<byte> {
    if s == [] then [] else [s[|s| - 1]] + Backwards(s[..|s| - 1])
  }

  lemma MoveDigit(p: nat, done: seq<byte>)
    requires p > 0
    ensures Leading(p) + Backwards(done) == Leading(p / 10) + Backwards(done + [ZERO + p % 10])
  {
    var d := ZERO + p % 10;
    LeadingDigit(p);
    assert (done + [d])[..|done|] == done;
    hide Leading;
    calc {
      Leading(p) + Backwards(done);
      Leading(p / 10) + [d] + Backwards(done);
      Leading(p / 10) + ([d] + Backwards(done));
    }
  }

  lemma LeadingDigit(p: nat)
    requires p > 0
    ensures Leading(p) == Leading(p / 10) + [ZERO + p % 10]
  {
  }
}
