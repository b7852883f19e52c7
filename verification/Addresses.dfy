/** IPv4 addresses and broker endpoints as the console prints and parses them. */
module Addresses {
  import opened Words
  import opened Text

  type Ip = s: seq<byte> | |s| == 4 witness [0, 0, 0, 0]

  /** What a parse leaves behind: the address it was working on and whether it was accepted. */
  datatype Parsed = Parsed(ip: Ip, ok: bool)

  // ------------------------------------------------------------------------------ what is meant

  /** Fields joined by dots, followed by some other text. */
  function Dotted(fields: seq<seq<byte>>, rest: seq<byte>): seq<byte>
    requires fields != []
  {
    if |fields| == 1 then fields[0] + rest else fields[0] + [DOT] + Dotted(fields[1..], rest)
  }

  /** Text at which reading an address stops. */
  predicate Stops(rest: seq<byte>) {
    rest == [] || (!IsDigit(rest[0]) && rest[0] != DOT)
  }

  /** A field is a run of digits, possibly empty, worth at most 255. */
  predicate IsField(d: seq<byte>) {
    AllDigits(d) && DecValue(d) < 256
  }

  predicate AreFields(fields: seq<seq<byte>>) {
    forall k | 0 <= k < |fields| :: IsField(fields[k])
  }

  function Values(fields: seq<seq<byte>>): (r: seq<byte>)
    requires AreFields(fields)
    ensures |r| == |fields|
  {
    if fields == [] then [] else [DecValue(fields[0])] + Values(fields[1..])
  }

  /** The address written with four decimal fields. */
  function IpFields(ip: Ip): (r: seq<seq<byte>>)
    ensures |r| == 4
  {
    [Decimal(ip[0]), Decimal(ip[1]), Decimal(ip[2]), Decimal(ip[3])]
  }

  function IpText(ip: Ip): seq<byte> {
    Dotted(IpFields(ip), [])
  }

  // ------------------------------------------------------------------------------------ reading

  /** Reading on from field number octet, whose digits so far are worth val. */
  function ScanIp(s: seq<byte>, ip: Ip, octet: nat, val: byte): (r: Parsed)
    requires octet <= 3
    ensures r.ip[..octet] == ip[..octet]
    ensures !r.ok ==> r.ip[3] == ip[3]
  {
    if s != [] && IsDigit(s[0]) then
      var v := 10 * val + DigitValue(s[0]);
      if v > 255 then Parsed(ip, false) else ScanIp(s[1..], ip, octet, v)
    else if s != [] && s[0] == DOT then
      if octet >= 3 then Parsed(ip, false) else ScanIp(s[1..], ip[octet := val], octet + 1, 0)
    else if octet != 3 then Parsed(ip, false)
    else Parsed(ip[3 := val], true)
  }

  // parse_ip; the end of s is its terminating NUL, and str its unread part.
  method ParseIp(s: seq<byte>, ip0: Ip) returns (ip: Ip, ok: bool)
    ensures Parsed(ip, ok) == ScanIp(s, ip0, 0, 0)
  {
    ip := ip0;
    var octet: nat := 0;
    var val: nat := 0;
    var str := s;
    while str != []
      invariant octet <= 3 && val < 256
      invariant ScanIp(str, ip, octet, val) == ScanIp(s, ip0, 0, 0)
      decreases |str|
    {
      if IsDigit(str[0]) {
        val := val * 10 + DigitValue(str[0]);
        if val > 255 {
          return ip, false;
        }
      } else if str[0] == DOT {
        if octet >= 3 {
          return ip, false;
        }
        ip := ip[octet := val];
        octet := octet + 1;
        val := 0;
      } else {
        break;
      }
      str := str[1..];
    }
    if octet != 3 {
      return ip, false;
    }
    ip := ip[3 := val];
    ok := true;
  }

  /** The digits of one field are read as a whole when they are worth at most 255. */
  lemma {:induction false} FieldRead(d: seq<byte>, tail: seq<byte>, ip: Ip, octet: nat, before: seq<byte>)
    requires octet <= 3 && AllDigits(before) && AllDigits(d) && IsField(before + d)
    ensures DecValue(before) < 256
    ensures ScanIp(d + tail, ip, octet, DecValue(before)) == ScanIp(tail, ip, octet, DecValue(before + d))
    decreases |d|
  {
    hide DecValue, IsDigit;
    DecPrefix(before, d);
    if d == [] {
      assert before + d == before && d + tail == tail;
    } else {
      var more := before + [d[0]];
      assert d[0] in d;
      DecSnoc(before, d[0]);
      assert before + d == more + d[1..];
      DecPrefix(more, d[1..]);
      FieldRead(d[1..], tail, ip, octet, more);
      assert (d + tail)[0] == d[0] && (d + tail)[1..] == d[1..] + tail;
    }
  }

  lemma FieldAndDot(d: seq<byte>, tail: seq<byte>, ip: Ip, octet: nat)
    requires octet < 3 && IsField(d)
    ensures ScanIp(d + [DOT] + tail, ip, octet, 0) == ScanIp(tail, ip[octet := DecValue(d)], octet + 1, 0)
  {
    NoDigits([], 0);
    assert [] + d == d && d + [DOT] + tail == d + ([DOT] + tail);
    FieldRead(d, [DOT] + tail, ip, octet, []);
    assert ([DOT] + tail)[1..] == tail;
  }

  lemma LastField(d: seq<byte>, rest: seq<byte>, ip: Ip)
    requires IsField(d) && Stops(rest)
    ensures ScanIp(d + rest, ip, 3, 0) == Parsed(ip[3 := DecValue(d)], true)
  {
    NoDigits([], 0);
    assert [] + d == d;
    FieldRead(d, rest, ip, 3, []);
  }

  /** Dotted fields that fill up the address are accepted. */
  lemma {:induction false} DottedRead(fields: seq<seq<byte>>, rest: seq<byte>, ip: Ip, octet: nat)
    requires fields != [] && |fields| == 4 - octet && AreFields(fields) && Stops(rest)
    ensures octet <= 3
    ensures ScanIp(Dotted(fields, rest), ip, octet, 0) == Parsed(ip[..octet] + Values(fields), true)
    decreases |fields|
  {
    hide ScanIp, Stops, DecValue;
    var d, more := fields[0], fields[1..];
    if |fields| == 1 {
      LastField(d, rest, ip);
      assert Values(fields) == [DecValue(d)];
      assert ip[3 := DecValue(d)] == ip[..3] + [DecValue(d)];
    } else {
      var next := ip[octet := DecValue(d)];
      FieldAndDot(d, Dotted(more, rest), ip, octet);
      DottedRead(more, rest, next, octet + 1);
      PutNext(ip, octet, DecValue(d), Values(more));
    }
  }

  lemma PutNext(ip: Ip, octet: nat, v: byte, vs: seq<byte>)
    requires octet < 4
    ensures ip[octet := v][..octet + 1] + vs == ip[..octet] + ([v] + vs)
  {
    assert ip[octet := v][..octet + 1] == ip[..octet] + [v];
  }

  /** What was accepted was four dotted fields. */
  lemma {:induction false} DottedFound(s: seq<byte>, ip: Ip, octet: nat, before: seq<byte>)
    returns (fields: seq<seq<byte>>, rest: seq<byte>)
    requires octet <= 3 && IsField(before) && ScanIp(s, ip, octet, DecValue(before)).ok
    ensures |fields| == 4 - octet && AreFields(fields) && Stops(rest)
    ensures before + s == Dotted(fields, rest)
    ensures ScanIp(s, ip, octet, DecValue(before)).ip == ip[..octet] + Values(fields)
    decreases |s|
  {
    hide DecValue;
    var val := DecValue(before);
    if s != [] && IsDigit(s[0]) {
      DecSnoc(before, s[0]);
      fields, rest := DottedFound(s[1..], ip, octet, before + [s[0]]);
      assert before + s == before + [s[0]] + s[1..];
    } else if s != [] && s[0] == DOT {
      NoDigits([], 0);
      var more;
      more, rest := DottedFound(s[1..], ip[octet := val], octet + 1, []);
      fields := [before] + more;
      assert fields[1..] == more;
      assert before + s == before + [DOT] + ([] + s[1..]);
      assert ip[octet := val][..octet + 1] == ip[..octet] + [val];
    } else {
      fields, rest := [before], s;
      assert Values(fields[1..]) == [];
      assert ip[3 := val] == ip[..3] + [val];
    }
  }

  /** An address is accepted exactly in four dotted fields worth at most 255, and is their values. */
  lemma IpTextIff(s: seq<byte>, ip: Ip, v: Ip)
    ensures ScanIp(s, ip, 0, 0) == Parsed(v, true) <==>
              exists f, rest :: |f| == 4 && AreFields(f) && Stops(rest) && s == Dotted(f, rest) && v == Values(f)
  {
    hide ScanIp, Dotted, DecValue, Values, Stops, AreFields;
    if ScanIp(s, ip, 0, 0) == Parsed(v, true) {
      NoDigits([], 0);
      var f, rest := DottedFound(s, ip, 0, []);
      assert [] + s == s && ip[..0] + Values(f) == Values(f);
    }
    forall f: seq<seq<byte>>, rest | |f| == 4 && AreFields(f) && Stops(rest) && s == Dotted(f, rest) && v == Values(f)
      ensures ScanIp(s, ip, 0, 0) == Parsed(v, true)
    {
      DottedRead(f, rest, ip, 0);
      assert ip[..0] + Values(f) == Values(f);
    }
  }

  // ------------------------------------------------------------------- what a refused address leaves

  /** The values of the fields that a dot ends before reading stops. */
  function Closed(s: seq<byte>, octet: nat, val: byte): (r: seq<byte>)
    requires octet <= 3
    ensures |r| <= 3 - octet
  {
    if s != [] && IsDigit(s[0]) then
      var v := 10 * val + DigitValue(s[0]);
      if v > 255 then [] else Closed(s[1..], octet, v)
    else if s != [] && s[0] == DOT && octet < 3 then [val] + Closed(s[1..], octet + 1, 0)
    else []
  }

  function Over(ip: Ip, vs: seq<byte>): Ip
    requires |vs| <= 4
  {
    vs + ip[|vs|..]
  }

  /** A refused address has overwritten exactly the octets of its closed fields. */
  lemma {:induction false} RefusedLeaves(s: seq<byte>, ip: Ip, octet: nat, val: byte)
    requires octet <= 3 && !ScanIp(s, ip, octet, val).ok
    ensures ScanIp(s, ip, octet, val).ip == Over(ip, ip[..octet] + Closed(s, octet, val))
    decreases |s|
  {
    if s != [] && IsDigit(s[0]) {
      var v := 10 * val + DigitValue(s[0]);
      if v <= 255 {
        RefusedLeaves(s[1..], ip, octet, v);
      }
    } else if s != [] && s[0] == DOT && octet < 3 {
      var next := ip[octet := val];
      RefusedLeaves(s[1..], next, octet + 1, 0);
      assert next[..octet + 1] + Closed(s[1..], octet + 1, 0) == ip[..octet] + ([val] + Closed(s[1..], octet + 1, 0));
    }
  }

  /** The closed fields are whole fields of the text, each followed by its dot. */
  lemma {:induction false} ClosedFields(s: seq<byte>, octet: nat, before: seq<byte>)
    returns (fields: seq<seq<byte>>, rest: seq<byte>)
    requires octet <= 3 && IsField(before)
    ensures AreFields(fields) && Values(fields) == Closed(s, octet, DecValue(before))
    ensures before + s == Dotted(fields + [[]], rest)
    decreases |s|
  {
    hide DecValue, Dotted, Values;
    var val := DecValue(before);
    fields, rest := [], before + s;
    NoFieldMore(before + s);
    if s != [] && IsDigit(s[0]) {
      DecSnoc(before, s[0]);
      if 10 * val + DigitValue(s[0]) <= 255 {
        fields, rest := ClosedFields(s[1..], octet, before + [s[0]]);
        assert before + s == before + [s[0]] + s[1..];
      }
    } else if s != [] && s[0] == DOT && octet < 3 {
      NoDigits([], 0);
      var more;
      more, rest := ClosedFields(s[1..], octet + 1, []);
      fields := [before] + more;
      OneFieldMore(before, more, rest);
      assert before + s == before + [DOT] + ([] + s[1..]);
    }
  }

  lemma NoFieldMore(text: seq<byte>)
    ensures var none: seq<seq<byte>> := [];
            Values(none) == [] && Dotted(none + [[]], text) == text
  {
    var none: seq<seq<byte>> := [];
    assert none + [[]] == [[]];
    assert [] + text == text;
  }

  lemma OneFieldMore(d: seq<byte>, more: seq<seq<byte>>, rest: seq<byte>)
    requires IsField(d) && AreFields(more)
    ensures AreFields([d] + more) && Values([d] + more) == [DecValue(d)] + Values(more)
    ensures Dotted([d] + more + [[]], rest) == d + [DOT] + Dotted(more + [[]], rest)
  {
    hide IsField, DecValue;
    assert ([d] + more)[1..] == more && ([d] + more + [[]])[1..] == more + [[]];
  }

  /** The address a text stands for, if it is one. */
  function AddressOf(s: seq<byte>): Option<Ip> {
    var parsed := ScanIp(s, [0, 0, 0, 0], 0, 0);
    if parsed.ok then Some(parsed.ip) else None
  }

  lemma SameWhatever(s: seq<byte>, ip: Ip, other: Ip)
    requires ScanIp(s, ip, 0, 0).ok
    ensures ScanIp(s, other, 0, 0) == ScanIp(s, ip, 0, 0)
  {
    hide ScanIp;
    NoDigits([], 0);
    var f, rest := DottedFound(s, ip, 0, []);
    assert [] + s == s && ip[..0] + Values(f) == other[..0] + Values(f);
    DottedRead(f, rest, other, 0);
  }

  /** What reading leaves is the address read, or the closed fields over what was there. */
  lemma ScanLeaves(s: seq<byte>, ip: Ip)
    ensures ScanIp(s, ip, 0, 0) == match AddressOf(s)
                                   case Some(v) => Parsed(v, true)
                                   case None => Parsed(Over(ip, Closed(s, 0, 0)), false)
  {
    hide ScanIp, Closed;
    if ScanIp(s, ip, 0, 0).ok {
      SameWhatever(s, ip, [0, 0, 0, 0]);
    } else {
      if ScanIp(s, [0, 0, 0, 0], 0, 0).ok {
        SameWhatever(s, [0, 0, 0, 0], ip);
      }
      RefusedLeaves(s, ip, 0, 0);
      assert ip[..0] + Closed(s, 0, 0) == Closed(s, 0, 0);
    }
  }

  /** Reading a text leaves this address as it was. */
  predicate Spares(s: seq<byte>, ip: Ip) {
    match AddressOf(s)
    case Some(v) => v == ip
    case None => Closed(s, 0, 0) <= ip
  }

  lemma SparesIff(s: seq<byte>, ip: Ip)
    ensures ScanIp(s, ip, 0, 0).ip == ip <==> Spares(s, ip)
  {
    hide ScanIp, Closed;
    ScanLeaves(s, ip);
    OverIff(ip, Closed(s, 0, 0));
  }

  lemma OverIff(ip: Ip, vs: seq<byte>)
    requires |vs| <= 4
    ensures Over(ip, vs) == ip <==> vs <= ip
  {
    assert Over(ip, vs)[..|vs|] == vs;
  }

  // ----------------------------------------------------------------------------------- printing

  /** One decimal field, with no leading zero. */
  lemma OneField(v: byte)
    ensures IsField(Decimal(v)) && DecValue(Decimal(v)) == v
  {
    DecimalRoundTrip(v);
  }

  lemma FieldsOf(ip: Ip)
    ensures AreFields(IpFields(ip)) && Values(IpFields(ip)) == ip
  {
    hide Decimal, DecValue;
    forall k | 0 <= k < 4
      ensures IsField(IpFields(ip)[k])
    {
      OneField(ip[k]);
    }
    OneField(ip[0]);
    OneField(ip[1]);
    OneField(ip[2]);
    OneField(ip[3]);
    var f := IpFields(ip);
    var g := f[1..];
    var h := g[1..];
    var last := h[1..];
    assert g[0] == f[1] && h[0] == f[2] && last[0] == f[3] && |last[1..]| == 0;
    assert Values(last) == [ip[3]];
    assert Values(h) == [ip[2]] + Values(last);
    assert Values(g) == [ip[1]] + Values(h);
    assert Values(f) == [ip[0]] + Values(g);
  }

  /** A printed address is read back, whatever the address held before and whatever text stops it. */
  lemma IpRoundTrip(ip: Ip, was: Ip, rest: seq<byte>)
    requires Stops(rest)
    ensures ScanIp(IpText(ip) + rest, was, 0, 0) == Parsed(ip, true)
  {
    hide IpFields, ScanIp, Dotted, Stops;
    FieldsOf(ip);
    DottedThen(IpFields(ip), rest);
    DottedRead(IpFields(ip), rest, was, 0);
    assert was[..0] + ip == ip;
  }

  lemma {:induction false} DottedThen(fields: seq<seq<byte>>, rest: seq<byte>)
    requires fields != []
    ensures Dotted(fields, []) + rest == Dotted(fields, rest)
  {
    if |fields| == 1 {
      assert fields[0] + [] == fields[0];
    } else {
      DottedThen(fields[1..], rest);
      assert fields[0] + [DOT] + Dotted(fields[1..], []) + rest == fields[0] + [DOT] + (Dotted(fields[1..], []) + rest);
    }
  }

  // one turn of the loop in print_ip
  method PrintOctet(octet: byte) returns (buf: seq<byte>)
    ensures buf == Decimal(octet)
  {
    var val: nat := octet;
    buf := [];
    if val >= 100 {
      buf := buf + [ZERO + val / 100];
      val := val % 100;
      buf := buf + [ZERO + val / 10];
      val := val % 10;
    } else if val >= 10 {
      buf := buf + [ZERO + val / 10];
      val := val % 10;
    }
    buf := buf + [ZERO + val];
    assert octet >= 10 ==> Decimal(octet) == Decimal(octet / 10) + [ZERO + octet % 10];
    assert octet >= 100 ==> Decimal(octet / 10) == Decimal(octet / 100) + [ZERO + octet / 10 % 10];
  }

  // print_ip
  method PrintIp(ip: Ip) returns (r: seq<byte>)
    ensures r == IpText(ip)
  {
    hide Decimal;
    r := [];
    var i: nat := 0;
    ghost var f := IpFields(ip);
    while i < 4
      invariant i <= 4
      invariant if i < 4 then r + Dotted(f[i..], []) == Dotted(f, []) else r == Dotted(f, [])
    {
      var buf := PrintOctet(ip[i]);
      assert f[i..][0] == buf && f[i..][1..] == f[i + 1..];
      r := r + buf;
      if i < 3 {
        r := r + [DOT];
      }
      i := i + 1;
    }
  }

  // ---------------------------------------------------------------------------- broker endpoint

  /** Where a byte first occurs. */
  function Find(s: seq<byte>, b: byte): (r: Option<nat>)
    ensures r.None? <==> b !in s
    ensures r.Some? ==> r.value < |s| && s[r.value] == b && b !in s[..r.value]
  {
    if s == [] then None
    else if s[0] == b then Some(0)
    else
      match Find(s[1..], b)
      case None => None
      case Some(k) =>
        assert s[..k + 1] == [s[0]] + s[1..][..k];
        Some(k + 1)
  }

  datatype Broker = Broker(ip: Ip, port: u16, ok: bool)

  /** What the argument of "br" leaves in the broker address and port. */
  function ReadBroker(s: seq<byte>, ip: Ip, port: u16): Broker {
    ReadEndpoint(s[SpaceRun(s, 0)..], ip, port)
  }

  function ReadEndpoint(arg: seq<byte>, ip: Ip, port: u16): Broker {
    var colon := Find(arg, COLON);
    var sep := if colon.Some? then colon else Find(arg, SPACE);
    var parsed := ScanIp(arg, ip, 0, 0);
    if sep.None? then Broker(ip, port, false)
    else if !parsed.ok then Broker(parsed.ip, port, false)
    else
      match PortOf(arg[sep.value + 1..])
      case None => Broker(parsed.ip, port, false)
      case Some(p) => Broker(parsed.ip, p, true)
  }

  /** A separator between address and port. */
  predicate Separated(arg: seq<byte>) {
    COLON in arg || SPACE in arg
  }

  /** A refused endpoint leaves the port, and leaves the address exactly if there is no separator or reading
      the text as an address spares it. */
  lemma RefusedEndpoint(s: seq<byte>, ip: Ip, port: u16)
    requires !ReadBroker(s, ip, port).ok
    ensures var arg := s[SpaceRun(s, 0)..];
            && ReadBroker(s, ip, port).port == port
            && (ReadBroker(s, ip, port).ip == ip <==> !Separated(arg) || Spares(arg, ip))
  {
    hide ScanIp, Spares, PortOf;
    SparesIff(s[SpaceRun(s, 0)..], ip);
  }

  lemma {:induction false} FindFirst(front: seq<byte>, b: byte, rest: seq<byte>)
    requires b !in front
    ensures Find(front + [b] + rest, b) == Some(|front|)
  {
    if front != [] {
      FindFirst(front[1..], b, rest);
      assert (front + [b] + rest)[1..] == front[1..] + [b] + rest;
    }
  }

  lemma {:induction false} DottedBytes(fields: seq<seq<byte>>)
    requires fields != [] && forall k | 0 <= k < |fields| :: AllDigits(fields[k])
    ensures forall b | b in Dotted(fields, []) :: IsDigit(b) || b == DOT
  {
    if |fields| > 1 {
      DottedBytes(fields[1..]);
    } else {
      assert AllDigits(fields[0]);
    }
  }

  /** A printed address starts with a digit and holds digits and dots only. */
  lemma IpTextBytes(ip: Ip)
    ensures IpText(ip) != [] && IsDigit(IpText(ip)[0])
    ensures COLON !in IpText(ip) && SPACE !in IpText(ip)
  {
    hide Decimal;
    var f := IpFields(ip);
    DottedBytes(f);
    assert IpText(ip)[0] == Decimal(ip[0])[0];
    assert Decimal(ip[0])[0] in Decimal(ip[0]);
  }

  /** The endpoint as "show" prints it, or with a space between its parts, and padded with spaces. */
  function BrokerText(a: seq<byte>, ip: Ip, sep: byte, mid: seq<byte>, port: u16, b: seq<byte>): seq<byte> {
    a + (IpText(ip) + ([sep] + (mid + Decimal(port) + b)))
  }

  lemma PaddedPort(mid: seq<byte>, port: u16, b: seq<byte>)
    requires AllSpaces(mid) && AllSpaces(b) && port > 0
    ensures PortOf(mid + Decimal(port) + b) == Some(port)
    ensures COLON !in mid + Decimal(port) + b
  {
    hide PortOf, Decimal;
    DecimalRoundTrip(port);
    PortRead(mid + Decimal(port) + b, mid, Decimal(port), b);
  }

  lemma SkipTo(a: seq<byte>, rest: seq<byte>)
    requires AllSpaces(a) && (rest != [] ==> rest[0] != SPACE)
    ensures SpaceRun(a + rest, 0) == |a| && (a + rest)[|a|..] == rest
  {
    assert (a + rest)[0..|a|] == a;
    SpacesThen(a + rest, 0, |a|);
  }

  lemma SeparatorFound(ip: Ip, sep: byte, tail: seq<byte>)
    requires sep == COLON || (sep == SPACE && COLON !in tail)
    ensures var arg := IpText(ip) + ([sep] + tail);
            Find(arg, sep) == Some(|IpText(ip)|) && (sep == SPACE ==> Find(arg, COLON).None?)
  {
    hide IpText;
    IpTextBytes(ip);
    assert IpText(ip) + ([sep] + tail) == IpText(ip) + [sep] + tail;
    FindFirst(IpText(ip), sep, tail);
  }

  /** What "show" prints for the broker, fed back through "br", restores the address and a nonzero port. */
  lemma BrokerRoundTrip(a: seq<byte>, ip: Ip, sep: byte, mid: seq<byte>, port: u16, b: seq<byte>, was: Ip, wasPort: u16)
    requires AllSpaces(a) && AllSpaces(mid) && AllSpaces(b) && (sep == COLON || sep == SPACE) && port > 0
    ensures ReadBroker(BrokerText(a, ip, sep, mid, port, b), was, wasPort) == Broker(ip, port, true)
  {
    hide IpText, PortOf, Decimal, AllSpaces, IsDigit, ReadEndpoint;
    var tail := mid + Decimal(port) + b;
    var arg := IpText(ip) + ([sep] + tail);
    PaddedPort(mid, port, b);
    IpTextBytes(ip);
    SkipTo(a, arg);
    EndpointRead(ip, sep, tail, port, was, wasPort);
  }

  lemma EndpointRead(ip: Ip, sep: byte, tail: seq<byte>, port: u16, was: Ip, wasPort: u16)
    requires sep == COLON || (sep == SPACE && COLON !in tail)
    requires PortOf(tail) == Some(port)
    ensures ReadEndpoint(IpText(ip) + ([sep] + tail), was, wasPort) == Broker(ip, port, true)
  {
    hide IpText, PortOf, ScanIp, Find;
    SeparatorFound(ip, sep, tail);
    IpRoundTrip(ip, was, [sep] + tail);
    BehindSeparator(IpText(ip), sep, tail);
  }

  /** An address followed by what is no port is taken over all the same. */
  lemma AddressTaken(ip: Ip, tail: seq<byte>, was: Ip, wasPort: u16)
    requires PortOf(tail) == None
    ensures ReadBroker(IpText(ip) + ([COLON] + tail), was, wasPort) == Broker(ip, wasPort, false)
  {
    hide IpText, PortOf, ScanIp, Find, AllSpaces, IsDigit;
    var arg, none := IpText(ip) + ([COLON] + tail), [];
    IpTextBytes(ip);
    NoSpaces();
    SkipTo(none, arg);
    assert none + arg == arg;
    SeparatorFound(ip, COLON, tail);
    ColonStops(tail);
    IpRoundTrip(ip, was, [COLON] + tail);
    BehindSeparator(IpText(ip), COLON, tail);
  }

  lemma NoSpaces()
    ensures AllSpaces([]) && !IsDigit(SPACE)
  {
  }

  lemma ColonStops(tail: seq<byte>)
    ensures Stops([COLON] + tail)
  {
  }

  lemma BehindSeparator(front: seq<byte>, sep: byte, tail: seq<byte>)
    ensures (front + ([sep] + tail))[|front| + 1..] == tail
  {
  }
}
