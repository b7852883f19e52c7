/** The serial console: received bytes to lines, lines to configuration commands. */
module Console {
  import opened Words
  import opened Text
  import opened Typing
  import opened Addresses
  import U = UartRing
  import E = Settings

  function AsCommands(texts: seq<seq<byte>>): seq<E.Action> {
    seq(|texts|, i requires 0 <= i < |texts| => E.Command(texts[i]))
  }

  /** The configuration after the commands in a typed input. */
  function Executed(s: E.Store, line: seq<byte>, input: seq<byte>): E.Store
    requires E.HasRoom(s)
  {
    E.AfterAll(s, AsCommands(Typed(line, input).1))
  }

  lemma ExecutedSnoc(s: E.Store, line: seq<byte>, input: seq<byte>, c: byte)
    requires E.HasRoom(s)
    ensures var (before, _) := Typed(line, input);
            var (_, done) := Keyed(before, c);
            Executed(s, line, input + [c]) ==
            if done.Some? then E.Commanded(Executed(s, line, input), done.value) else Executed(s, line, input)
  {
    hide Keyed, E.Commanded;
    TypedSnoc(line, input, c);
    var commands := Typed(line, input).1;
    var done := Keyed(Typed(line, input).0, c).1;
    if done.Some? {
      var all := AsCommands(commands + [done.value]);
      assert all[..|commands|] == AsCommands(commands) && all[|commands|] == E.Command(done.value);
    } else {
      assert commands + [] == commands;
    }
  }

  lemma NothingTyped(s: E.Store, line: seq<byte>)
    requires E.HasRoom(s)
    ensures Executed(s, line, []) == s && Typed(line, []).0 == line
  {
  }

  /** Typing keeps the configuration good. */
  lemma ExecutedGood(s: E.Store, line: seq<byte>, input: seq<byte>)
    requires E.Good(s) && |line| <= LINE_MAX
    ensures E.Good(Executed(s, line, input))
  {
    hide E.Good, Typed, E.AfterAll;
    LineFits(line, input);
    var commands := Typed(line, input).1;
    assert forall a | a in AsCommands(commands) :: E.IsText(a) by {
      forall i | 0 <= i < |commands|
        ensures E.IsText(AsCommands(commands)[i])
      {
        assert commands[i] in commands;
      }
    }
    Roomy(s);
    E.StaysGood(s, AsCommands(commands));
  }

  lemma Roomy(s: E.Store)
    requires E.Good(s)
    ensures E.HasRoom(s)
  {
  }

  lemma {:induction false} CStrEnded(line: seq<byte>, rest: seq<byte>)
    ensures CStr(line + [0] + rest) == CStr(line)
  {
    if line == [] {
      assert line + [0] + rest == [0] + rest;
    } else {
      CStrEnded(line[1..], rest);
      assert (line + [0] + rest)[1..] == line[1..] + [0] + rest;
    }
  }

  // ------------------------------------------------------------ from keys to the configuration

  /** Typing a topic after "gong sub " and a return stores it exactly when it has at most 22
      characters: the line is cut before the topic's own limit of 24 is reached. */
  lemma GongTypedIff(s: E.Store, t: seq<byte>)
    requires E.HasRoom(s) && E.StartsTopic(t) && t[0] != SPACE && 0 !in t
    requires forall b | b in t :: Plain(b)
    ensures CStr(Executed(s, [], E.Ascii("gong sub ") + t + [CR]).config.gongBaseTopic) == t <==> |t| <= 22
  {
    hide E.NewTopic, E.Ascii, E.Commanded, Executed, CStr, Plain;
    var text := E.Ascii("gong sub ") + t;
    var u := t[..Min(|t|, 22)];
    PlainGong(t);
    OneCommand(s, text);
    assert text[..Min(|text|, LINE_MAX)] == E.Ascii("gong sub ") + u;
    assert u[0] == t[0] && forall b | b in u :: b in t;
    GongStored(s, u);
  }

  lemma GongStored(s: E.Store, u: seq<byte>)
    requires E.HasRoom(s) && E.StartsTopic(u) && u[0] != SPACE && 0 !in u && |u| <= 22
    requires forall b | b in u :: Plain(b)
    ensures CStr(E.Commanded(s, CStr(E.Ascii("gong sub ") + u)).config.gongBaseTopic) == u
  {
    hide E.NewTopic, E.Ascii, E.Commanded, E.HasRoom, CStr;
    GongCommand(s, u);
    TextOf(E.Ascii("gong sub ") + u, u);
    E.TopicStoredIff(s.config.gongBaseTopic, u);
  }

  lemma GongCommand(s: E.Store, arg: seq<byte>)
    requires E.HasRoom(s)
    ensures E.Commanded(s, E.Ascii("gong sub ") + arg).config.gongBaseTopic == E.NewTopic(s.config.gongBaseTopic, arg)
  {
    hide E.KeywordOf, E.Line, E.Argument, E.NewTopic, E.Ascii, E.ShowText, E.Saved, E.HasRoom;
    TypedGong(arg);
  }

  lemma PlainGong(t: seq<byte>)
    requires forall b | b in t :: Plain(b)
    ensures forall b | b in E.Ascii("gong sub ") + t :: Plain(b)
  {
    var g := E.Ascii("gong sub ");
    assert g == [103, 111, 110, 103, 32, 115, 117, 98, 32];
  }

  lemma TextOf(line: seq<byte>, t: seq<byte>)
    requires line == E.Ascii("gong sub ") + t && 0 !in t
    ensures CStr(line) == line
  {
    var g: seq<byte> := [103, 111, 110, 103, 32, 115, 117, 98, 32];
    assert E.Ascii("gong sub ") == g;
    hide E.Ascii;
    assert 0 !in g;
  }

  lemma TypedGong(arg: seq<byte>)
    ensures var cmd := E.Ascii("gong sub ") + arg;
            E.KeywordOf(E.Line(cmd)) == E.SetGong && E.Argument(cmd) == arg
  {
    var cmd := E.Ascii("gong sub ") + arg;
    assert cmd[0] == 103 && cmd[1] == 111 && E.Line(cmd) == cmd;
    assert E.Ascii("help")[0] == 104 && E.Ascii("show")[0] == 115 && E.Ascii("ip ")[0] == 105;
    assert E.Ascii("sn ")[0] == 115 && E.Ascii("gw ")[1] == 119 && E.Ascii("br ")[0] == 98;
    assert E.Ascii("id ")[0] == 105 && E.Ascii("input ")[0] == 105;
    assert cmd[9..] == arg;
  }

  /** A typed line is one command, cut to 31 characters. */
  lemma OneCommand(s: E.Store, text: seq<byte>)
    requires E.HasRoom(s) && text != [] && forall b | b in text :: Plain(b)
    ensures Executed(s, [], text + [CR]) == E.Commanded(s, CStr(text[..Min(|text|, LINE_MAX)]))
  {
    hide E.Commanded;
    PlainTyped(text);
    ExecutedSnoc(s, [], text, CR);
    assert AsCommands([]) == [];
  }

  /** Any broker endpoint, typed as it is shown, fits the line and is set. */
  lemma BrokerTyped(s: E.Store, ip: Ip, port: u16)
    requires E.HasRoom(s) && port != 0
    ensures Executed(s, [], E.Ascii("br ") + BrokerText([], ip, COLON, [], port, []) + [CR]).config
            == s.config.(brokerIp := ip, brokerPort := port)
  {
    hide E.Commanded, E.Ascii, BrokerText;
    var shown := s.config.(brokerIp := ip, brokerPort := port);
    var arg := BrokerText([], ip, COLON, [], port, []);
    var text := E.Ascii("br ") + arg;
    BrokerTextShort(ip, port);
    BrokerKeys(arg);
    OneCommand(s, text);
    assert text[..|text|] == text;
    E.ShownBrokerRestores(s, shown);
  }

  lemma BrokerKeys(arg: seq<byte>)
    requires forall b | b in arg :: IsDigit(b) || b == DOT || b == COLON
    ensures forall b | b in E.Ascii("br ") + arg :: Plain(b) && b != 0
    ensures 0 !in E.Ascii("br ") + arg
  {
    assert E.Ascii("br ") == [98, 114, 32];
  }

  lemma {:induction false} DecimalShort(n: nat, k: nat)
    requires k > 0 && n < Shift(k)
    ensures |Decimal(n)| <= k
  {
    if n >= 10 {
      assert k > 1 by {
        assert Shift(1) == 10 * Shift(0);
      }
      DecimalShort(n / 10, k - 1);
    }
  }

  lemma Thousands()
    ensures Shift(3) == 1000 && Shift(5) == 100000
  {
    assert Shift(1) == 10 && Shift(2) == 100 && Shift(4) == 10000;
  }

  lemma BrokerTextShort(ip: Ip, port: u16)
    ensures |BrokerText([], ip, COLON, [], port, [])| <= 21
    ensures forall b | b in BrokerText([], ip, COLON, [], port, []) :: IsDigit(b) || b == DOT || b == COLON
  {
    hide Decimal, IsDigit;
    Thousands();
    DecimalShort(port, 5);
    var f := IpFields(ip);
    forall k | 0 <= k < 4
      ensures |f[k]| <= 3
    {
      DecimalShort(ip[k], 3);
    }
    DottedBytes(f);
    DottedLength(f);
  }

  lemma {:induction false} DottedLength(fields: seq<seq<byte>>)
    requires fields != [] && forall k | 0 <= k < |fields| :: |fields[k]| <= 3
    ensures |Dotted(fields, [])| < 4 * |fields|
  {
    if |fields| > 1 {
      DottedLength(fields[1..]);
    }
  }

  // ------------------------------------------------------------------------------- the console

  class Console {
    const uart: U.Receiver
    const settings: E.LightweightConfig
    const cmdBuffer: array<byte>
    var cmdIndex: nat

    ghost predicate Valid()
      reads this, uart, uart.buffer
    {
      && uart.Valid() && settings.Valid()
      && cmdBuffer.Length == 64 && cmdIndex <= LINE_MAX
      && cmdBuffer != uart.buffer && cmdBuffer != settings.eeprom && uart.buffer != settings.eeprom
    }

    ghost function Line(): seq<byte>
      requires Valid()
      reads this, uart, uart.buffer, cmdBuffer
    {
      cmdBuffer[..cmdIndex]
    }

    constructor (uart: U.Receiver, settings: E.LightweightConfig)
      requires uart.Valid() && settings.Valid() && uart.buffer != settings.eeprom
      ensures Valid() && this.uart == uart && this.settings == settings && fresh(cmdBuffer)
      ensures Line() == []
    {
      this.uart, this.settings := uart, settings;
      cmdBuffer := new byte[64](_ => 0);
      cmdIndex := 0;
    }

    /** What the loop does with one character. */
    method Key(c: byte)
      requires Valid()
      modifies this, cmdBuffer, settings, settings.eeprom
      ensures Valid()
      ensures Line() == Keyed(old(Line()), c).0
      ensures settings.State() ==
              match Keyed(old(Line()), c).1
              case Some(cmd) => E.Commanded(old(settings.State()), cmd)
              case None => old(settings.State())
    {
      hide E.Commanded, CStr, E.HasRoom, U.Contents;
      if c == CR || c == LF {
        if cmdIndex > 0 {
          Execute();
        }
      } else if c == BACKSPACE || c == DELETE {
        if cmdIndex > 0 {
          cmdIndex := cmdIndex - 1;
        }
      } else if cmdIndex < LINE_MAX {
        cmdBuffer[cmdIndex] := c;
        cmdIndex := cmdIndex + 1;
        assert Line() == old(Line()) + [c];
      }
    }

    /** A return ends the line with a NUL and hands it on. */
    method Execute()
      requires Valid() && cmdIndex > 0
      modifies this`cmdIndex, cmdBuffer, settings, settings.eeprom
      ensures Valid() && Line() == []
      ensures settings.State() == E.Commanded(old(settings.State()), CStr(old(Line())))
    {
      hide E.Commanded, CStr, E.HasRoom, U.Contents;
      cmdBuffer[cmdIndex] := 0;
      CStrEnded(old(Line()), cmdBuffer[cmdIndex + 1..]);
      assert cmdBuffer[..] == old(Line()) + [0] + cmdBuffer[cmdIndex + 1..];
      var _ := settings.ProcessCommand(CStr(cmdBuffer[..]));
      cmdIndex := 0;
    }

    /** The loop's UART part, with bytes arriving all the while: exactly the commands in the bytes
        read are executed, and it ends when no byte is left. */
    method Poll()
      requires Valid()
      modifies this, cmdBuffer, settings, settings.eeprom, uart, uart.buffer
      ensures Valid()
      ensures old(uart.handed) <= uart.handed && old(uart.accepted) <= uart.accepted
      ensures uart.handed == uart.accepted
      ensures var input := uart.handed[|old(uart.handed)|..];
              && Line() == Typed(old(Line()), input).0
              && settings.State() == Executed(old(settings.State()), old(Line()), input)
    {
      hide Typed, Executed, Keyed, E.Commanded;
      ghost var line, store, start := Line(), settings.State(), uart.handed;
      ghost var input: seq<byte> := [];
      NothingTyped(store, line);
      var patience: nat := *;
      while true
        invariant Valid()
        invariant uart.handed == start + input && old(uart.accepted) <= uart.accepted
        invariant Line() == Typed(line, input).0 && settings.State() == Executed(store, line, input)
        decreases patience, |uart.accepted| - |uart.handed|
      {
        var more := Available(patience > 0);
        if !more {
          break;
        }
        var c := Next(patience > 0);
        TypedSnoc(line, input, c);
        ExecutedSnoc(store, line, input, c);
        input := input + [c];
        Key(c);
        patience := if patience > 0 then patience - 1 else 0;
      }
      assert uart.handed[|start|..] == input;
    }

    /** Some bytes of the outside world, or none. */
    method Arrivals(any: bool) returns (line: seq<byte>)
      ensures !any ==> line == []
    {
      line := *;
      if !any {
        line := [];
      }
    }

    method Available(any: bool) returns (more: bool)
      requires Valid()
      modifies uart, uart.buffer
      ensures Valid() && uart.handed == old(uart.handed) && old(uart.accepted) <= uart.accepted
      ensures !any ==> uart.accepted == old(uart.accepted)
      ensures more <==> uart.accepted != uart.handed
    {
      hide U.Contents;
      var line := Arrivals(any);
      more := uart.IsReadDataAvailable(line);
    }

    method Next(any: bool) returns (c: byte)
      requires Valid() && uart.accepted != uart.handed
      modifies uart, uart.buffer
      ensures Valid() && uart.handed == old(uart.handed) + [c] && old(uart.accepted) <= uart.accepted
      ensures !any ==> uart.accepted == old(uart.accepted)
    {
      hide U.Contents;
      var line0 := Arrivals(any);
      var line1 := Arrivals(any);
      var line2 := Arrivals(any);
      c := uart.ReadByte(line0, line1, line2);
    }
  }
}
