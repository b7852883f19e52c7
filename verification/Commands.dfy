/** What each console command does, from the text of its line on. */
module Commands {
  import opened Words
  import opened Text
  import opened Addresses
  import opened Settings
  import C = Chimes
  import F = Flat
  import M = Messages
  import N = Console
  import P = Packets
  import Q = Client
  import T = Typing

  // ------------------------------------------------------------------------------------ keywords

  lemma TypedShow(arg: seq<byte>)
    ensures var cmd := Ascii("show") + arg;
            KeywordOf(Line(cmd)) == Show
  {
    var cmd := Ascii("show") + arg;
    assert cmd[0] == 115 && SpaceRun(cmd, 0) == 0 && cmd[0..] == cmd;
    assert Ascii("help")[0] == 104;
  }

  lemma TypedSave(arg: seq<byte>)
    ensures var cmd := Ascii("save") + arg;
            KeywordOf(Line(cmd)) == Save
  {
    var cmd := Ascii("save") + arg;
    assert cmd[0] == 115 && cmd[1] == 97 && SpaceRun(cmd, 0) == 0 && cmd[0..] == cmd;
    assert Ascii("help")[0] == 104 && Ascii("show")[1] == 104 && Ascii("ip ")[0] == 105 && Ascii("sn ")[1] == 110;
    assert Ascii("gw ")[0] == 103 && Ascii("br ")[0] == 98 && Ascii("id ")[0] == 105 && Ascii("input ")[0] == 105;
    assert Ascii("gong sub ")[0] == 103;
  }

  /** A line that begins with an r can only be one of the last two. */
  lemma WithAnR(t: seq<byte>)
    requires t != [] && t[0] == 114
    ensures KeywordOf(t) == if Ascii("reset") <= t then Reset else if Ascii("reboot") <= t then Reboot else Unknown
  {
    assert Ascii("help")[0] == 104 && Ascii("show")[0] == 115 && Ascii("ip ")[0] == 105 && Ascii("sn ")[0] == 115;
    assert Ascii("gw ")[0] == 103 && Ascii("br ")[0] == 98 && Ascii("id ")[0] == 105 && Ascii("input ")[0] == 105;
    assert Ascii("gong sub ")[0] == 103 && Ascii("save")[0] == 115;
    hide Ascii;
  }

  lemma TypedReset(arg: seq<byte>)
    ensures var cmd := Ascii("reset") + arg;
            KeywordOf(Line(cmd)) == Reset && Argument(cmd) == cmd
  {
    var cmd := Ascii("reset") + arg;
    assert cmd[0] == 114 && SpaceRun(cmd, 0) == 0 && cmd[0..] == cmd;
    hide Ascii, KeywordOf;
    WithAnR(cmd);
  }

  lemma TypedReboot(arg: seq<byte>)
    ensures var cmd := Ascii("reboot") + arg;
            KeywordOf(Line(cmd)) == Reboot
  {
    var cmd := Ascii("reboot") + arg;
    assert cmd[0] == 114 && cmd[2] == 98 && SpaceRun(cmd, 0) == 0 && cmd[0..] == cmd;
    assert Ascii("reset")[2] == 115;
    hide Ascii, KeywordOf;
    WithAnR(cmd);
  }

  lemma TypedHelp(arg: seq<byte>)
    ensures var cmd := Ascii("help") + arg;
            KeywordOf(Line(cmd)) == Help
  {
    var cmd := Ascii("help") + arg;
    assert cmd[0] == 104 && SpaceRun(cmd, 0) == 0 && cmd[0..] == cmd;
  }

  lemma TypedId(arg: seq<byte>)
    ensures var cmd := Ascii("id ") + arg;
            KeywordOf(Line(cmd)) == SetId && Argument(cmd) == arg
  {
    var cmd := Ascii("id ") + arg;
    assert cmd[0] == 105 && cmd[1] == 100 && SpaceRun(cmd, 0) == 0 && cmd[0..] == cmd;
    assert Ascii("help")[0] == 104 && Ascii("show")[0] == 115 && Ascii("ip ")[1] == 112 && Ascii("sn ")[0] == 115;
    assert Ascii("gw ")[0] == 103 && Ascii("br ")[0] == 98;
    assert cmd[3..] == arg;
  }

  lemma TypedInput(arg: seq<byte>)
    ensures var cmd := Ascii("input ") + arg;
            KeywordOf(Line(cmd)) == SetInput && Argument(cmd) == arg
  {
    var cmd := Ascii("input ") + arg;
    assert cmd[0] == 105 && cmd[1] == 110 && SpaceRun(cmd, 0) == 0 && cmd[0..] == cmd;
    assert Ascii("help")[0] == 104 && Ascii("show")[0] == 115 && Ascii("ip ")[1] == 112 && Ascii("sn ")[0] == 115;
    assert Ascii("gw ")[0] == 103 && Ascii("br ")[0] == 98 && Ascii("id ")[1] == 100;
    assert cmd[6..] == arg;
  }

  // ------------------------------------------------------------------------------- what they do

  /** "save", whatever follows, writes the configuration, valid from now on, to the primary block and raises
      the flag; nothing else changes. */
  lemma SaveCommand(s: Store, arg: seq<byte>)
    requires HasRoom(s)
    ensures var d := Commanded(s, Ascii("save") + arg);
            && d.config == s.config.(magic := MAGIC) && d.saveFlag && d.out == s.out
            && Block(d.eeprom, PRIMARY) == d.config
            && d.eeprom[..PRIMARY] == s.eeprom[..PRIMARY] && d.eeprom[EEPROM_USED..] == s.eeprom[EEPROM_USED..]
  {
    hide KeywordOf, Line, Argument, Ascii, Image, Block, WithBlock, ShowText;
    TypedSave(arg);
    BlockWritten(s.eeprom, s.config.(magic := MAGIC));
  }

  /** The values a device leaves the factory with. */
  predicate IsFactory(c: SmartBellConfig) {
    && c.brokerIp == [0, 0, 0, 0] && c.brokerPort == 1883
    && c.deviceIp == [192, 168, 1, 100] && c.subnet == [255, 255, 255, 0] && c.gateway == [192, 168, 1, 1]
    && c.mac == [0x00, 0x08, 0xDC, 0xAB, 0xCD, 0xEF] && c.magic == MAGIC
    && CStr(c.clientId) == Ascii("smartbell")
  }

  /** "reset", whatever follows, brings back the factory values; the topics stay, and nothing is stored. */
  lemma ResetCommand(s: Store, arg: seq<byte>)
    requires HasRoom(s)
    ensures var d := Commanded(s, Ascii("reset") + arg);
            && d.eeprom == s.eeprom && d.saveFlag == s.saveFlag && d.out == s.out && IsFactory(d.config)
            && d.config.input1Topic == s.config.input1Topic && d.config.input2Topic == s.config.input2Topic
            && d.config.gongBaseTopic == s.config.gongBaseTopic
  {
    hide KeywordOf, Line, Argument, Ascii, Saved, ShowText, Defaults, IsFactory;
    TypedReset(arg);
    FactoryValues(s.config);
  }

  lemma FactoryValues(c: SmartBellConfig)
    ensures var d := Defaults(c);
            && IsFactory(d) && d.input1Topic == c.input1Topic && d.input2Topic == c.input2Topic
            && d.gongBaseTopic == c.gongBaseTopic
  {
    hide Ascii, ClientIdOf;
    FactoryName();
  }

  lemma FactoryName()
    ensures CStr(ClientIdOf(Ascii("smartbell"))) == Ascii("smartbell")
  {
    var name := Ascii("smartbell");
    assert name == [115, 109, 97, 114, 116, 98, 101, 108, 108];
    hide Ascii, ClientIdOf;
    TerminatedId(name);
    assert name[..9] == name;
  }

  /** "show" sends the text of the configuration; "help", "reboot" and "show" change no setting. */
  lemma QuietCommands(s: Store, arg: seq<byte>)
    requires HasRoom(s)
    ensures Commanded(s, Ascii("show") + arg) == s.(out := s.out + ShowText(s.config))
    ensures Commanded(s, Ascii("help") + arg) == Commanded(s, Ascii("reboot") + arg) == s
  {
    hide KeywordOf, Line, Argument, Ascii, Saved, ShowText;
    TypedShow(arg);
    TypedHelp(arg);
    TypedReboot(arg);
  }

  /** A line is unknown iff, behind its leading spaces, it begins with none of the twelve keywords; it changes
      nothing. */
  lemma UnknownIff(s: Store, cmd: seq<byte>)
    requires HasRoom(s)
    ensures var t := Line(cmd);
            KeywordOf(t).Unknown? <==>
              && !(Ascii("help") <= t) && !(Ascii("show") <= t) && !(Ascii("ip ") <= t) && !(Ascii("sn ") <= t)
              && !(Ascii("gw ") <= t) && !(Ascii("br ") <= t) && !(Ascii("id ") <= t) && !(Ascii("input ") <= t)
              && !(Ascii("gong sub ") <= t) && !(Ascii("save") <= t) && !(Ascii("reset") <= t) && !(Ascii("reboot") <= t)
    ensures KeywordOf(Line(cmd)).Unknown? ==> Commanded(s, cmd) == s
  {
    hide Ascii, Line, Saved, ShowText;
  }

  /** "id " sets the client id to the text behind it and any spaces, cut to 15 bytes, and nothing else; without
      such a text it changes nothing. */
  lemma IdCommand(s: Store, spaces: seq<byte>, id: seq<byte>)
    requires HasRoom(s) && AllSpaces(spaces) && (id != [] ==> id[0] != SPACE) && 0 !in id
    ensures var d := Commanded(s, Ascii("id ") + (spaces + id));
            && d == s.(config := s.config.(clientId := d.config.clientId))
            && (id == [] ==> d == s)
            && (id != [] ==> CStr(d.config.clientId) == id[..Min(|id|, 15)]
                             && M.MqttConfig(d.config).clientId == id[..Min(|id|, 15)])
  {
    hide KeywordOf, Line, Argument, Ascii, Saved, ShowText, ClientIdOf;
    TypedId(spaces + id);
    SkipTo(spaces, id);
    TerminatedId(id);
    var n := Min(|id|, 15);
    assert id[..n][..n] == id[..n];
  }

  /** A text is taken as a topic up to its first line end, at most 24 bytes of it; `tail` is what is not. */
  predicate TakenBefore(t: seq<byte>, tail: seq<byte>) {
    && 0 !in t && 0 !in tail && |t| <= 24 && CR !in t && LF !in t && (t != [] ==> t[0] != SPACE)
    && (tail != [] ==> tail[0] == CR || tail[0] == LF || |t| == 24)
  }

  lemma TopicTaken(dest: TopicField, spaces: seq<byte>, t: seq<byte>, tail: seq<byte>)
    requires AllSpaces(spaces) && TakenBefore(t, tail)
    ensures var d := NewTopic(dest, spaces + (t + tail));
            if t == [] then d == dest else CStr(d) == t
  {
    hide TopicOver, SpaceRun, TopicEnd;
    assert t != [] ==> t[0] in t;
    SkipTo(spaces, t + tail);
    if t != [] {
      TakesAll(t, tail, 0);
      assert (t + tail)[..|t|] == t;
      TopicWritten(dest, t);
    }
  }

  lemma {:induction false} TakesAll(t: seq<byte>, tail: seq<byte>, i: nat)
    requires TakenBefore(t, tail) && i <= |t|
    ensures TopicEnd(t + tail, i) == |t|
    decreases |t| - i
  {
    if i < |t| {
      assert t[i] in t;
      TakesAll(t, tail, i + 1);
    }
  }

  /** "input 1 pt " sets the first input's topic and "input 2 pt " the second's, and nothing else; it is under
      that topic that presses of the button are announced. Without a topic nothing changes. */
  lemma InputCommand(s: Store, i: C.Which, spaces: seq<byte>, t: seq<byte>, tail: seq<byte>)
    requires HasRoom(s) && AllSpaces(spaces) && TakenBefore(t, tail)
    ensures var d := Commanded(s, Ascii(if i == 0 then "input 1 pt " else "input 2 pt ") + (spaces + (t + tail)));
            && d == (if i == 0 then s.(config := s.config.(input1Topic := d.config.input1Topic))
                     else s.(config := s.config.(input2Topic := d.config.input2Topic)))
            && (if t == [] then d == s else M.PubTopic(d.config, i) == t)
            && M.PubTopic(d.config, 1 - i) == M.PubTopic(s.config, 1 - i)
  {
    hide KeywordOf, Line, Argument, Ascii, Saved, ShowText, NewTopic, CStr, TakenBefore, AllSpaces;
    var text := spaces + (t + tail);
    InputPrefix(i, text);
    TypedInput(Ascii(if i == 0 then "1 pt " else "2 pt ") + text);
    InputChosen(s.config, i, text);
    TopicTaken(s.config.input1Topic, spaces, t, tail);
    TopicTaken(s.config.input2Topic, spaces, t, tail);
  }

  /** Any other "input " changes nothing. */
  lemma OtherInput(s: Store, arg: seq<byte>)
    requires HasRoom(s) && !(Ascii("1 pt ") <= arg) && !(Ascii("2 pt ") <= arg)
    ensures Commanded(s, Ascii("input ") + arg) == s
  {
    hide KeywordOf, Line, Argument, Ascii, Saved, ShowText;
    TypedInput(arg);
  }

  lemma InputPrefix(i: C.Which, t: seq<byte>)
    ensures Ascii(if i == 0 then "input 1 pt " else "input 2 pt ") + t == Ascii("input ") + (Ascii(if i == 0 then "1 pt " else "2 pt ") + t)
  {
    assert Ascii("input 1 pt ") == Ascii("input ") + Ascii("1 pt ");
    assert Ascii("input 2 pt ") == Ascii("input ") + Ascii("2 pt ");
  }

  lemma InputChosen(c: SmartBellConfig, i: C.Which, t: seq<byte>)
    ensures NewInput(c, Ascii(if i == 0 then "1 pt " else "2 pt ") + t) ==
            if i == 0 then c.(input1Topic := NewTopic(c.input1Topic, t)) else c.(input2Topic := NewTopic(c.input2Topic, t))
  {
    var one, two := Ascii("1 pt "), Ascii("2 pt ");
    assert one[0] == 49 && two[0] == 50;
    assert (one + t)[5..] == t && (two + t)[5..] == t;
    assert !(one <= two + t) by { assert (two + t)[0] == 50; }
    assert one <= one + t && two <= two + t;
  }

  /** "gong sub " sets the base topic of the subscriptions, and nothing else; without a topic nothing changes. */
  lemma GongCommand(s: Store, spaces: seq<byte>, t: seq<byte>, tail: seq<byte>)
    requires HasRoom(s) && AllSpaces(spaces) && TakenBefore(t, tail)
    ensures var d := Commanded(s, Ascii("gong sub ") + (spaces + (t + tail)));
            && d == s.(config := s.config.(gongBaseTopic := d.config.gongBaseTopic))
            && (if t == [] then d == s else CStr(d.config.gongBaseTopic) == t)
  {
    hide KeywordOf, Line, Argument, Ascii, Saved, ShowText, NewTopic, CStr, TakenBefore, AllSpaces;
    N.TypedGong(spaces + (t + tail));
    TopicTaken(s.config.gongBaseTopic, spaces, t, tail);
  }

  /** "br " followed by an endpoint as it is shown is what the client connects to, without a login and with a
      keep-alive of 60 s, unless the address is zero: then there is no broker. */
  lemma BrokerCommand(s: Store, ip: Ip, port: u16)
    requires HasRoom(s) && port != 0
    ensures var c := Commanded(s, Ascii("br ") + BrokerText([], ip, COLON, [], port, [])).config;
            && M.MqttConfig(c) == Q.Config(ip, port, M.MqttConfig(s.config).clientId, P.Anonymous, 60)
            && (M.HasBroker(c) <==> ip != [0, 0, 0, 0])
  {
    hide Commanded, BrokerText, Ascii, CStr;
    ShownBrokerRestores(s, s.config.(brokerIp := ip, brokerPort := port));
    assert ip == [ip[0], ip[1], ip[2], ip[3]];
  }

  /** "ip ", "sn " and "gw " followed by an address set the device's address, subnet mask and gateway, and
      nothing else. */
  lemma AddressCommands(s: Store, ip: Ip)
    requires HasRoom(s)
    ensures Commanded(s, Ascii("ip ") + IpText(ip)) == s.(config := s.config.(deviceIp := ip))
    ensures Commanded(s, Ascii("sn ") + IpText(ip)) == s.(config := s.config.(subnet := ip))
    ensures Commanded(s, Ascii("gw ") + IpText(ip)) == s.(config := s.config.(gateway := ip))
  {
    hide KeywordOf, Line, Argument, ScanIp, IpText, Ascii, Saved, ShowText;
    TypedIp(IpText(ip));
    TypedSubnet(IpText(ip));
    TypedGateway(IpText(ip));
    assert IpText(ip) + [] == IpText(ip);
    IpRoundTrip(ip, s.config.deviceIp, []);
    IpRoundTrip(ip, s.config.subnet, []);
    IpRoundTrip(ip, s.config.gateway, []);
  }

  function Label(k: nat): seq<byte> {
    match k
    case 0 => Ascii("Device IP: ")
    case 1 => Ascii("Gateway: ")
    case 2 => Ascii("Broker: ")
    case 3 => Ascii("Client ID: ")
    case 4 => Ascii("Input 1 Topic: ")
    case 5 => Ascii("Input 2 Topic: ")
    case _ => Ascii("Gong Base Topic: ")
  }

  function Shown(c: SmartBellConfig, k: nat): seq<byte> {
    match k
    case 0 => IpText(c.deviceIp)
    case 1 => IpText(c.gateway)
    case 2 => BrokerText([], c.brokerIp, COLON, [], c.brokerPort, [])
    case 3 => CStr(c.clientId)
    case 4 => CStr(c.input1Topic)
    case 5 => CStr(c.input2Topic)
    case _ => CStr(c.gongBaseTopic)
  }

  /** In the text of "show" each label is followed by its setting and a line end. */
  lemma ShowHolds(c: SmartBellConfig, k: nat) returns (before: seq<byte>, after: seq<byte>)
    requires k < 7
    ensures ShowText(c) == before + (Label(k) + Shown(c, k) + Ascii("\r\n")) + after
  {
    hide Ascii, Label, Shown, ShowText, F.Flatten;
    var nl := Ascii("\r\n");
    var lines := seq(7, i requires 0 <= i < 7 => Label(i) + Shown(c, i) + nl);
    LinesShown(c, lines);
    before := F.Flatten(lines[..k]);
    after := F.Flatten(lines[k + 1..]);
    assert lines == lines[..k] + [lines[k]] + lines[k + 1..];
    F.FlattenConcat(lines[..k] + [lines[k]], lines[k + 1..]);
    F.FlattenSnoc(lines[..k], lines[k]);
  }

  lemma Joined(whole: string, start: string, word: string)
    requires whole == start + word
    ensures Ascii(whole) == Ascii(start) + Ascii(word)
  {
  }

  lemma Labels()
    ensures var nl := Ascii("\r\n");
            && Ascii("\r\nGateway: ") == nl + Label(1) && Ascii("\r\nBroker: ") == nl + Label(2)
            && Ascii("\r\nClient ID: ") == nl + Label(3) && Ascii("\r\nInput 1 Topic: ") == nl + Label(4)
            && Ascii("\r\nInput 2 Topic: ") == nl + Label(5) && Ascii("\r\nGong Base Topic: ") == nl + Label(6)
  {
    hide Ascii;
    FirstLabels();
    InputLabels();
    Joined("\r\nGong Base Topic: ", "\r\n", "Gong Base Topic: ");
  }

  lemma FirstLabels()
    ensures Ascii("\r\nGateway: ") == Ascii("\r\n") + Ascii("Gateway: ")
    ensures Ascii("\r\nBroker: ") == Ascii("\r\n") + Ascii("Broker: ")
    ensures Ascii("\r\nClient ID: ") == Ascii("\r\n") + Ascii("Client ID: ")
  {
    hide Ascii;
    Joined("\r\nGateway: ", "\r\n", "Gateway: ");
    Joined("\r\nBroker: ", "\r\n", "Broker: ");
    Joined("\r\nClient ID: ", "\r\n", "Client ID: ");
  }

  lemma InputLabels()
    ensures Ascii("\r\nInput 1 Topic: ") == Ascii("\r\n") + Ascii("Input 1 Topic: ")
    ensures Ascii("\r\nInput 2 Topic: ") == Ascii("\r\n") + Ascii("Input 2 Topic: ")
  {
    hide Ascii;
    Joined("\r\nInput 1 Topic: ", "\r\n", "Input 1 Topic: ");
    Joined("\r\nInput 2 Topic: ", "\r\n", "Input 2 Topic: ");
  }

  /** The text up to the value of line k, the line end not yet sent. */
  function UpTo(c: SmartBellConfig, k: nat): seq<byte> {
    if k == 0 then Label(0) + Shown(c, 0) else UpTo(c, k - 1) + (Ascii("\r\n") + Label(k) + Shown(c, k))
  }

  lemma {:induction false} LinesUpTo(c: SmartBellConfig, lines: seq<seq<byte>>, k: nat)
    requires k < |lines| && forall i | 0 <= i <= k :: lines[i] == Label(i) + Shown(c, i) + Ascii("\r\n")
    ensures F.Flatten(lines[..k + 1]) == UpTo(c, k) + Ascii("\r\n")
  {
    hide Ascii, Label, Shown;
    var nl := Ascii("\r\n");
    F.FlattenSnoc(lines[..k], lines[k]);
    assert lines[..k + 1] == lines[..k] + [lines[k]];
    if k == 0 {
      assert F.Flatten(lines[..0]) == [];
    } else {
      LinesUpTo(c, lines, k - 1);
      Shifted(UpTo(c, k - 1), nl, Label(k), Shown(c, k));
    }
  }

  lemma Shifted(p: seq<byte>, nl: seq<byte>, word: seq<byte>, value: seq<byte>)
    ensures p + nl + (word + value + nl) == p + (nl + word + value) + nl
  {
  }

  lemma LinesShown(c: SmartBellConfig, lines: seq<seq<byte>>)
    requires |lines| == 7 && forall i | 0 <= i < 7 :: lines[i] == Label(i) + Shown(c, i) + Ascii("\r\n")
    ensures ShowText(c) == F.Flatten(lines)
  {
    hide Ascii, Label, Shown, UpTo, ShowText;
    LinesUpTo(c, lines, 6);
    assert lines[..7] == lines;
    Labels();
    TextUpTo(c);
  }

  lemma TextUpTo(c: SmartBellConfig)
    requires var nl := Ascii("\r\n");
             && Ascii("\r\nGateway: ") == nl + Label(1) && Ascii("\r\nBroker: ") == nl + Label(2)
             && Ascii("\r\nClient ID: ") == nl + Label(3) && Ascii("\r\nInput 1 Topic: ") == nl + Label(4)
             && Ascii("\r\nInput 2 Topic: ") == nl + Label(5) && Ascii("\r\nGong Base Topic: ") == nl + Label(6)
    ensures ShowText(c) == UpTo(c, 6) + Ascii("\r\n")
  {
    hide IpText, BrokerText, CStr, Ascii, UpTo;
    UpToAll(c);
  }

  lemma UpToAll(c: SmartBellConfig)
    ensures UpTo(c, 0) == Label(0) + Shown(c, 0)
    ensures UpTo(c, 1) == UpTo(c, 0) + (Ascii("\r\n") + Label(1) + Shown(c, 1))
    ensures UpTo(c, 2) == UpTo(c, 1) + (Ascii("\r\n") + Label(2) + Shown(c, 2))
    ensures UpTo(c, 3) == UpTo(c, 2) + (Ascii("\r\n") + Label(3) + Shown(c, 3))
    ensures UpTo(c, 4) == UpTo(c, 3) + (Ascii("\r\n") + Label(4) + Shown(c, 4))
    ensures UpTo(c, 5) == UpTo(c, 4) + (Ascii("\r\n") + Label(5) + Shown(c, 5))
    ensures UpTo(c, 6) == UpTo(c, 5) + (Ascii("\r\n") + Label(6) + Shown(c, 6))
  {
    hide Ascii, Label, Shown;
  }

  /** Leading spaces make no difference. */
  lemma Indented(s: Store, spaces: seq<byte>, cmd: seq<byte>)
    requires HasRoom(s) && AllSpaces(spaces) && cmd != [] && cmd[0] != SPACE
    ensures Commanded(s, spaces + cmd) == Commanded(s, cmd)
  {
    hide KeywordOf, Saved, ShowText, Edited, ArgumentAt;
    SkipTo(spaces, cmd);
    assert SpaceRun(cmd, 0) == 0 && cmd[0..] == cmd;
  }

  // ------------------------------------------------------------------------- from keys to EEPROM

  /** A typed "save" and a return, and any later load bring back the configuration as it was, whatever else is
      typed, loaded or reset meanwhile short of another save. */
  lemma TypedSaveLasts(s: Store, actions: seq<Action>)
    requires HasRoom(s) && s.config.brokerPort != 0 && forall a | a in actions :: !Saves(a)
    ensures var d := N.Executed(s, [], Ascii("save") + [T.CR]);
            && d.saveFlag && d.config == s.config.(magic := MAGIC)
            && Loaded(AfterAll(d, actions)).config == s.config.(magic := MAGIC)
  {
    hide N.Executed, Loaded, AfterAll, Saves, Block, WithBlock;
    SaveTyped(s);
    LoadAfterSave(s, actions);
  }

  lemma SaveTyped(s: Store)
    requires HasRoom(s)
    ensures N.Executed(s, [], Ascii("save") + [T.CR]) == Saved(s)
  {
    var text := Ascii("save");
    assert text == [115, 97, 118, 101];
    hide Ascii, Commanded, N.Executed, KeywordOf, Line;
    N.OneCommand(s, text);
    assert text[..4] == text;
    SaveText(text);
    SaveIs(s);
  }

  lemma SaveText(text: seq<byte>)
    requires text == [115, 97, 118, 101]
    ensures CStr(text) == text
  {
    assert text[1..] == [97, 118, 101] && text[1..][1..] == [118, 101] && text[1..][1..][1..] == [101];
    assert CStr(text[1..][1..][1..][1..]) == [];
  }

  lemma SaveIs(s: Store)
    requires HasRoom(s)
    ensures Commanded(s, Ascii("save")) == Saved(s)
  {
    hide KeywordOf, Line, Ascii, Saved;
    TypedSave([]);
    assert Ascii("save") + [] == Ascii("save");
  }
}
