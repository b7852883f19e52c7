/** The stored configuration: its record, its EEPROM image, and the console commands that change it. */
module Settings {
  import opened Words
  import opened Text
  import opened Addresses

  const CLIENT_ID_SIZE := 16
  const TOPIC_SIZE := 25
  const MAGIC: u32 := 0xBEEF_CAFE

  type ClientIdField = s: seq<byte> | |s| == CLIENT_ID_SIZE witness seq(CLIENT_ID_SIZE, i => 0)
  type TopicField = s: seq<byte> | |s| == TOPIC_SIZE witness seq(TOPIC_SIZE, i => 0)
  type Mac = s: seq<byte> | |s| == 6 witness seq(6, i => 0)

  datatype SmartBellConfig = SmartBellConfig(
    brokerIp: Ip,
    brokerPort: u16,
    clientId: ClientIdField,
    input1Topic: TopicField,
    input2Topic: TopicField,
    gongBaseTopic: TopicField,
    deviceIp: Ip,
    subnet: Ip,
    gateway: Ip,
    mac: Mac,
    magic: u32
  )

  predicate Terminated(s: seq<byte>) {
    0 in s
  }

  predicate IsValidConfig(c: SmartBellConfig) {
    c.magic == MAGIC && c.brokerPort != 0
  }

  /** What the firmware relies on while it runs. */
  predicate Sound(c: SmartBellConfig) {
    && IsValidConfig(c)
    && Terminated(c.clientId)
    && Terminated(c.input1Topic) && Terminated(c.input2Topic) && Terminated(c.gongBaseTopic)
  }

  function Ascii(s: string): (r: seq<byte>)
    ensures |r| == |s|
  {
    seq(|s|, i requires 0 <= i < |s| => (s[i] as int) % 256)
  }

  function Zeros(n: nat): (r: seq<byte>)
    ensures |r| == n && forall b | b in r :: b == 0
  {
    seq(n, i => 0)
  }

  lemma {:induction false} CStrOf(t: seq<byte>, rest: seq<byte>)
    requires 0 !in t && rest != [] && rest[0] == 0
    ensures CStr(t + rest) == t
  {
    if t != [] {
      CStrOf(t[1..], rest);
      assert (t + rest)[1..] == t[1..] + rest;
    } else {
      assert t + rest == rest;
    }
  }

  // ------------------------------------------------------------------------------- EEPROM image

  const CONFIG_SIZE := 119
  const PRIMARY := 128
  const LEGACY := 0
  const EEPROM_USED := PRIMARY + CONFIG_SIZE

  function WordBytes(w: u32): (r: seq<byte>)
    ensures |r| == 4
  {
    [w % 256, w / 256 % 256, w / 256 / 256 % 256, w / 256 / 256 / 256]
  }

  function WordOf(b: seq<byte>): u32
    requires |b| == 4
  {
    (b[0] as int) + 256 * (b[1] as int) + 65536 * (b[2] as int) + 16777216 * (b[3] as int)
  }

  /** The packed little-endian record. */
  function Image(c: SmartBellConfig): (r: seq<byte>)
    ensures |r| == CONFIG_SIZE
  {
    c.brokerIp + [Lo(c.brokerPort), Hi(c.brokerPort)] + c.clientId
    + (c.input1Topic + c.input2Topic + c.gongBaseTopic)
    + (c.deviceIp + c.subnet + c.gateway + c.mac + WordBytes(c.magic))
  }

  function FromImage(b: seq<byte>): SmartBellConfig
    requires |b| == CONFIG_SIZE
  {
    SmartBellConfig(
      b[0..4], Join(b[5], b[4]), b[6..22],
      b[22..47], b[47..72], b[72..97],
      b[97..101], b[101..105], b[105..109], b[109..115], WordOf(b[115..119]))
  }

  lemma WordRoundTrip(w: u32)
    ensures WordOf(WordBytes(w)) == w
  {
  }

  lemma WordImageRoundTrip(b: seq<byte>)
    requires |b| == 4
    ensures WordBytes(WordOf(b)) == b
  {
    var w: int, x: int, y: int, z: int := WordOf(b), b[1], b[2], b[3];
    assert w / 256 == x + 256 * y + 65536 * z;
    assert w / 256 / 256 == y + 256 * z;
    assert w / 256 / 256 / 256 == z;
  }

  /** Where the fields lie, and what marks a valid record. */
  lemma ImageLayout(c: SmartBellConfig)
    ensures var b := Image(c);
            && b[0..4] == c.brokerIp && b[4] == c.brokerPort % 256 && b[5] == c.brokerPort / 256 && b[6..22] == c.clientId
            && b[22..47] == c.input1Topic && b[47..72] == c.input2Topic && b[72..97] == c.gongBaseTopic
            && b[97..101] == c.deviceIp && b[101..105] == c.subnet && b[105..109] == c.gateway && b[109..115] == c.mac
            && (c.magic == MAGIC ==> b[115..119] == [0xFE, 0xCA, 0xEF, 0xBE])
  {
    assert WordBytes(MAGIC) == [0xFE, 0xCA, 0xEF, 0xBE];
    hide WordBytes;
    assert Image(c)[115..119] == WordBytes(c.magic);
  }

  /** Every record survives storage, and every stored image is the image of what is read from it. */
  lemma ImageRoundTrip(c: SmartBellConfig)
    ensures FromImage(Image(c)) == c
  {
    hide WordBytes, WordOf;
    WordRoundTrip(c.magic);
    var b := Image(c);
    assert b[0..4] == c.brokerIp && b[6..22] == c.clientId;
    assert b[22..47] == c.input1Topic && b[47..72] == c.input2Topic && b[72..97] == c.gongBaseTopic;
    assert b[97..101] == c.deviceIp && b[101..105] == c.subnet && b[105..109] == c.gateway;
    assert b[109..115] == c.mac && b[115..119] == WordBytes(c.magic);
  }

  lemma RecordRoundTrip(b: seq<byte>)
    requires |b| == CONFIG_SIZE
    ensures Image(FromImage(b)) == b
  {
    hide WordBytes, WordOf, Join, Hi, Lo;
    WordImageRoundTrip(b[115..119]);
    HiLoJoin(b[5], b[4]);
    assert [b[4], b[5]] == b[4..6];
    Glue(b, 0, 4, 6);
    Glue(b, 0, 6, 22);
    Glue(b, 22, 47, 72);
    Glue(b, 22, 72, 97);
    Glue(b, 97, 101, 105);
    Glue(b, 97, 105, 109);
    Glue(b, 97, 109, 115);
    Glue(b, 97, 115, 119);
    Glue(b, 0, 22, 97);
    Glue(b, 0, 97, 119);
    assert b[0..119] == b;
  }

  lemma Glue(b: seq<byte>, i: nat, j: nat, k: nat)
    requires i <= j <= k <= |b|
    ensures b[i..j] + b[j..k] == b[i..k]
  {
  }

  function Block(eeprom: seq<byte>, addr: nat): SmartBellConfig
    requires addr + CONFIG_SIZE <= |eeprom|
  {
    FromImage(eeprom[addr..addr + CONFIG_SIZE])
  }

  function WithBlock(eeprom: seq<byte>, addr: nat, c: SmartBellConfig): (r: seq<byte>)
    requires addr + CONFIG_SIZE <= |eeprom|
    ensures |r| == |eeprom|
  {
    eeprom[..addr] + Image(c) + eeprom[addr + CONFIG_SIZE..]
  }

  /** A block written reads back; the other block and all other bytes are as before. */
  lemma BlockWritten(e: seq<byte>, c: SmartBellConfig)
    requires EEPROM_USED <= |e|
    ensures var e' := WithBlock(e, PRIMARY, c);
            && Block(e', PRIMARY) == c && Block(e', LEGACY) == Block(e, LEGACY)
            && e'[..PRIMARY] == e[..PRIMARY] && e'[EEPROM_USED..] == e[EEPROM_USED..]
  {
    hide Image, FromImage;
    var e' := WithBlock(e, PRIMARY, c);
    assert e'[PRIMARY..EEPROM_USED] == Image(c);
    assert e'[LEGACY..CONFIG_SIZE] == e[LEGACY..CONFIG_SIZE];
    ImageRoundTrip(c);
  }

  // -------------------------------------------------------------------------- load, save, reset

  /** Everything the configuration manager holds, and the EEPROM. */
  datatype Store = Store(config: SmartBellConfig, saveFlag: bool, eeprom: seq<byte>, out: seq<byte>)

  predicate HasRoom(s: Store) {
    EEPROM_USED <= |s.eeprom|
  }

  function Loaded(s: Store): (r: Store)
    requires HasRoom(s)
    ensures HasRoom(r)
  {
    var primary, legacy := Block(s.eeprom, PRIMARY), Block(s.eeprom, LEGACY);
    if IsValidConfig(primary) then s.(config := primary)
    else if IsValidConfig(legacy) then s.(config := legacy, eeprom := WithBlock(s.eeprom, PRIMARY, legacy))
    else s
  }

  function Saved(s: Store): (r: Store)
    requires HasRoom(s)
    ensures HasRoom(r)
  {
    var c := s.config.(magic := MAGIC);
    Store(c, true, WithBlock(s.eeprom, PRIMARY, c), s.out)
  }

  function ClientIdOf(id: seq<byte>): ClientIdField {
    var n := Min(|id|, CLIENT_ID_SIZE - 1);
    id[..n] + Zeros(CLIENT_ID_SIZE - n)
  }

  /** The three topics are not reset. */
  function Defaults(c: SmartBellConfig): SmartBellConfig {
    c.(brokerIp := [0, 0, 0, 0], brokerPort := 1883, clientId := ClientIdOf(Ascii("smartbell")),
    deviceIp := [192, 168, 1, 100], subnet := [255, 255, 255, 0], gateway := [192, 168, 1, 1],
    mac := [0x00, 0x08, 0xDC, 0xAB, 0xCD, 0xEF], magic := MAGIC)
  }

  // ----------------------------------------------------------------------------------- commands

  const CR: byte := 13
  const LF: byte := 10
  const MAX_TOPIC := TOPIC_SIZE - 1

  /** How much of a text is taken as a topic: up to a line end, at most 24 bytes. */
  function TopicEnd(t: seq<byte>, i: nat): (r: nat)
    requires i <= |t|
    ensures i <= r <= |t|
    decreases |t| - i
  {
    if i < |t| && t[i] != CR && t[i] != LF && i < MAX_TOPIC then TopicEnd(t, i + 1) else i
  }

  /** A topic copied over an older one, of which bytes behind the terminator remain. */
  function TopicOver(dest: TopicField, t: seq<byte>): TopicField
    requires |t| <= MAX_TOPIC
  {
    t + [0] + dest[|t| + 1..]
  }

  predicate StartsTopic(t: seq<byte>) {
    t != [] && t[0] != CR && t[0] != LF
  }

  function NewTopic(dest: TopicField, arg: seq<byte>): TopicField {
    var t := arg[SpaceRun(arg, 0)..];
    var n := TopicEnd(t, 0);
    if StartsTopic(t) then
      TopicEndBounded(t, 0);
      TopicOver(dest, t[..n])
    else dest
  }

  lemma {:induction false} TopicEndBounded(t: seq<byte>, i: nat)
    requires i <= |t| && i <= MAX_TOPIC
    ensures TopicEnd(t, i) <= MAX_TOPIC
    decreases |t| - i
  {
    if i < |t| && t[i] != CR && t[i] != LF && i < MAX_TOPIC {
      TopicEndBounded(t, i + 1);
    }
  }

  datatype Keyword =
    | Help | Show | SetIp | SetSubnet | SetGateway | SetBroker | SetId | SetInput | SetGong
    | Save | Reset | Reboot | Unknown

  /** The command a line starts with; the first keyword that fits counts. */
  function KeywordOf(t: seq<byte>): Keyword {
    if Ascii("help") <= t then Help
    else if Ascii("show") <= t then Show
    else if Ascii("ip ") <= t then SetIp
    else if Ascii("sn ") <= t then SetSubnet
    else if Ascii("gw ") <= t then SetGateway
    else if Ascii("br ") <= t then SetBroker
    else if Ascii("id ") <= t then SetId
    else if Ascii("input ") <= t then SetInput
    else if Ascii("gong sub ") <= t then SetGong
    else if Ascii("save") <= t then Save
    else if Ascii("reset") <= t then Reset
    else if Ascii("reboot") <= t then Reboot
    else Unknown
  }

  /** The keyword's length, where an argument follows. */
  function ArgumentAt(k: Keyword): nat {
    match k
    case SetIp | SetSubnet | SetGateway | SetBroker | SetId => 3
    case SetInput => 6
    case SetGong => 9
    case _ => 0
  }

  lemma KeywordFits(t: seq<byte>)
    ensures ArgumentAt(KeywordOf(t)) <= |t|
  {
    hide Ascii;
  }

  function NewId(c: SmartBellConfig, arg: seq<byte>): SmartBellConfig {
    var id := arg[SpaceRun(arg, 0)..];
    if id == [] then c else c.(clientId := ClientIdOf(id))
  }

  function NewInput(c: SmartBellConfig, arg: seq<byte>): SmartBellConfig {
    if Ascii("1 pt ") <= arg then c.(input1Topic := NewTopic(c.input1Topic, arg[5..]))
    else if Ascii("2 pt ") <= arg then c.(input2Topic := NewTopic(c.input2Topic, arg[5..]))
    else c
  }

  function NewBroker(c: SmartBellConfig, arg: seq<byte>): SmartBellConfig {
    var b := ReadBroker(arg, c.brokerIp, c.brokerPort);
    c.(brokerIp := b.ip, brokerPort := b.port)
  }

  function Edited(c: SmartBellConfig, k: Keyword, arg: seq<byte>): SmartBellConfig {
    match k
    case SetIp => c.(deviceIp := ScanIp(arg, c.deviceIp, 0, 0).ip)
    case SetSubnet => c.(subnet := ScanIp(arg, c.subnet, 0, 0).ip)
    case SetGateway => c.(gateway := ScanIp(arg, c.gateway, 0, 0).ip)
    case SetBroker => NewBroker(c, arg)
    case SetId => NewId(c, arg)
    case SetInput => NewInput(c, arg)
    case SetGong => c.(gongBaseTopic := NewTopic(c.gongBaseTopic, arg))
    case Reset => Defaults(c)
    case _ => c
  }

  /** What "show" sends. */
  function ShowText(c: SmartBellConfig): seq<byte> {
    Ascii("Device IP: ") + IpText(c.deviceIp)
    + (Ascii("\r\nGateway: ") + IpText(c.gateway))
    + (Ascii("\r\nBroker: ") + BrokerText([], c.brokerIp, COLON, [], c.brokerPort, []))
    + (Ascii("\r\nClient ID: ") + CStr(c.clientId))
    + (Ascii("\r\nInput 1 Topic: ") + CStr(c.input1Topic))
    + (Ascii("\r\nInput 2 Topic: ") + CStr(c.input2Topic))
    + (Ascii("\r\nGong Base Topic: ") + CStr(c.gongBaseTopic))
    + Ascii("\r\n")
  }

  /** A line, without leading spaces. */
  function Line(cmd: seq<byte>): seq<byte> {
    cmd[SpaceRun(cmd, 0)..]
  }

  function Argument(cmd: seq<byte>): seq<byte> {
    var t := Line(cmd);
    KeywordFits(t);
    t[ArgumentAt(KeywordOf(t))..]
  }

  function Commanded(s: Store, cmd: seq<byte>): (r: Store)
    requires HasRoom(s)
    ensures HasRoom(r)
  {
    var k := KeywordOf(Line(cmd));
    if k == Save then Saved(s)
    else if k == Show then s.(out := s.out + ShowText(s.config))
    else s.(config := Edited(s.config, k, Argument(cmd)))
  }

  // ------------------------------------------------------------------------- what commands mean

  lemma TerminatedId(id: seq<byte>)
    requires 0 !in id
    ensures Terminated(ClientIdOf(id))
    ensures CStr(ClientIdOf(id)) == id[..Min(|id|, CLIENT_ID_SIZE - 1)]
  {
    var n := Min(|id|, CLIENT_ID_SIZE - 1);
    assert ClientIdOf(id)[n] == 0;
    CStrOf(id[..n], Zeros(CLIENT_ID_SIZE - n));
  }

  /** Whatever topic was there before, the text read back is the new one. */
  lemma TopicWritten(dest: TopicField, t: seq<byte>)
    requires |t| <= MAX_TOPIC && 0 !in t
    ensures Terminated(TopicOver(dest, t)) && CStr(TopicOver(dest, t)) == t
  {
    assert TopicOver(dest, t)[|t|] == 0;
    assert TopicOver(dest, t) == t + ([0] + dest[|t| + 1..]);
    CStrOf(t, [0] + dest[|t| + 1..]);
  }

  lemma TopicKept(dest: TopicField, arg: seq<byte>)
    requires 0 !in arg && Terminated(dest)
    ensures Terminated(NewTopic(dest, arg))
  {
    hide SpaceRun, TopicOver, TopicEnd, Terminated;
    var t := arg[SpaceRun(arg, 0)..];
    TopicEndBounded(t, 0);
    TopicWritten(dest, t[..TopicEnd(t, 0)]);
  }

  lemma ReadBrokerPort(arg: seq<byte>, ip: Ip, port: u16)
    requires port != 0
    ensures ReadBroker(arg, ip, port).port != 0
  {
    hide SpaceRun, ScanIp, Find, DigitRun;
  }

  lemma DefaultsSound(c: SmartBellConfig)
    requires Terminated(c.input1Topic) && Terminated(c.input2Topic) && Terminated(c.gongBaseTopic)
    ensures Sound(Defaults(c))
  {
    var name := Ascii("smartbell");
    assert ClientIdOf(name)[9] == 0;
  }

  lemma EditedSound(c: SmartBellConfig, k: Keyword, arg: seq<byte>)
    requires Sound(c) && 0 !in arg
    ensures Sound(Edited(c, k, arg))
  {
    hide SpaceRun, ScanIp, ReadBroker, NewTopic, ClientIdOf, Defaults, Ascii, Terminated;
    match k
    case SetBroker => ReadBrokerPort(arg, c.brokerIp, c.brokerPort);
    case SetId => TerminatedId(arg[SpaceRun(arg, 0)..]);
    case SetInput =>
      if |arg| >= 5 {
        TopicKept(c.input1Topic, arg[5..]);
        TopicKept(c.input2Topic, arg[5..]);
      }
    case SetGong => TopicKept(c.gongBaseTopic, arg);
    case Reset => DefaultsSound(c);
    case _ =>
  }

  // -------------------------------------------------------------------------------- whole runs

  datatype Action = Load | SaveNow | ResetNow | Command(cmd: seq<byte>) | ConsumeFlag

  function After(s: Store, a: Action): (r: Store)
    requires HasRoom(s)
    ensures HasRoom(r)
  {
    match a
    case Load => Loaded(s)
    case SaveNow => Saved(s)
    case ResetNow => s.(config := Defaults(s.config))
    case Command(cmd) => Commanded(s, cmd)
    case ConsumeFlag => s.(saveFlag := false)
  }

  function AfterAll(s: Store, actions: seq<Action>): (r: Store)
    requires HasRoom(s)
    ensures HasRoom(r)
  {
    if actions == [] then s
    else After(AfterAll(s, actions[..|actions| - 1]), actions[|actions| - 1])
  }

  predicate IsText(a: Action) {
    a.Command? ==> 0 !in a.cmd
  }

  /** An EEPROM block is unusable, such as an erased one, or holds a sound configuration. */
  predicate Trusted(e: seq<byte>, addr: nat)
    requires addr + CONFIG_SIZE <= |e|
  {
    IsValidConfig(Block(e, addr)) ==> Sound(Block(e, addr))
  }

  predicate Good(s: Store) {
    HasRoom(s) && Sound(s.config) && Trusted(s.eeprom, PRIMARY) && Trusted(s.eeprom, LEGACY)
  }

  lemma AfterGood(s: Store, a: Action)
    requires Good(s) && IsText(a)
    ensures Good(After(s, a))
  {
    hide Good, Edited, Defaults, Loaded, Saved, KeywordOf, ShowText, Line, Argument;
    LoadedGood(s);
    SavedGood(s);
    DefaultsGood(s);
    if a.Command? {
      EditedGood(s, KeywordOf(Line(a.cmd)), a.cmd);
    }
    OtherwiseGood(s);
  }

  lemma LoadedGood(s: Store)
    requires Good(s)
    ensures Good(Loaded(s))
  {
    hide Block, WithBlock, Terminated, Sound;
    BlockWritten(s.eeprom, Block(s.eeprom, LEGACY));
  }

  lemma SavedGood(s: Store)
    requires Good(s)
    ensures Good(Saved(s))
  {
    hide Block, WithBlock, Terminated;
    BlockWritten(s.eeprom, s.config.(magic := MAGIC));
  }

  lemma DefaultsGood(s: Store)
    requires Good(s)
    ensures Good(s.(config := Defaults(s.config)))
  {
    hide Defaults, Block, Terminated;
    DefaultsSound(s.config);
  }

  lemma EditedGood(s: Store, k: Keyword, cmd: seq<byte>)
    requires Good(s) && 0 !in cmd && k == KeywordOf(Line(cmd))
    ensures Good(s.(config := Edited(s.config, k, Argument(cmd))))
  {
    hide Edited, Block, Terminated, KeywordOf, Sound;
    EditedSound(s.config, k, Argument(cmd));
  }

  lemma OtherwiseGood(s: Store)
    requires Good(s)
    ensures HasRoom(s) && Good(s.(saveFlag := false)) && Good(s.(out := s.out + ShowText(s.config)))
  {
    hide Block, Sound, ShowText;
  }

  /** Over every run of commands, loads and saves the configuration keeps the magic number, a
      nonzero port and terminated strings, in memory and in the EEPROM. */
  lemma {:induction false} StaysGood(s: Store, actions: seq<Action>)
    requires Good(s) && forall a | a in actions :: IsText(a)
    ensures Good(AfterAll(s, actions))
  {
    hide Sound, Trusted, After;
    if actions != [] {
      StaysGood(s, actions[..|actions| - 1]);
      AfterGood(AfterAll(s, actions[..|actions| - 1]), actions[|actions| - 1]);
    }
  }

  predicate Saves(a: Action) {
    a.SaveNow? || (a.Command? && KeywordOf(Line(a.cmd)) == Save)
  }

  /** Nothing but the primary block is ever written, and that only by a save or by a load that finds
      it unusable. */
  lemma EepromFrame(s: Store, a: Action)
    requires HasRoom(s)
    ensures var e, e' := s.eeprom, After(s, a).eeprom;
            && |e'| == |e| && e'[..PRIMARY] == e[..PRIMARY] && e'[EEPROM_USED..] == e[EEPROM_USED..]
            && Block(e', LEGACY) == Block(e, LEGACY)
            && (e' != e ==> Saves(a) || (a.Load? && !IsValidConfig(Block(e, PRIMARY))))
  {
    hide Edited, Defaults, Block, WithBlock, KeywordOf, ShowText, Image;
    BlockWritten(s.eeprom, s.config.(magic := MAGIC));
    BlockWritten(s.eeprom, Block(s.eeprom, LEGACY));
  }

  lemma {:induction false} PrimaryLasts(s: Store, actions: seq<Action>)
    requires HasRoom(s) && IsValidConfig(Block(s.eeprom, PRIMARY))
    requires forall a | a in actions :: !Saves(a)
    ensures AfterAll(s, actions).eeprom == s.eeprom
  {
    hide After, Saves, Block;
    if actions != [] {
      PrimaryLasts(s, actions[..|actions| - 1]);
      EepromFrame(AfterAll(s, actions[..|actions| - 1]), actions[|actions| - 1]);
    }
  }

  /** A load brings back exactly what was last saved, whatever happened in between. */
  lemma LoadAfterSave(s: Store, actions: seq<Action>)
    requires HasRoom(s) && s.config.brokerPort != 0
    requires forall a | a in actions :: !Saves(a)
    ensures Loaded(AfterAll(Saved(s), actions)).config == s.config.(magic := MAGIC)
  {
    hide Block, WithBlock, Image;
    BlockWritten(s.eeprom, s.config.(magic := MAGIC));
    PrimaryLasts(Saved(s), actions);
  }

  /** An EEPROM that was never written, or is all zero, leaves the configuration as it is. */
  lemma BlankIsNotLoaded(s: Store, b: byte)
    requires HasRoom(s) && (b == 0 || b == 0xFF) && forall i | 0 <= i < EEPROM_USED :: s.eeprom[i] == b
    ensures Loaded(s) == s
  {
    BlankMagic(s.eeprom, PRIMARY, b);
    BlankMagic(s.eeprom, LEGACY, b);
  }

  lemma BlankMagic(e: seq<byte>, addr: nat, b: byte)
    requires addr + CONFIG_SIZE <= |e| && (b == 0 || b == 0xFF) && forall i | addr <= i < addr + CONFIG_SIZE :: e[i] == b
    ensures !IsValidConfig(Block(e, addr))
  {
    var w := e[addr..addr + CONFIG_SIZE];
    assert w[115] == e[addr + 115] && w[116] == e[addr + 116] && w[117] == e[addr + 117] && w[118] == e[addr + 118];
    assert w[115..119] == [b, b, b, b];
    assert WordOf(w[115..119]) != MAGIC;
  }

  /** With port 0, which no command can set and only mutable_config() lets a caller set, a save is not
      loaded back. */
  lemma SaveLoadsIff(s: Store, other: SmartBellConfig)
    requires HasRoom(s) && other.brokerPort != s.config.brokerPort
    ensures Loaded(Saved(s).(config := other)).config == s.config.(magic := MAGIC)
            <==> s.config.brokerPort != 0
  {
    hide Block, WithBlock, Image;
    BlockWritten(s.eeprom, s.config.(magic := MAGIC));
  }

  /** Migration: the legacy block is copied, not disturbed; a second load gives the same
      configuration from the primary block and writes nothing. */
  lemma Migration(s: Store, other: SmartBellConfig)
    requires HasRoom(s) && !IsValidConfig(Block(s.eeprom, PRIMARY)) && IsValidConfig(Block(s.eeprom, LEGACY))
    ensures var m := Loaded(s);
            && m.config == Block(s.eeprom, LEGACY) == Block(m.eeprom, LEGACY) == Block(m.eeprom, PRIMARY)
            && m.eeprom[..PRIMARY] == s.eeprom[..PRIMARY] && m.eeprom[EEPROM_USED..] == s.eeprom[EEPROM_USED..]
            && m.eeprom[PRIMARY..EEPROM_USED] == s.eeprom[LEGACY..CONFIG_SIZE]
            && Loaded(m.(config := other)) == m
  {
    BlockCopied(s.eeprom);
    hide Block, WithBlock;
    BlockWritten(s.eeprom, Block(s.eeprom, LEGACY));
  }

  /** What the migration writes is, byte for byte, what it read. */
  lemma BlockCopied(e: seq<byte>)
    requires EEPROM_USED <= |e|
    ensures WithBlock(e, PRIMARY, Block(e, LEGACY))[PRIMARY..EEPROM_USED] == e[LEGACY..CONFIG_SIZE]
  {
    hide Image, FromImage;
    RecordRoundTrip(e[LEGACY..CONFIG_SIZE]);
  }

  /** Loading twice is loading once. */
  lemma LoadTwice(s: Store)
    requires HasRoom(s)
    ensures Loaded(Loaded(s)) == Loaded(s)
  {
    hide Block, WithBlock;
    BlockWritten(s.eeprom, Block(s.eeprom, LEGACY));
  }

  // ------------------------------------------------------- what is shown can be typed back in

  lemma {:induction false} TopicEndIff(t: seq<byte>, i: nat)
    requires i <= |t| && i <= MAX_TOPIC
    ensures TopicEnd(t, i) == |t| <==> |t| <= MAX_TOPIC && CR !in t[i..] && LF !in t[i..]
    decreases |t| - i
  {
    TopicEndBounded(t, i);
    if i < |t| {
      assert t[i..] == [t[i]] + t[i + 1..];
      if t[i] != CR && t[i] != LF && i < MAX_TOPIC {
        TopicEndIff(t, i + 1);
      }
    }
  }

  /** A topic argument is stored as it is exactly when it has at most 24 bytes and no line end. */
  lemma TopicStoredIff(dest: TopicField, t: seq<byte>)
    requires StartsTopic(t) && t[0] != SPACE && 0 !in t
    ensures CStr(NewTopic(dest, t)) == t <==> |t| <= MAX_TOPIC && CR !in t && LF !in t
  {
    hide TopicOver;
    assert SpaceRun(t, 0) == 0 && t[0..] == t;
    TopicEndBounded(t, 0);
    TopicEndIff(t, 0);
    TopicWritten(dest, t[..TopicEnd(t, 0)]);
  }

  /** An id is stored as it is exactly when it has at most 15 bytes. */
  lemma IdStoredIff(c: SmartBellConfig, id: seq<byte>)
    requires id != [] && id[0] != SPACE && 0 !in id
    ensures CStr(NewId(c, id).clientId) == id <==> |id| < CLIENT_ID_SIZE
  {
    hide ClientIdOf;
    assert SpaceRun(id, 0) == 0 && id[0..] == id;
    TerminatedId(id);
  }

  /** A line made of a keyword and its argument is taken apart again. */
  lemma TypedBroker(arg: seq<byte>)
    ensures var cmd := Ascii("br ") + arg;
            KeywordOf(Line(cmd)) == SetBroker && Argument(cmd) == arg
  {
    var cmd := Ascii("br ") + arg;
    assert cmd[0] == 98 && cmd[1] == 114 && SpaceRun(cmd, 0) == 0 && cmd[0..] == cmd;
    assert Ascii("help")[0] == 104 && Ascii("show")[0] == 115 && Ascii("ip ")[0] == 105;
    assert Ascii("sn ")[0] == 115 && Ascii("gw ")[0] == 103;
    assert cmd[3..] == arg;
  }

  lemma TypedIp(arg: seq<byte>)
    ensures var cmd := Ascii("ip ") + arg;
            KeywordOf(Line(cmd)) == SetIp && Argument(cmd) == arg
  {
    var cmd := Ascii("ip ") + arg;
    assert cmd[0] == 105 && SpaceRun(cmd, 0) == 0 && cmd[0..] == cmd;
    assert Ascii("help")[0] == 104 && Ascii("show")[0] == 115;
    assert cmd[3..] == arg;
  }

  lemma TypedGateway(arg: seq<byte>)
    ensures var cmd := Ascii("gw ") + arg;
            KeywordOf(Line(cmd)) == SetGateway && Argument(cmd) == arg
  {
    var cmd := Ascii("gw ") + arg;
    assert cmd[0] == 103 && SpaceRun(cmd, 0) == 0 && cmd[0..] == cmd;
    assert Ascii("help")[0] == 104 && Ascii("show")[0] == 115 && Ascii("ip ")[0] == 105;
    assert Ascii("sn ")[0] == 115;
    assert cmd[3..] == arg;
  }

  /** The broker text of "show" typed back after "br" sets address and port of the one shown, and
      nothing else; so do the shown addresses after "ip" and "gw". */
  lemma ShownBrokerRestores(s: Store, shown: SmartBellConfig)
    requires HasRoom(s) && shown.brokerPort != 0
    ensures Commanded(s, Ascii("br ") + BrokerText([], shown.brokerIp, COLON, [], shown.brokerPort, [])).config
            == s.config.(brokerIp := shown.brokerIp, brokerPort := shown.brokerPort)
  {
    hide KeywordOf, Line, Argument, ReadBroker, BrokerText, Ascii, Saved, ShowText;
    var text := BrokerText([], shown.brokerIp, COLON, [], shown.brokerPort, []);
    TypedBroker(text);
    BrokerRoundTrip([], shown.brokerIp, COLON, [], shown.brokerPort, [], s.config.brokerIp, s.config.brokerPort);
  }

  lemma ShownAddressesRestore(s: Store, shown: SmartBellConfig)
    requires HasRoom(s)
    ensures Commanded(s, Ascii("ip ") + IpText(shown.deviceIp)).config == s.config.(deviceIp := shown.deviceIp)
    ensures Commanded(s, Ascii("gw ") + IpText(shown.gateway)).config == s.config.(gateway := shown.gateway)
  {
    hide KeywordOf, Line, Argument, ScanIp, IpText, Ascii, Saved, ShowText;
    TypedIp(IpText(shown.deviceIp));
    TypedGateway(IpText(shown.gateway));
    assert IpText(shown.deviceIp) + [] == IpText(shown.deviceIp) && IpText(shown.gateway) + [] == IpText(shown.gateway);
    IpRoundTrip(shown.deviceIp, s.config.deviceIp, []);
    IpRoundTrip(shown.gateway, s.config.gateway, []);
  }

  lemma TypedSubnet(arg: seq<byte>)
    ensures var cmd := Ascii("sn ") + arg;
            KeywordOf(Line(cmd)) == SetSubnet && Argument(cmd) == arg
  {
    var cmd := Ascii("sn ") + arg;
    assert cmd[0] == 115 && cmd[1] == 110 && SpaceRun(cmd, 0) == 0 && cmd[0..] == cmd;
    assert Ascii("help")[0] == 104 && Ascii("show")[1] == 104 && Ascii("ip ")[0] == 105;
    assert cmd[3..] == arg;
  }

  /** A refused address command overwrites the octets of the fields ended by a dot before reading stopped,
      and nothing else; it changes nothing exactly if those octets had these values. */
  lemma RefusedAddress(s: Store, arg: seq<byte>)
    requires HasRoom(s) && AddressOf(arg) == None
    ensures var ip := Over(s.config.deviceIp, Closed(arg, 0, 0));
            && Commanded(s, Ascii("ip ") + arg) == s.(config := s.config.(deviceIp := ip))
            && (Commanded(s, Ascii("ip ") + arg) == s <==> Closed(arg, 0, 0) <= s.config.deviceIp)
    ensures var ip := Over(s.config.subnet, Closed(arg, 0, 0));
            && Commanded(s, Ascii("sn ") + arg) == s.(config := s.config.(subnet := ip))
            && (Commanded(s, Ascii("sn ") + arg) == s <==> Closed(arg, 0, 0) <= s.config.subnet)
    ensures var ip := Over(s.config.gateway, Closed(arg, 0, 0));
            && Commanded(s, Ascii("gw ") + arg) == s.(config := s.config.(gateway := ip))
            && (Commanded(s, Ascii("gw ") + arg) == s <==> Closed(arg, 0, 0) <= s.config.gateway)
  {
    hide KeywordOf, Line, Argument, ScanIp, Ascii, Saved, ShowText, Closed, Over, AddressOf;
    TypedIp(arg);
    TypedSubnet(arg);
    TypedGateway(arg);
    ScanLeaves(arg, s.config.deviceIp);
    ScanLeaves(arg, s.config.subnet);
    ScanLeaves(arg, s.config.gateway);
    OverIff(s.config.deviceIp, Closed(arg, 0, 0));
    OverIff(s.config.subnet, Closed(arg, 0, 0));
    OverIff(s.config.gateway, Closed(arg, 0, 0));
  }

  /** A refused "br" keeps the port, and changes nothing exactly if there is no separator or reading its text
      as an address leaves the broker's address as it was. */
  lemma RefusedBroker(s: Store, arg: seq<byte>)
    requires HasRoom(s) && !ReadBroker(arg, s.config.brokerIp, s.config.brokerPort).ok
    ensures var ip := Commanded(s, Ascii("br ") + arg).config.brokerIp;
            Commanded(s, Ascii("br ") + arg) == s.(config := s.config.(brokerIp := ip))
    ensures var text := arg[SpaceRun(arg, 0)..];
            Commanded(s, Ascii("br ") + arg) == s <==> !Separated(text) || Spares(text, s.config.brokerIp)
  {
    hide KeywordOf, Line, Argument, ReadBroker, Ascii, Saved, ShowText, Spares;
    TypedBroker(arg);
    RefusedEndpoint(arg, s.config.brokerIp, s.config.brokerPort);
  }

  /** So "ip 9.9" sets the first octet, and is refused. */
  lemma RefusedIpExample(s: Store, address: seq<byte>)
    requires HasRoom(s) && address == Ascii("9.9")
    ensures AddressOf(address) == None
    ensures Commanded(s, Ascii("ip ") + address).config == s.config.(deviceIp := s.config.deviceIp[0 := 9])
  {
    hide KeywordOf, Line, Argument, Commanded, Ascii, AddressOf, Closed, Over;
    NineNine(address, s.config.deviceIp);
    RefusedAddress(s, address);
  }

  /** And "br 9.9.9.9:0" sets the whole broker address, and is refused. */
  lemma RefusedBrokerExample(s: Store, endpoint: seq<byte>, nines: Ip)
    requires HasRoom(s) && nines == [9, 9, 9, 9]
    requires endpoint == Ascii("9.9.9.9:0")
    ensures !ReadBroker(endpoint, s.config.brokerIp, s.config.brokerPort).ok
    ensures Commanded(s, Ascii("br ") + endpoint).config == s.config.(brokerIp := nines)
  {
    hide KeywordOf, Line, Argument, Commanded, ReadBroker, Ascii;
    NineNinesPortZero(endpoint, s.config.brokerIp, s.config.brokerPort);
    CommandedBroker(s, endpoint);
  }

  lemma CommandedBroker(s: Store, arg: seq<byte>)
    requires HasRoom(s)
    ensures Commanded(s, Ascii("br ") + arg).config == NewBroker(s.config, arg)
  {
    hide KeywordOf, Line, Argument, NewBroker, Ascii;
    TypedBroker(arg);
  }

  lemma NineNine(s: seq<byte>, ip: Ip)
    requires s == Ascii("9.9")
    ensures AddressOf(s) == None && Over(ip, Closed(s, 0, 0)) == ip[0 := 9]
  {
    assert s == [57, 46, 57];
    assert s[1..] == [46, 57] && s[1..][1..] == [57] && s[1..][1..][1..] == [];
    assert Closed([57], 1, 0) == [] && Closed([46, 57], 0, 9) == [9];
    assert Closed(s, 0, 0) == [9];
    assert Over(ip, [9]) == ip[0 := 9];
    var z: Ip := [0, 0, 0, 0];
    assert !ScanIp([], z[0 := 9], 1, 9).ok;
    assert !ScanIp([57], z[0 := 9], 1, 0).ok;
    assert !ScanIp([46, 57], z, 0, 9).ok;
  }

  lemma NineNinesPortZero(s: seq<byte>, ip: Ip, port: u16)
    requires s == Ascii("9.9.9.9:0")
    ensures ReadBroker(s, ip, port) == Broker([9, 9, 9, 9], port, false)
  {
    hide ReadBroker, IpText, PortOf;
    var nines, zero: seq<byte> := [9, 9, 9, 9], [ZERO];
    FourNines(nines);
    assert s == [57, 46, 57, 46, 57, 46, 57] + ([COLON] + zero);
    ZeroIsNoPort();
    AddressTaken(nines, zero, ip, port);
  }

  lemma FourNines(nines: Ip)
    requires nines == [9, 9, 9, 9]
    ensures IpText(nines) == [57, 46, 57, 46, 57, 46, 57]
  {
    var f := IpFields(nines);
    assert Decimal(9) == [57];
    assert f[1..][1..][1..] == [f[3]];
    assert Dotted(f[1..][1..][1..], []) == [57];
    assert Dotted(f[1..][1..], []) == [57, 46, 57];
    assert Dotted(f[1..], []) == [57, 46, 57, 46, 57];
  }

  lemma ZeroIsNoPort()
    ensures PortOf([ZERO]) == None
  {
    var s: seq<byte> := [ZERO];
    assert SpaceRun(s, 0) == 0;
    assert DigitRun(s, 0) == 1;
    assert s[0..1] == s && DecValue(s) == 0;
  }

  /** The first i bytes of a block replaced by those of an image. */
  function Overlaid(e: seq<byte>, image: seq<byte>, addr: nat, i: nat): (r: seq<byte>)
    requires addr + |image| <= |e| && i <= |image|
    ensures |r| == |e|
  {
    e[..addr] + image[..i] + e[addr + i..]
  }

  lemma OverlayStarts(e: seq<byte>, image: seq<byte>, addr: nat)
    requires addr + |image| <= |e|
    ensures Overlaid(e, image, addr, 0) == e
  {
  }

  lemma OverlayStep(e: seq<byte>, image: seq<byte>, addr: nat, i: nat)
    requires addr + |image| <= |e| && i < |image|
    ensures Overlaid(e, image, addr, i)[addr + i := image[i]] == Overlaid(e, image, addr, i + 1)
  {
  }

  lemma OverlayEnds(e: seq<byte>, c: SmartBellConfig, addr: nat)
    requires addr + CONFIG_SIZE <= |e|
    ensures Overlaid(e, Image(c), addr, CONFIG_SIZE) == WithBlock(e, addr, c)
  {
    hide Image;
    assert Image(c)[..CONFIG_SIZE] == Image(c);
  }

  lemma ByteCopied(dest: TopicField, t: seq<byte>, len: nat)
    requires len < |t| && len < MAX_TOPIC
    ensures (t[..len] + dest[len..])[len := t[len]] == t[..len + 1] + dest[len + 1..]
  {
  }

  lemma TopicClosed(dest: TopicField, t: seq<byte>, len: nat)
    requires len <= |t| && len <= MAX_TOPIC
    ensures (t[..len] + dest[len..])[len := 0] == TopicOver(dest, t[..len])
  {
  }

  // ------------------------------------------------------------------------ LightweightConfig

  class LightweightConfig {
    var config: SmartBellConfig
    var saveFlag: bool
    var out: seq<byte>
    const eeprom: array<byte>

    ghost predicate Valid() {
      EEPROM_USED <= eeprom.Length
    }

    ghost function State(): (s: Store)
      requires Valid()
      reads this, eeprom
      ensures HasRoom(s)
    {
      Store(config, saveFlag, eeprom[..], out)
    }

    /** Static storage is zero; the defaults make it sound. */
    constructor (eeprom: array<byte>)
      requires EEPROM_USED <= eeprom.Length
      ensures Valid() && this.eeprom == eeprom && !saveFlag && out == []
      ensures Sound(config)
      ensures config.input1Topic == config.input2Topic == config.gongBaseTopic == Zeros(TOPIC_SIZE)
    {
      this.eeprom := eeprom;
      var zeros := Zeros(TOPIC_SIZE);
      var blank := SmartBellConfig([0, 0, 0, 0], 0, Zeros(CLIENT_ID_SIZE), zeros, zeros, zeros,
        [0, 0, 0, 0], [0, 0, 0, 0], [0, 0, 0, 0], Zeros(6), 0);
      config, saveFlag, out := Defaults(blank), false, [];
      assert zeros[0] == 0;
      DefaultsSound(blank);
    }

    // eeprom_read_block
    method ReadBlock(addr: nat) returns (c: SmartBellConfig)
      requires addr + CONFIG_SIZE <= eeprom.Length
      ensures c == Block(eeprom[..], addr)
    {
      hide FromImage;
      assert eeprom[addr..addr + CONFIG_SIZE] == eeprom[..][addr..addr + CONFIG_SIZE];
      c := FromImage(eeprom[addr..addr + CONFIG_SIZE]);
    }

    // eeprom_update_block: only bytes that differ are written
    method UpdateBlock(c: SmartBellConfig, addr: nat)
      requires addr + CONFIG_SIZE <= eeprom.Length
      modifies eeprom
      ensures eeprom[..] == WithBlock(old(eeprom[..]), addr, c)
    {
      hide Image, Overlaid;
      var image := Image(c);
      ghost var was := eeprom[..];
      OverlayStarts(was, image, addr);
      for i := 0 to CONFIG_SIZE
        invariant eeprom[..] == Overlaid(was, image, addr, i)
      {
        OverlayStep(was, image, addr, i);
        if eeprom[addr + i] != image[i] {
          eeprom[addr + i] := image[i];
        }
      }
      OverlayEnds(was, c, addr);
    }

    method ResetToDefaults()
      requires Valid()
      modifies this`config
      ensures State() == After(old(State()), ResetNow)
    {
      config := Defaults(config);
    }

    method Load()
      requires Valid()
      modifies this`config, eeprom
      ensures State() == After(old(State()), Action.Load)
    {
      hide Block, WithBlock;
      var temp := ReadBlock(PRIMARY);
      if IsValidConfig(temp) {
        config := temp;
        return;
      }
      temp := ReadBlock(LEGACY);
      if IsValidConfig(temp) {
        config := temp;
        UpdateBlock(config, PRIMARY);
      }
    }

    method SaveConfig()
      requires Valid()
      modifies this`config, this`saveFlag, eeprom
      ensures State() == After(old(State()), SaveNow)
    {
      hide WithBlock;
      config := config.(magic := MAGIC);
      UpdateBlock(config, PRIMARY);
      saveFlag := true;
    }

    method ConsumeSaveFlag() returns (r: bool)
      requires Valid()
      modifies this`saveFlag
      ensures r == old(saveFlag)
      ensures State() == After(old(State()), ConsumeFlag)
    {
      r := saveFlag;
      saveFlag := false;
    }

    /** The copying loop of the topic commands. */
    method CopyTopic(dest0: TopicField, t: seq<byte>) returns (dest: TopicField)
      ensures TopicEnd(t, 0) <= MAX_TOPIC && dest == TopicOver(dest0, t[..TopicEnd(t, 0)])
    {
      dest := dest0;
      var len: nat := 0;
      while len < |t| && t[len] != CR && t[len] != LF && len < MAX_TOPIC
        invariant len <= |t| && len <= MAX_TOPIC && TopicEnd(t, len) == TopicEnd(t, 0)
        invariant dest == t[..len] + dest0[len..]
        decreases |t| - len
      {
        ByteCopied(dest0, t, len);
        dest := dest[len := t[len]];
        len := len + 1;
      }
      TopicClosed(dest0, t, len);
      dest := dest[len := 0];
    }

    method Show()
      requires Valid()
      modifies this`out
      ensures State() == old(State()).(out := old(out) + ShowText(config))
    {
      hide Ascii, CStr, Decimal, IpText;
      var device := PrintIp(config.deviceIp);
      var gateway := PrintIp(config.gateway);
      var broker := PrintIp(config.brokerIp);
      var port := PrintPort(config.brokerPort);
      assert [] + Decimal(config.brokerPort) + [] == Decimal(config.brokerPort);
      assert [] + (broker + ([COLON] + port)) == broker + ([COLON] + port);
      out := out
        + (Ascii("Device IP: ") + device
        + (Ascii("\r\nGateway: ") + gateway)
        + (Ascii("\r\nBroker: ") + (broker + ([COLON] + port)))
        + (Ascii("\r\nClient ID: ") + CStr(config.clientId))
        + (Ascii("\r\nInput 1 Topic: ") + CStr(config.input1Topic))
        + (Ascii("\r\nInput 2 Topic: ") + CStr(config.input2Topic))
        + (Ascii("\r\nGong Base Topic: ") + CStr(config.gongBaseTopic))
        + Ascii("\r\n"));
    }

    method SetBrokerFrom(arg0: seq<byte>)
      requires Valid()
      modifies this`config
      ensures config == NewBroker(old(config), arg0)
    {
      hide ScanIp, PortOf;
      var i := SkipSpaces(arg0, 0);
      var arg := arg0[i..];
      var colon := Find(arg, COLON);
      var sep := if colon.Some? then colon else Find(arg, SPACE);
      if sep.None? {
        return;
      }
      var ip, ok := ParseIp(arg, config.brokerIp);
      config := config.(brokerIp := ip);
      if !ok {
        return;
      }
      var port := ParsePort(arg[sep.value + 1..]);
      if port.Some? {
        config := config.(brokerPort := port.value);
      }
    }

    method SetTopic(dest0: TopicField, arg: seq<byte>) returns (dest: TopicField)
      ensures dest == NewTopic(dest0, arg)
    {
      hide TopicOver;
      var i := SkipSpaces(arg, 0);
      var t := arg[i..];
      dest := dest0;
      if t != [] && t[0] != CR && t[0] != LF {
        dest := CopyTopic(dest0, t);
      }
    }

    method SetInputFrom(arg: seq<byte>)
      requires Valid()
      modifies this`config
      ensures config == NewInput(old(config), arg)
    {
      hide Ascii, NewTopic;
      var isInput1, isInput2 := Ascii("1 pt ") <= arg, Ascii("2 pt ") <= arg;
      if isInput1 || isInput2 {
        var topic := SetTopic(if isInput1 then config.input1Topic else config.input2Topic, arg[5..]);
        config := if isInput1 then config.(input1Topic := topic) else config.(input2Topic := topic);
      }
    }

    method ProcessCommand(cmd: seq<byte>) returns (known: bool)
      requires Valid() && 0 !in cmd
      modifies this, eeprom
      ensures State() == After(old(State()), Command(cmd))
      ensures known <==> !KeywordOf(Line(cmd)).Unknown?
    {
      hide Ascii, ScanIp, NewTopic, NewBroker, Saved, ShowText, Defaults, SpaceRun, ClientIdOf, KeywordOf;
      var i := SkipSpaces(cmd, 0);
      var line := cmd[i..];
      var k := KeywordOf(line);
      KeywordFits(line);
      var arg := line[ArgumentAt(k)..];
      known := true;
      match k
      case Show => Show();
      case SetIp =>
        var ip, _ := ParseIp(arg, config.deviceIp);
        config := config.(deviceIp := ip);
      case SetSubnet =>
        var ip, _ := ParseIp(arg, config.subnet);
        config := config.(subnet := ip);
      case SetGateway =>
        var ip, _ := ParseIp(arg, config.gateway);
        config := config.(gateway := ip);
      case SetBroker => SetBrokerFrom(arg);
      case SetId =>
        var at := SkipSpaces(arg, 0);
        if at < |arg| {
          config := config.(clientId := ClientIdOf(arg[at..]));
        }
      case SetInput => SetInputFrom(arg);
      case SetGong =>
        var topic := SetTopic(config.gongBaseTopic, arg);
        config := config.(gongBaseTopic := topic);
      case Save => SaveConfig();
      case Reset => ResetToDefaults();
      case Help | Reboot =>
      case Unknown => known := false;
    }
  }
}
