// Reading and printing a WireGuard configuration (internal/config/parser.go).
module ConfigFile {
  import opened Common
  import opened Numbers
  import opened ConfigText

  datatype Interface = Interface(
    privateKey: string, address: seq<string>, dns: seq<string>, mtu: int, listenPort: int, table: string,
    fwMark: string, preUp: string, postUp: string, preDown: string, postDown: string, extra: map<string, string>)

  datatype Peer = Peer(
    publicKey: string, presharedKey: string, endpoint: string, allowedIPs: seq<string>, keepalive: int,
    extra: map<string, string>)

  datatype Config = Config(iface: Interface, peers: seq<Peer>)

  const NO_INTERFACE := Interface("", [], [], 0, 0, "", "", "", "", "", "", map[])
  const NO_PEER := Peer("", "", "", [], 0, map[])

  datatype ConfigError =
    | NoEquals(line: nat)
    | OutsideSection(line: nat, key: string)
    | BadNumber(line: nat, value: string)
    | NoPrivateKey

  datatype Family = V4 | V6

  /** net.ParseIP, as far as it matters here. */
  datatype Net = Net(family: string -> Option<Family>)

  // ---- values ----

  /** Lower case, as far as an ASCII result is concerned. */
  function Lower(c: char): char {
    if 'A' <= c <= 'Z' then (c as int + 32) as char
    else if c == '\U{212A}' then 'k'
    else if c == '\U{130}' then 'i'
    else c
  }

  function ToLower(s: string): string { if s == "" then "" else [Lower(s[0])] + ToLower(s[1..]) }

  const NUL := '\0'

  function AppendScriptLine(existing: string, value: string): string {
    if existing == "" then value else existing + [NUL] + value
  }

  function AddExtraKey(m: map<string, string>, key: string, value: string): map<string, string> {
    m[key := if key in m then m[key] + [NUL] + value else value]
  }

  /** A bare address gets its full prefix length. */
  function WithPrefix(net: Net, v: string): string {
    if '/' in v || net.family(v).None? then v
    else if net.family(v).value == V4 then v + "/32" else v + "/128"
  }

  function WithPrefixes(net: Net, list: seq<string>): (r: seq<string>)
    ensures |r| == |list| && forall i | 0 <= i < |r| :: r[i] == WithPrefix(net, list[i])
  {
    if list == [] then [] else [WithPrefix(net, list[0])] + WithPrefixes(net, list[1..])
  }

  function SplitPrefixes(net: Net, s: string): seq<string> { WithPrefixes(net, SplitAndTrim(s)) }

  // ---- keys ----

  datatype InterfaceKey =
    PrivateKey | Address | Dns | Mtu | ListenPort | Table | FwMark | PreUp | PostUp | PreDown | PostDown | OtherKey

  function InterfaceKeyOf(key: string): InterfaceKey {
    match ToLower(key)
    case "privatekey" => PrivateKey
    case "address" => Address
    case "dns" => Dns
    case "mtu" => Mtu
    case "listenport" => ListenPort
    case "table" => Table
    case "fwmark" => FwMark
    case "preup" => PreUp
    case "postup" => PostUp
    case "predown" => PreDown
    case "postdown" => PostDown
    case _ => OtherKey
  }

  datatype PeerKey = PublicKey | PresharedKey | Endpoint | AllowedIPs | Keepalive | OtherPeerKey

  function PeerKeyOf(key: string): PeerKey {
    match ToLower(key)
    case "publickey" => PublicKey
    case "presharedkey" => PresharedKey
    case "endpoint" => Endpoint
    case "allowedips" => AllowedIPs
    case "persistentkeepalive" => Keepalive
    case _ => OtherPeerKey
  }

  function SetInterface(net: Net, i: Interface, key: string, value: string, line: nat): Result<Interface, ConfigError> {
    match InterfaceKeyOf(key)
    case PrivateKey => Ok(i.(privateKey := value))
    case Address => Ok(i.(address := i.address + SplitPrefixes(net, value)))
    case Dns => Ok(i.(dns := i.dns + SplitAndTrim(value)))
    case Mtu => if Atoi(value).None? then Err(BadNumber(line, value)) else Ok(i.(mtu := Atoi(value).value))
    case ListenPort => if Atoi(value).None? then Err(BadNumber(line, value)) else Ok(i.(listenPort := Atoi(value).value))
    case Table => Ok(i.(table := value))
    case FwMark => Ok(i.(fwMark := value))
    case PreUp => Ok(i.(preUp := AppendScriptLine(i.preUp, value)))
    case PostUp => Ok(i.(postUp := AppendScriptLine(i.postUp, value)))
    case PreDown => Ok(i.(preDown := AppendScriptLine(i.preDown, value)))
    case PostDown => Ok(i.(postDown := AppendScriptLine(i.postDown, value)))
    case OtherKey => Ok(i.(extra := AddExtraKey(i.extra, key, value)))
  }

  function SetPeer(net: Net, p: Peer, key: string, value: string, line: nat): Result<Peer, ConfigError> {
    match PeerKeyOf(key)
    case PublicKey => Ok(p.(publicKey := value))
    case PresharedKey => Ok(p.(presharedKey := value))
    case Endpoint => Ok(p.(endpoint := value))
    case AllowedIPs => Ok(p.(allowedIPs := p.allowedIPs + SplitPrefixes(net, value)))
    case Keepalive => if Atoi(value).None? then Err(BadNumber(line, value)) else Ok(p.(keepalive := Atoi(value).value))
    case OtherPeerKey => Ok(p.(extra := AddExtraKey(p.extra, key, value)))
  }

  // ---- lines ----

  /** What one line of the file says. */
  datatype Item = Nothing | InterfaceHeader | PeerHeader | Pair(key: string, value: string) | Malformed

  /** bufio.ScanLines: without line ends, and without an empty last line. */
  function ScanLines(s: string): seq<string>
    decreases |s|
  {
    if s == "" then []
    else
      var i := IndexOf(s, '\n');
      if i == |s| then [DropCR(s)] else [DropCR(s[..i])] + ScanLines(s[i+1..])
  }

  function DropCR(l: string): string { if l != "" && l[|l|-1] == '\r' then l[..|l|-1] else l }

  /** The line up to the first '#', trimmed. */
  function Content(line: string): string { TrimSpace(line[..IndexOf(line, '#')]) }

  function ItemOf(line: string): Item {
    var c := Content(line);
    if c == "" || c[0] == ';' then Nothing
    else if ToLower(c) == "[interface]" then InterfaceHeader
    else if ToLower(c) == "[peer]" then PeerHeader
    else
      var i := IndexOf(c, '=');
      if i == |c| then Malformed else Pair(TrimSpace(c[..i]), TrimSpace(c[i+1..]))
  }

  function ItemsOf(lines: seq<string>): (r: seq<Item>)
    ensures |r| == |lines| && forall i | 0 <= i < |r| :: r[i] == ItemOf(lines[i])
  {
    if lines == [] then [] else [ItemOf(lines[0])] + ItemsOf(lines[1..])
  }

  datatype Section = NoSection | InInterface | InPeer

  datatype Loading = Loading(config: Config, section: Section)

  const EMPTY := Loading(Config(NO_INTERFACE, []), NoSection)

  /** The effect of one line. */
  function Load(net: Net, st: Loading, item: Item, line: nat): Result<Loading, ConfigError> {
    match item
    case Nothing => Ok(st)
    case InterfaceHeader => Ok(st.(section := InInterface))
    case PeerHeader => Ok(Loading(st.config.(peers := st.config.peers + [NO_PEER]), InPeer))
    case Malformed => Err(NoEquals(line))
    case Pair(key, value) =>
      match st.section
      case NoSection => Err(OutsideSection(line, key))
      case InInterface =>
        (match SetInterface(net, st.config.iface, key, value, line)
         case Err(e) => Err(e)
         case Ok(i) => Ok(st.(config := st.config.(iface := i))))
      case InPeer =>
        var n := |st.config.peers|;
        if n == 0 then Err(OutsideSection(line, key))
        else
          (match SetPeer(net, st.config.peers[n-1], key, value, line)
           case Err(e) => Err(e)
           case Ok(p) => Ok(st.(config := st.config.(peers := st.config.peers[n-1 := p]))))
  }

  /** The effect of lines numbered from k. */
  function LoadAll(net: Net, st: Loading, items: seq<Item>, k: nat): Result<Loading, ConfigError>
    decreases |items|
  {
    if items == [] then Ok(st)
    else
      match Load(net, st, items[0], k)
      case Err(e) => Err(e)
      case Ok(next) => LoadAll(net, next, items[1..], k + 1)
  }

  const BOM := '\U{FEFF}'

  function WithoutBOM(s: string): string { if s != "" && s[0] == BOM then s[1..] else s }

  function Parsed(net: Net, s: string): Result<Config, ConfigError> {
    match LoadAll(net, EMPTY, ItemsOf(ScanLines(WithoutBOM(s))), 1)
    case Err(e) => Err(e)
    case Ok(st) => if st.config.iface.privateKey == "" then Err(NoPrivateKey) else Ok(st.config)
  }

  /** One line, in the section that the lines before it have opened. */
  method LoadLine(net: Net, raw: string, num: nat, iface: Interface, peers: seq<Peer>, section: Section)
    returns (r: Result<Loading, ConfigError>)
    ensures r == Load(net, Loading(Config(iface, peers), section), ItemOf(raw), num)
  {
    hide SetInterface, SetPeer, ToLower, TrimSpace, IndexOf;
    var same := Loading(Config(iface, peers), section);
    var line := TrimSpace(raw[..IndexOf(raw, '#')]);
    if line == "" || line[0] == ';' {
      return Ok(same);
    }
    var lower := ToLower(line);
    if lower == "[interface]" {
      return Ok(same.(section := InInterface));
    }
    if lower == "[peer]" {
      return Ok(Loading(Config(iface, peers + [NO_PEER]), InPeer));
    }
    var eq := IndexOf(line, '=');
    if eq == |line| {
      return Err(NoEquals(num));
    }
    var key, value := TrimSpace(line[..eq]), TrimSpace(line[eq+1..]);
    match section {
      case InInterface =>
        var updated := SetInterface(net, iface, key, value, num);
        if updated.Err? {
          return Err(updated.error);
        }
        return Ok(Loading(Config(updated.value, peers), section));
      case InPeer =>
        if |peers| == 0 {
          return Err(OutsideSection(num, key));
        }
        var updated := SetPeer(net, peers[|peers|-1], key, value, num);
        if updated.Err? {
          return Err(updated.error);
        }
        return Ok(Loading(Config(iface, peers[|peers|-1 := updated.value]), section));
      case NoSection =>
        return Err(OutsideSection(num, key));
    }
  }

  lemma LoadFirst(net: Net, st: Loading, lines: seq<string>, i: nat)
    requires i < |lines|
    ensures LoadAll(net, st, ItemsOf(lines[i..]), i + 1) ==
            match Load(net, st, ItemOf(lines[i]), i + 1)
            case Err(e) => Err(e)
            case Ok(next) => LoadAll(net, next, ItemsOf(lines[i+1..]), i + 2)
  {
    hide Load, ItemOf;
    assert lines[i..][0] == lines[i] && lines[i..][1..] == lines[i+1..];
    assert ItemsOf(lines[i..])[1..] == ItemsOf(lines[i+1..]);
  }

  method Parse(net: Net, s: string) returns (r: Result<Config, ConfigError>)
    ensures r == Parsed(net, s)
  {
    hide Load, ItemOf, ScanLines, WithoutBOM;
    var lines := ScanLines(WithoutBOM(s));
    var iface, peers, section := NO_INTERFACE, [], NoSection;
    for i := 0 to |lines|
      invariant LoadAll(net, Loading(Config(iface, peers), section), ItemsOf(lines[i..]), i + 1) ==
                LoadAll(net, EMPTY, ItemsOf(lines), 1)
    {
      LoadFirst(net, Loading(Config(iface, peers), section), lines, i);
      var loaded := LoadLine(net, lines[i], i + 1, iface, peers, section);
      if loaded.Err? {
        return Err(loaded.error);
      }
      iface, peers, section := loaded.value.config.iface, loaded.value.config.peers, loaded.value.section;
    }
    if iface.privateKey == "" {
      return Err(NoPrivateKey);
    }
    return Ok(Config(iface, peers));
  }

  // ---- printing ----

  function Pairs(key: string, values: seq<string>): seq<Item> {
    if values == [] then [] else [Pair(key, values[0])] + Pairs(key, values[1..])
  }

  /** One line per part of a stored value, none for an empty one. */
  function ScriptItems(key: string, value: string): seq<Item> {
    if value == "" then [] else Pairs(key, Split(value, NUL))
  }

  function TextItems(key: string, value: string): seq<Item> { if value == "" then [] else [Pair(key, value)] }

  function ListItems(key: string, list: seq<string>): seq<Item> { if list == [] then [] else [Pair(key, Join(list))] }

  function NumberItems(key: string, n: int): seq<Item> { if n <= 0 then [] else [Pair(key, Itoa(n))] }

  function ExtraItems(keys: seq<string>, m: map<string, string>): seq<Item>
    requires forall k | k in keys :: k in m
  {
    if keys == [] then [] else ScriptItems(keys[0], m[keys[0]]) + ExtraItems(keys[1..], m)
  }

  ghost function InterfaceItems(i: Interface): seq<Item> {
    [Pair("PrivateKey", i.privateKey)] +
    (ListItems("Address", i.address) +
     (ListItems("DNS", i.dns) +
      (NumberItems("MTU", i.mtu) +
       (NumberItems("ListenPort", i.listenPort) +
        (TextItems("Table", i.table) +
         (TextItems("FwMark", i.fwMark) +
          (ScriptItems("PreUp", i.preUp) +
           (ScriptItems("PostUp", i.postUp) +
            (ScriptItems("PreDown", i.preDown) +
             (ScriptItems("PostDown", i.postDown) + ExtraItems(SortedKeys(i.extra.Keys), i.extra)))))))))))
  }

  ghost function PeerItems(p: Peer): seq<Item> {
    [Nothing, PeerHeader, Pair("PublicKey", p.publicKey)] +
    (TextItems("PresharedKey", p.presharedKey) +
     (TextItems("Endpoint", p.endpoint) +
      (ListItems("AllowedIPs", p.allowedIPs) +
       (NumberItems("PersistentKeepalive", p.keepalive) + ExtraItems(SortedKeys(p.extra.Keys), p.extra)))))
  }

  ghost function PeersItems(peers: seq<Peer>): seq<Item> {
    if peers == [] then [] else PeerItems(peers[0]) + PeersItems(peers[1..])
  }

  ghost function ConfigItems(c: Config): seq<Item> {
    [InterfaceHeader] + (InterfaceItems(c.iface) + PeersItems(c.peers))
  }

  function Line(item: Item): string {
    match item
    case InterfaceHeader => "[Interface]"
    case PeerHeader => "[Peer]"
    case Pair(key, value) => key + " = " + value
    case _ => ""
  }

  function Text(items: seq<Item>): string {
    if items == [] then "" else Line(items[0]) + "\n" + Text(items[1..])
  }

  lemma {:induction false} TextConcat(a: seq<Item>, b: seq<Item>)
    ensures Text(a + b) == Text(a) + Text(b)
  {
    if a == [] {
      assert a + b == b;
    } else {
      assert (a + b)[1..] == a[1..] + b;
      TextConcat(a[1..], b);
    }
  }

  lemma TextOne(item: Item)
    ensures Text([item]) == Line(item) + "\n"
  {
    assert [item][1..] == [];
    assert Line(item) + "\n" + "" == Line(item) + "\n";
  }

  /** The rest of a builder after one part. */
  lemma Then(b: string, r: string, part: seq<Item>, rest: seq<Item>)
    requires r == b + Text(part)
    ensures r + Text(rest) == b + Text(part + rest)
  {
    hide Text;
    TextConcat(part, rest);
    Associate(b, Text(part), Text(rest));
  }

  lemma Associate(a: string, b: string, c: string)
    ensures a + b + c == a + (b + c)
  {}

  method WriteScriptLines(b: string, key: string, value: string) returns (r: string)
    ensures r == b + Text(ScriptItems(key, value))
  {
    r := b;
    if value == "" {
      assert b + "" == b;
      return;
    }
    var parts := Split(value, NUL);
    for j := 0 to |parts|
      invariant r + Text(Pairs(key, parts[j..])) == b + Text(Pairs(key, parts))
    {
      var line := key + " = " + parts[j] + "\n";
      assert Pairs(key, parts[j..])[1..] == Pairs(key, parts[j+1..]) && parts[j..][1..] == parts[j+1..];
      assert r + (line + Text(Pairs(key, parts[j+1..]))) == r + line + Text(Pairs(key, parts[j+1..]));
      r := r + line;
    }
    assert r + "" == r && parts[0..] == parts;
  }

  method WriteExtraKeys(b: string, m: map<string, string>) returns (r: string)
    ensures r == b + Text(ExtraItems(SortedKeys(m.Keys), m))
  {
    var keys := SortKeys(m.Keys);
    hide Text, ScriptItems, SortedKeys;
    r := b;
    assert keys[0..] == keys;
    for j := 0 to |keys|
      invariant r + Text(ExtraItems(keys[j..], m)) == b + Text(ExtraItems(keys, m))
    {
      var k := keys[j];
      assert k in keys && keys[j..][0] == k && keys[j..][1..] == keys[j+1..];
      ghost var before := r;
      r := WriteScriptLines(r, k, m[k]);
      Then(before, r, ScriptItems(k, m[k]), ExtraItems(keys[j+1..], m));
    }
    assert keys[|keys|..] == [];
    NoText(r);
  }

  lemma NoText(r: string)
    ensures r + Text([]) == r
  {}

  method WriteText(b: string, key: string, value: string) returns (r: string)
    ensures r == b + Text(TextItems(key, value))
  {
    r := b;
    TextOne(Pair(key, value));
    if value != "" {
      r := r + (key + " = " + value + "\n");
    } else {
      assert b + "" == b;
    }
  }

  method WriteList(b: string, key: string, list: seq<string>) returns (r: string)
    ensures r == b + Text(ListItems(key, list))
  {
    r := b;
    TextOne(Pair(key, Join(list)));
    if |list| > 0 {
      r := r + (key + " = " + Join(list) + "\n");
    } else {
      assert b + "" == b;
    }
  }

  method WriteNumber(b: string, key: string, n: int) returns (r: string)
    ensures r == b + Text(NumberItems(key, n))
  {
    r := b;
    if n > 0 {
      TextOne(Pair(key, Itoa(n)));
      r := r + (key + " = " + Itoa(n) + "\n");
    } else {
      assert b + "" == b;
    }
  }

  method WriteInterface(b: string, i: Interface) returns (r: string)
    ensures r == b + Text(InterfaceItems(i))
  {
    hide Text;
    TextOne(Pair("PrivateKey", i.privateKey));
    var b0 := b + ("PrivateKey = " + i.privateKey + "\n");
    var b1 := WriteList(b0, "Address", i.address);
    var b2 := WriteList(b1, "DNS", i.dns);
    var b3 := WriteNumber(b2, "MTU", i.mtu);
    var b4 := WriteNumber(b3, "ListenPort", i.listenPort);
    var b5 := WriteText(b4, "Table", i.table);
    var b6 := WriteText(b5, "FwMark", i.fwMark);
    var b7 := WriteScriptLines(b6, "PreUp", i.preUp);
    var b8 := WriteScriptLines(b7, "PostUp", i.postUp);
    var b9 := WriteScriptLines(b8, "PreDown", i.preDown);
    var b10 := WriteScriptLines(b9, "PostDown", i.postDown);
    r := WriteExtraKeys(b10, i.extra);
    ghost var x10 := ExtraItems(SortedKeys(i.extra.Keys), i.extra);
    ghost var x9 := ScriptItems("PostDown", i.postDown) + x10;
    ghost var x8 := ScriptItems("PreDown", i.preDown) + x9;
    ghost var x7 := ScriptItems("PostUp", i.postUp) + x8;
    ghost var x6 := ScriptItems("PreUp", i.preUp) + x7;
    ghost var x5 := TextItems("FwMark", i.fwMark) + x6;
    ghost var x4 := TextItems("Table", i.table) + x5;
    ghost var x3 := NumberItems("ListenPort", i.listenPort) + x4;
    ghost var x2 := NumberItems("MTU", i.mtu) + x3;
    ghost var x1 := ListItems("DNS", i.dns) + x2;
    Then(b9, b10, ScriptItems("PostDown", i.postDown), x10);
    Then(b8, b9, ScriptItems("PreDown", i.preDown), x9);
    Then(b7, b8, ScriptItems("PostUp", i.postUp), x8);
    Then(b6, b7, ScriptItems("PreUp", i.preUp), x7);
    Then(b5, b6, TextItems("FwMark", i.fwMark), x6);
    Then(b4, b5, TextItems("Table", i.table), x5);
    Then(b3, b4, NumberItems("ListenPort", i.listenPort), x4);
    Then(b2, b3, NumberItems("MTU", i.mtu), x3);
    Then(b1, b2, ListItems("DNS", i.dns), x2);
    Then(b0, b1, ListItems("Address", i.address), x1);
    assert "PrivateKey" + " = " == "PrivateKey = ";
    Then(b, b0, [Pair("PrivateKey", i.privateKey)], ListItems("Address", i.address) + x1);
  }

  lemma PeerHead(key: string)
    ensures Text([Nothing, PeerHeader, Pair("PublicKey", key)]) == "\n[Peer]\n" + ("PublicKey = " + key + "\n")
  {
    hide Text;
    TextOne(Nothing);
    TextOne(PeerHeader);
    TextOne(Pair("PublicKey", key));
    TextConcat([Nothing], [PeerHeader] + [Pair("PublicKey", key)]);
    TextConcat([PeerHeader], [Pair("PublicKey", key)]);
    assert [Nothing, PeerHeader, Pair("PublicKey", key)] == [Nothing] + ([PeerHeader] + [Pair("PublicKey", key)]);
    assert "PublicKey" + " = " == "PublicKey = ";
    Associate("\n", "[Peer]\n", "PublicKey = " + key + "\n");
    assert "\n" + "[Peer]\n" == "\n[Peer]\n";
  }

  method WritePeer(b: string, p: Peer) returns (r: string)
    ensures r == b + Text(PeerItems(p))
  {
    hide Text;
    var head := [Nothing, PeerHeader, Pair("PublicKey", p.publicKey)];
    var b0 := b + ("\n[Peer]\n" + ("PublicKey = " + p.publicKey + "\n"));
    PeerHead(p.publicKey);
    var b1 := WriteText(b0, "PresharedKey", p.presharedKey);
    var b2 := WriteText(b1, "Endpoint", p.endpoint);
    var b3 := WriteList(b2, "AllowedIPs", p.allowedIPs);
    var b4 := WriteNumber(b3, "PersistentKeepalive", p.keepalive);
    r := WriteExtraKeys(b4, p.extra);
    ghost var x4 := ExtraItems(SortedKeys(p.extra.Keys), p.extra);
    ghost var x3 := NumberItems("PersistentKeepalive", p.keepalive) + x4;
    ghost var x2 := ListItems("AllowedIPs", p.allowedIPs) + x3;
    ghost var x1 := TextItems("Endpoint", p.endpoint) + x2;
    Then(b3, b4, NumberItems("PersistentKeepalive", p.keepalive), x4);
    Then(b2, b3, ListItems("AllowedIPs", p.allowedIPs), x3);
    Then(b1, b2, TextItems("Endpoint", p.endpoint), x2);
    Then(b0, b1, TextItems("PresharedKey", p.presharedKey), x1);
    Then(b, b0, head, TextItems("PresharedKey", p.presharedKey) + x1);
  }

  method Serialize(c: Config) returns (r: string)
    ensures r == Text(ConfigItems(c))
  {
    var head := "[Interface]\n";
    TextOne(InterfaceHeader);
    hide Text, InterfaceItems, PeerItems;
    var b := WriteInterface(head, c.iface);
    r := b;
    for j := 0 to |c.peers|
      invariant r + Text(PeersItems(c.peers[j..])) == b + Text(PeersItems(c.peers))
    {
      assert c.peers[j..][1..] == c.peers[j+1..];
      ghost var before := r;
      r := WritePeer(r, c.peers[j]);
      Then(before, r, PeerItems(c.peers[j]), PeersItems(c.peers[j+1..]));
    }
    assert c.peers[0..] == c.peers && c.peers[|c.peers|..] == [];
    NoText(r);
    Then(head, b, InterfaceItems(c.iface), PeersItems(c.peers));
    assert head == "" + Text([InterfaceHeader]);
    Then("", head, [InterfaceHeader], InterfaceItems(c.iface) + PeersItems(c.peers));
  }
}
