// A configuration that parses prints to a text that parses to the same
// configuration, and printing that again changes nothing.
module ConfigRoundTrip {
  import opened Common
  import opened Numbers
  import opened ConfigText
  import opened ConfigFile

  // ---- what a parsed configuration looks like ----

  /** A key or value as it comes out of a line. */
  predicate Clean(v: string) { Trimmed(v) && '\n' !in v && '#' !in v && NUL !in v }

  predicate KeyOk(k: string) { Clean(k) && '=' !in k && (k == "" || k[0] != ';') }

  predicate PartsOk(v: string) { forall p | p in Split(v, NUL) :: Clean(p) }

  /** A script's lines; the first is not empty, because an empty hook counts as none. */
  predicate ScriptOk(v: string) { v != "" ==> PartsOk(v) && Split(v, NUL)[0] != "" }

  predicate ListOk(list: seq<string>) { forall v | v in list :: ListItem(v) && Clean(v) }

  predicate PrefixesOk(net: Net, list: seq<string>) { ListOk(list) && forall v | v in list :: WithPrefix(net, v) == v }

  predicate IntOk(n: int) { n <= MAX_INT }

  predicate ExtraOk(m: map<string, string>, known: string -> bool) {
    forall k | k in m :: KeyOk(k) && !known(k) && PartsOk(m[k])
  }

  predicate InterfaceOk(net: Net, i: Interface) {
    && Clean(i.privateKey) && PrefixesOk(net, i.address) && ListOk(i.dns) && IntOk(i.mtu) && IntOk(i.listenPort)
    && Clean(i.table) && Clean(i.fwMark)
    && ScriptOk(i.preUp) && ScriptOk(i.postUp) && ScriptOk(i.preDown) && ScriptOk(i.postDown)
    && ExtraOk(i.extra, k => InterfaceKeyOf(k) != OtherKey)
  }

  predicate PeerOk(net: Net, p: Peer) {
    && Clean(p.publicKey) && Clean(p.presharedKey) && Clean(p.endpoint) && PrefixesOk(net, p.allowedIPs)
    && IntOk(p.keepalive) && ExtraOk(p.extra, k => PeerKeyOf(k) != OtherPeerKey)
  }

  predicate ConfigOk(net: Net, c: Config) { InterfaceOk(net, c.iface) && forall p | p in c.peers :: PeerOk(net, p) }

  // ---- what printing does not keep ----

  function Positive(n: int): int { if n > 0 then n else 0 }

  function NonEmpty(m: map<string, string>): map<string, string> { map k | k in m && m[k] != "" :: m[k] }

  function NormalInterface(i: Interface): Interface {
    i.(mtu := Positive(i.mtu), listenPort := Positive(i.listenPort), extra := NonEmpty(i.extra))
  }

  function NormalPeer(p: Peer): Peer { p.(keepalive := Positive(p.keepalive), extra := NonEmpty(p.extra)) }

  function NormalPeers(peers: seq<Peer>): seq<Peer> {
    if peers == [] then [] else [NormalPeer(peers[0])] + NormalPeers(peers[1..])
  }

  /** The configuration without non-positive numbers and empty unknown keys. */
  function Normal(c: Config): Config { Config(NormalInterface(c.iface), NormalPeers(c.peers)) }

  // ---- a printed line reads back as what it says ----

  predicate ItemOk(item: Item) {
    match item
    case Pair(key, value) => KeyOk(key) && Clean(value)
    case Malformed => false
    case _ => true
  }

  lemma {:induction false} NoIndexIn(s: string, c: char)
    requires c !in s
    ensures IndexOf(s, c) == |s|
  {
    if s != "" {
      NoIndexIn(s[1..], c);
    }
  }

  lemma SpaceIsSpace()
    ensures AllSpace(" ") && AllSpace("") && AllSpace("\r")
  {}

  /** The trimmed text of a printed pair. */
  function PairText(key: string, value: string): string {
    (if key == "" then "" else key + " ") + "=" + (if value == "" then "" else " " + value)
  }

  lemma PairContent(key: string, value: string)
    requires KeyOk(key) && Clean(value)
    ensures Content(key + " = " + value) == PairText(key, value)
  {
    var line := key + " = " + value;
    NoIndexIn(line, '#');
    assert line[..|line|] == line;
    SpaceIsSpace();
    var lead, core, trail := if key == "" then " " else "", PairText(key, value), if value == "" then " " else "";
    assert " = " == " " + "=" + " ";
    assert line == lead + core + trail;
    assert Trimmed(core);
    TrimIs(lead, core, trail);
  }

  lemma {:induction false} LowerKeeps(s: string, c: char)
    requires c in s && (c == '=' || c == ' ')
    ensures c in ToLower(s)
  {
    if s[0] != c {
      LowerKeeps(s[1..], c);
    }
  }

  /** A line that has an equals sign and is no comment is a pair. */
  lemma PairItem(line: string, before: string, after: string)
    requires Content(line) == before + ['='] + after && '=' !in before && (before == "" || before[0] != ';')
    ensures ItemOf(line) == Pair(TrimSpace(before), TrimSpace(after))
  {
    hide TrimSpace, IndexOf, ToLower, Content;
    var c := Content(line);
    IndexAfter(before, after, '=');
    assert c[|before|] == '=' && c[..|before|] == before && c[|before|+1..] == after;
    LowerKeeps(c, '=');
    assert '=' !in "[interface]" && '=' !in "[peer]";
  }

  lemma PairReads(key: string, value: string)
    requires KeyOk(key) && Clean(value)
    ensures ItemOf(key + " = " + value) == Pair(key, value)
  {
    hide TrimSpace, IndexOf, ToLower, Content, ItemOf;
    PairContent(key, value);
    SpaceIsSpace();
    var trail, lead := if key == "" then "" else " ", if value == "" then "" else " ";
    TrimIs("", key, trail);
    TrimIs(lead, value, "");
    assert "" + key + trail == key + trail && lead + value + "" == lead + value;
    assert PairText(key, value) == (key + trail) + ['='] + (lead + value);
    PairItem(key + " = " + value, key + trail, lead + value);
  }

  lemma {:induction false} LowerKeepsLower(s: string)
    requires forall c | c in s :: Lower(c) == c
    ensures ToLower(s) == s
  {
    if s != "" {
      LowerKeepsLower(s[1..]);
    }
  }

  lemma HeaderLower(c: char, tail: string)
    requires forall d | d in tail :: Lower(d) == d
    ensures ToLower(['[', c] + tail) == ['[', Lower(c)] + tail
  {
    var s := ['[', c] + tail;
    assert s[1..] == [c] + tail && s[1..][1..] == tail;
    LowerKeepsLower(tail);
  }

  lemma HeadersLower()
    ensures ToLower("[Interface]") == "[interface]" && ToLower("[Peer]") == "[peer]"
  {
    hide ToLower;
    HeaderLower('I', "nterface]");
    HeaderLower('P', "eer]");
    assert ['[', 'I'] + "nterface]" == "[Interface]" && ['[', 'i'] + "nterface]" == "[interface]";
    assert ['[', 'P'] + "eer]" == "[Peer]" && ['[', 'p'] + "eer]" == "[peer]";
  }

  /** A line with nothing to strip or trim. */
  lemma PlainContent(line: string)
    requires Clean(line)
    ensures Content(line) == line
  {
    hide TrimSpace, IndexOf;
    NoIndexIn(line, '#');
    SpaceIsSpace();
    TrimIs("", line, "");
    assert "" + line + "" == line && line[..|line|] == line;
  }

  lemma HeadersRead()
    ensures ItemOf("[Interface]") == InterfaceHeader && ItemOf("[Peer]") == PeerHeader && ItemOf("") == Nothing
  {
    hide TrimSpace, IndexOf, ToLower, Content;
    PlainContent("[Interface]");
    PlainContent("[Peer]");
    PlainContent("");
    HeadersLower();
  }

  lemma LineReads(item: Item)
    requires ItemOk(item)
    ensures ItemOf(Line(item)) == item
    ensures '\n' !in Line(item) && DropCR(Line(item)) == Line(item)
  {
    hide ItemOf;
    HeadersRead();
    if item.Pair? {
      PairReads(item.key, item.value);
      var line := item.key + " = " + item.value;
      assert line[|line|-1] == (if item.value == "" then ' ' else item.value[|item.value|-1]);
    }
  }

  /** The first line of a text and the rest. */
  lemma ScanFirst(line: string, rest: string)
    requires '\n' !in line && DropCR(line) == line
    ensures ScanLines(line + "\n" + rest) == [line] + ScanLines(rest)
  {
    hide IndexOf;
    var s := line + ['\n'] + rest;
    IndexAfter(line, rest, '\n');
    assert s[..|line|] == line && s[|line|+1..] == rest;
    assert line + "\n" + rest == s;
  }

  /** The printed text reads back as its items. */
  lemma {:induction false} TextReads(items: seq<Item>)
    requires forall item | item in items :: ItemOk(item)
    ensures ItemsOf(ScanLines(Text(items))) == items
  {
    if items == [] {
      NoLines();
    } else {
      RestOk(items);
      LineReads(items[0]);
      TextFirst(items);
      ItemsFirst(Line(items[0]), ScanLines(Text(items[1..])));
      hide *;
      TextReads(items[1..]);
      ScanFirst(Line(items[0]), Text(items[1..]));
      Whole(items);
    }
  }

  lemma RestOk(items: seq<Item>)
    requires items != [] && forall item | item in items :: ItemOk(item)
    ensures ItemOk(items[0]) && forall item | item in items[1..] :: ItemOk(item)
  {
    hide ItemOk;
    forall item | item in items[1..] ensures ItemOk(item) { assert item in items; }
  }

  lemma TextFirst(items: seq<Item>)
    requires items != []
    ensures Text(items) == Line(items[0]) + "\n" + Text(items[1..])
  {}

  lemma ItemsFirst(line: string, rest: seq<string>)
    ensures ItemsOf([line] + rest) == [ItemOf(line)] + ItemsOf(rest)
  {
    hide ItemOf;
    assert ([line] + rest)[0] == line && ([line] + rest)[1..] == rest;
  }

  lemma Whole(items: seq<Item>)
    requires items != []
    ensures [items[0]] + items[1..] == items
  {}

  lemma NoLines()
    ensures ScanLines("") == []
  {}

  // ---- the printed keys are known ----

  lemma {:induction false} LowerIs(s: string, l: string)
    requires |s| == |l| && forall i | 0 <= i < |s| :: Lower(s[i]) == l[i]
    ensures ToLower(s) == l
  {
    if s != "" {
      LowerIs(s[1..], l[1..]);
      assert l == [l[0]] + l[1..];
    }
  }

  lemma ScriptKeys()
    ensures InterfaceKeyOf("PreUp") == PreUp && InterfaceKeyOf("PostUp") == PostUp
    ensures InterfaceKeyOf("PreDown") == PreDown && InterfaceKeyOf("PostDown") == PostDown
  {
    hide ToLower;
    LowerIs("PreUp", "preup");
    LowerIs("PostUp", "postup");
    LowerIs("PreDown", "predown");
    LowerIs("PostDown", "postdown");
  }

  lemma InterfaceKeys()
    ensures InterfaceKeyOf("PrivateKey") == PrivateKey && InterfaceKeyOf("Address") == Address
    ensures InterfaceKeyOf("DNS") == Dns && InterfaceKeyOf("MTU") == Mtu && InterfaceKeyOf("ListenPort") == ListenPort
    ensures InterfaceKeyOf("Table") == Table && InterfaceKeyOf("FwMark") == FwMark
  {
    hide ToLower;
    LowerIs("PrivateKey", "privatekey");
    LowerIs("Address", "address");
    LowerIs("DNS", "dns");
    LowerIs("MTU", "mtu");
    LowerIs("ListenPort", "listenport");
    LowerIs("Table", "table");
    LowerIs("FwMark", "fwmark");
  }

  lemma PeerKeys()
    ensures PeerKeyOf("PublicKey") == PublicKey && PeerKeyOf("PresharedKey") == PresharedKey
    ensures PeerKeyOf("Endpoint") == Endpoint && PeerKeyOf("AllowedIPs") == AllowedIPs
    ensures PeerKeyOf("PersistentKeepalive") == Keepalive
  {
    hide ToLower;
    LowerIs("PublicKey", "publickey");
    LowerIs("PresharedKey", "presharedkey");
    LowerIs("Endpoint", "endpoint");
    LowerIs("AllowedIPs", "allowedips");
    LowerIs("PersistentKeepalive", "persistentkeepalive");
  }

  // ---- loading the printed items ----

  /** From st the items load without an error to end, whatever their line numbers. */
  ghost predicate Loads(net: Net, st: Loading, items: seq<Item>, end: Loading) {
    forall k :: LoadAll(net, st, items, k) == Ok(end)
  }

  lemma {:induction false} LoadConcat(net: Net, st: Loading, a: seq<Item>, b: seq<Item>, mid: Loading, k: nat)
    requires LoadAll(net, st, a, k) == Ok(mid)
    ensures LoadAll(net, st, a + b, k) == LoadAll(net, mid, b, k + |a|)
    decreases |a|
  {
    hide Load;
    if a == [] {
      assert a + b == b;
    } else {
      assert (a + b)[1..] == a[1..] + b && (a + b)[0] == a[0];
      LoadConcat(net, Load(net, st, a[0], k).value, a[1..], b, mid, k + 1);
    }
  }

  lemma LoadsThen(net: Net, st: Loading, a: seq<Item>, mid: Loading, b: seq<Item>, end: Loading)
    requires Loads(net, st, a, mid) && Loads(net, mid, b, end)
    ensures Loads(net, st, a + b, end)
  {
    hide LoadAll;
    forall k ensures LoadAll(net, st, a + b, k) == Ok(end) {
      assert LoadAll(net, st, a, k) == Ok(mid);
      LoadConcat(net, st, a, b, mid, k);
    }
  }

  lemma LoadsNothing(net: Net, st: Loading)
    ensures Loads(net, st, [], st)
  {}

  lemma LoadsOne(net: Net, st: Loading, item: Item, end: Loading)
    requires forall k :: Load(net, st, item, k) == Ok(end)
    ensures Loads(net, st, [item], end)
  {
    hide Load;
    forall k: nat ensures LoadAll(net, st, [item], k) == Ok(end) {
      assert [item][0] == item && [item][1..] == [];
      assert Load(net, st, item, k) == Ok(end);
    }
  }

  /** The interface section with this interface. */
  function OfInterface(i: Interface): Loading { Loading(Config(i, []), InInterface) }

  /** The section of the last peer. */
  function OfPeer(i: Interface, peers: seq<Peer>, p: Peer): Loading { Loading(Config(i, peers + [p]), InPeer) }

  lemma InterfaceLoads(net: Net, i: Interface, key: string, value: string, j: Interface)
    requires forall k :: SetInterface(net, i, key, value, k) == Ok(j)
    ensures Loads(net, OfInterface(i), [Pair(key, value)], OfInterface(j))
  {
    hide SetInterface;
    forall k ensures Load(net, OfInterface(i), Pair(key, value), k) == Ok(OfInterface(j)) {
      assert SetInterface(net, i, key, value, k) == Ok(j);
    }
    LoadsOne(net, OfInterface(i), Pair(key, value), OfInterface(j));
  }

  lemma PeerLoads(net: Net, i: Interface, peers: seq<Peer>, p: Peer, key: string, value: string, q: Peer)
    requires forall k :: SetPeer(net, p, key, value, k) == Ok(q)
    ensures Loads(net, OfPeer(i, peers, p), [Pair(key, value)], OfPeer(i, peers, q))
  {
    hide SetPeer;
    assert (peers + [p])[|peers| := q] == peers + [q];
    forall k ensures Load(net, OfPeer(i, peers, p), Pair(key, value), k) == Ok(OfPeer(i, peers, q)) {
      assert SetPeer(net, p, key, value, k) == Ok(q);
    }
    LoadsOne(net, OfPeer(i, peers, p), Pair(key, value), OfPeer(i, peers, q));
  }

  // ---- scripts ----

  /** The further parts of a stored value. */
  function Tail(parts: seq<string>): string { if parts == [] then "" else [NUL] + parts[0] + Tail(parts[1..]) }

  function JoinParts(parts: seq<string>): string
    requires parts != []
  {
    parts[0] + Tail(parts[1..])
  }

  lemma JoinFirst(head: string, parts: seq<string>)
    requires parts != []
    ensures JoinParts([head] + parts) == head + [NUL] + JoinParts(parts)
  {
    assert ([head] + parts)[0] == head && ([head] + parts)[1..] == parts;
  }

  lemma JoinOne(v: string)
    ensures JoinParts([v]) == v
  {
    assert [v][1..] == [] && v + "" == v;
  }

  lemma {:induction false} SplitJoins(v: string)
    ensures JoinParts(Split(v, NUL)) == v
    decreases |v|
  {
    hide JoinParts;
    var at := IndexOf(v, NUL);
    if at == |v| {
      JoinOne(v);
    } else {
      SplitJoins(v[at+1..]);
      JoinFirst(v[..at], Split(v[at+1..], NUL));
      assert v == v[..at] + [NUL] + v[at+1..];
    }
  }

  /** The interface with one script field replaced. */
  function WithScript(i: Interface, key: InterfaceKey, v: string): Interface {
    match key
    case PreUp => i.(preUp := v)
    case PostUp => i.(postUp := v)
    case PreDown => i.(preDown := v)
    case _ => i.(postDown := v)
  }

  predicate IsScript(key: InterfaceKey) { key.PreUp? || key.PostUp? || key.PreDown? || key.PostDown? }

  lemma ScriptLineLoads(net: Net, i: Interface, name: string, key: InterfaceKey, sofar: string, value: string)
    requires InterfaceKeyOf(name) == key && IsScript(key)
    ensures Loads(net, OfInterface(WithScript(i, key, sofar)), [Pair(name, value)],
                  OfInterface(WithScript(i, key, AppendScriptLine(sofar, value))))
  {
    hide InterfaceKeyOf, AppendScriptLine, Loads;
    InterfaceLoads(net, WithScript(i, key, sofar), name, value, WithScript(i, key, AppendScriptLine(sofar, value)));
  }

  lemma {:induction false} MoreScriptLinesLoad(net: Net, i: Interface, name: string, key: InterfaceKey, sofar: string, parts: seq<string>)
    requires InterfaceKeyOf(name) == key && IsScript(key) && sofar != ""
    ensures Loads(net, OfInterface(WithScript(i, key, sofar)), Pairs(name, parts), OfInterface(WithScript(i, key, sofar + Tail(parts))))
    decreases |parts|
  {
    hide InterfaceKeyOf, Loads, OfInterface, WithScript;
    if parts == [] {
      assert sofar + "" == sofar;
      LoadsNothing(net, OfInterface(WithScript(i, key, sofar)));
    } else {
      var next := sofar + [NUL] + parts[0];
      TailFirst(sofar, parts);
      hide Tail;
      ScriptLineLoads(net, i, name, key, sofar, parts[0]);
      MoreScriptLinesLoad(net, i, name, key, next, parts[1..]);
      LoadsThen(net, OfInterface(WithScript(i, key, sofar)), [Pair(name, parts[0])], OfInterface(WithScript(i, key, next)),
                Pairs(name, parts[1..]), OfInterface(WithScript(i, key, next + Tail(parts[1..]))));
    }
  }

  /** A hook's printed lines rebuild it. */
  lemma ScriptLoads(net: Net, i: Interface, name: string, key: InterfaceKey, v: string)
    requires InterfaceKeyOf(name) == key && IsScript(key) && ScriptOk(v)
    ensures Loads(net, OfInterface(WithScript(i, key, "")), ScriptItems(name, v), OfInterface(WithScript(i, key, v)))
  {
    hide InterfaceKeyOf, Loads, OfInterface, WithScript;
    if v == "" {
      LoadsNothing(net, OfInterface(WithScript(i, key, "")));
    } else {
      var parts := Split(v, NUL);
      SplitJoins(v);
      ScriptLineLoads(net, i, name, key, "", parts[0]);
      MoreScriptLinesLoad(net, i, name, key, parts[0], parts[1..]);
      LoadsThen(net, OfInterface(WithScript(i, key, "")), [Pair(name, parts[0])], OfInterface(WithScript(i, key, parts[0])),
                Pairs(name, parts[1..]), OfInterface(WithScript(i, key, v)));
    }
  }

  // ---- unknown keys ----

  /** A section whose unknown keys take values: the interface's, or the last peer's. */
  datatype Place = AtInterface(i: Interface) | AtPeer(i: Interface, peers: seq<Peer>, p: Peer)

  function WithExtra(at: Place, m: map<string, string>): Loading {
    match at
    case AtInterface(i) => OfInterface(i.(extra := m))
    case AtPeer(i, peers, p) => OfPeer(i, peers, p.(extra := m))
  }

  predicate Unknown(at: Place, key: string) {
    if at.AtInterface? then InterfaceKeyOf(key) == OtherKey else PeerKeyOf(key) == OtherPeerKey
  }

  lemma ExtraLineLoads(net: Net, at: Place, m: map<string, string>, key: string, value: string)
    requires Unknown(at, key)
    ensures Loads(net, WithExtra(at, m), [Pair(key, value)], WithExtra(at, AddExtraKey(m, key, value)))
  {
    hide InterfaceKeyOf, PeerKeyOf, AddExtraKey, Loads;
    match at
    case AtInterface(i) => InterfaceLoads(net, i.(extra := m), key, value, i.(extra := AddExtraKey(m, key, value)));
    case AtPeer(i, peers, p) => PeerLoads(net, i, peers, p.(extra := m), key, value, p.(extra := AddExtraKey(m, key, value)));
  }

  /** One more part joined to a key's value. */
  lemma ExtraGrows(m: map<string, string>, key: string, parts: seq<string>)
    requires key in m && parts != []
    ensures var next := AddExtraKey(m, key, parts[0]);
      key in next && next[key := next[key] + Tail(parts[1..])] == m[key := m[key] + Tail(parts)]
  {
    var v := m[key] + [NUL] + parts[0];
    TailFirst(m[key], parts);
    AddedIs(m, key, parts[0]);
    hide Tail, AddExtraKey;
    SetTwice(m, key, v, m[key] + Tail(parts));
  }

  lemma TailFirst(v: string, parts: seq<string>)
    requires parts != []
    ensures v + [NUL] + parts[0] + Tail(parts[1..]) == v + Tail(parts)
  {
    TailUnfolds(parts);
    hide Tail;
    JoinRight(v, [NUL], parts[0], Tail(parts[1..]));
  }

  lemma TailUnfolds(parts: seq<string>)
    requires parts != []
    ensures Tail(parts) == [NUL] + parts[0] + Tail(parts[1..])
  {}

  lemma JoinRight(a: string, b: string, c: string, d: string)
    ensures a + b + c + d == a + (b + c + d)
  {}

  lemma AddedIs(m: map<string, string>, key: string, value: string)
    requires key in m
    ensures AddExtraKey(m, key, value) == m[key := m[key] + [NUL] + value]
  {}

  lemma SetTwice(m: map<string, string>, key: string, v: string, w: string)
    ensures m[key := v][key := w] == m[key := w]
  {}

  lemma {:induction false} MoreExtraLinesLoad(net: Net, at: Place, m: map<string, string>, key: string, parts: seq<string>)
    requires Unknown(at, key) && key in m
    ensures Loads(net, WithExtra(at, m), Pairs(key, parts), WithExtra(at, m[key := m[key] + Tail(parts)]))
    decreases |parts|
  {
    hide Unknown, Loads, WithExtra;
    if parts == [] {
      assert m[key] + "" == m[key] && m[key := m[key]] == m;
      LoadsNothing(net, WithExtra(at, m));
    } else {
      var next := AddExtraKey(m, key, parts[0]);
      ExtraLineLoads(net, at, m, key, parts[0]);
      ExtraGrows(m, key, parts);
      hide Tail, AddExtraKey;
      MoreExtraLinesLoad(net, at, next, key, parts[1..]);
      LoadsThen(net, WithExtra(at, m), [Pair(key, parts[0])], WithExtra(at, next),
                Pairs(key, parts[1..]), WithExtra(at, m[key := m[key] + Tail(parts)]));
    }
  }

  /** The printed lines of a key that is not there yet rebuild its value. */
  lemma ExtraKeyLoads(net: Net, at: Place, m: map<string, string>, key: string, v: string)
    requires Unknown(at, key) && key !in m && v != ""
    ensures Loads(net, WithExtra(at, m), ScriptItems(key, v), WithExtra(at, m[key := v]))
  {
    var parts := Split(v, NUL);
    SplitJoins(v);
    var first := AddExtraKey(m, key, parts[0]);
    assert first == m[key := parts[0]];
    ScriptItemsSplit(key, v);
    ExtraLineLoads(net, at, m, key, parts[0]);
    MoreExtraLinesLoad(net, at, first, key, parts[1..]);
    hide *;
    SetTwice(m, key, parts[0], v);
    LoadsThen(net, WithExtra(at, m), [Pair(key, parts[0])], WithExtra(at, first), Pairs(key, parts[1..]), WithExtra(at, m[key := v]));
  }

  lemma ScriptItemsSplit(key: string, v: string)
    requires v != ""
    ensures var parts := Split(v, NUL); parts != [] && ScriptItems(key, v) == [Pair(key, parts[0])] + Pairs(key, parts[1..])
  {}

  /** m restricted to the keys that have something to print. */
  function Printed(m: map<string, string>, keys: seq<string>): map<string, string> {
    map k | k in m && k in keys && m[k] != "" :: m[k]
  }

  /** One more key's value. */
  function Including(sofar: map<string, string>, k: string, v: string): map<string, string> {
    if v == "" then sofar else sofar[k := v]
  }

  lemma PrintedFirst(sofar: map<string, string>, m: map<string, string>, keys: seq<string>)
    requires keys != [] && keys[0] in m && keys[0] !in keys[1..]
    ensures Including(sofar, keys[0], m[keys[0]]) + Printed(m, keys[1..]) == sofar + Printed(m, keys)
  {
    assert keys == [keys[0]] + keys[1..];
  }

  lemma {:induction false} ExtraLoads(net: Net, at: Place, sofar: map<string, string>, m: map<string, string>, keys: seq<string>)
    requires Ascending(keys) && forall k | k in keys :: k in m && Unknown(at, k) && k !in sofar
    ensures Loads(net, WithExtra(at, sofar), ExtraItems(keys, m), WithExtra(at, sofar + Printed(m, keys)))
    decreases |keys|
  {
    hide Unknown, Loads, WithExtra, ScriptItems, Less, Printed;
    if keys == [] {
      NonePrinted(sofar, m);
      LoadsNothing(net, WithExtra(at, sofar));
    } else {
      var k, rest := keys[0], keys[1..];
      var next := Including(sofar, k, m[k]);
      TailSet(keys);
      ExtraKeyMayLoad(net, at, sofar, k, m[k]);
      ExtraLoads(net, at, next, m, rest);
      PrintedFirst(sofar, m, keys);
      LoadsThen(net, WithExtra(at, sofar), ScriptItems(k, m[k]), WithExtra(at, next), ExtraItems(rest, m),
                WithExtra(at, next + Printed(m, rest)));
    }
  }

  lemma NonePrinted(sofar: map<string, string>, m: map<string, string>)
    ensures sofar + Printed(m, []) == sofar
  {}

  lemma ExtraKeyMayLoad(net: Net, at: Place, m: map<string, string>, key: string, v: string)
    requires Unknown(at, key) && key !in m
    ensures Loads(net, WithExtra(at, m), ScriptItems(key, v), WithExtra(at, Including(m, key, v)))
  {
    if v == "" {
      NothingPrinted(key);
      LoadsNothing(net, WithExtra(at, m));
    } else {
      ExtraKeyLoads(net, at, m, key, v);
    }
  }

  lemma NothingPrinted(key: string)
    ensures ScriptItems(key, "") == []
  {}

  /** All printed unknown keys rebuild the map without its empty values. */
  lemma AllExtraLoads(net: Net, at: Place, m: map<string, string>)
    requires forall k | k in m :: Unknown(at, k)
    ensures Loads(net, WithExtra(at, map[]), ExtraItems(SortedKeys(m.Keys), m), WithExtra(at, NonEmpty(m)))
  {
    hide Unknown, Loads, WithExtra;
    var keys := SortedKeys(m.Keys);
    ExtraLoads(net, at, map[], m, keys);
    AllPrinted(m, keys);
  }

  lemma AllPrinted(m: map<string, string>, keys: seq<string>)
    requires forall k :: k in keys <==> k in m
    ensures map[] + Printed(m, keys) == NonEmpty(m)
  {}

  // ---- the other fields ----

  lemma ListReads(list: seq<string>)
    requires list != [] && forall v | v in list :: ListItem(v)
    ensures SplitAndTrim(Join(list)) == list
  {
    JoinSplits("", list);
    assert "" + Join(list) == Join(list);
  }

  lemma {:induction false} PrefixesKept(net: Net, list: seq<string>)
    requires forall v | v in list :: WithPrefix(net, v) == v
    ensures WithPrefixes(net, list) == list
  {}

  lemma AddressLoads(net: Net, i: Interface, list: seq<string>)
    requires i.address == [] && PrefixesOk(net, list)
    ensures Loads(net, OfInterface(i), ListItems("Address", list), OfInterface(i.(address := list)))
  {
    InterfaceKeys();
    hide InterfaceKeyOf, Loads;
    if list == [] {
      LoadsNothing(net, OfInterface(i));
    } else {
      ListReads(list);
      PrefixesKept(net, list);
      assert [] + list == list;
      InterfaceLoads(net, i, "Address", Join(list), i.(address := list));
    }
  }

  lemma DnsLoads(net: Net, i: Interface, list: seq<string>)
    requires i.dns == [] && ListOk(list)
    ensures Loads(net, OfInterface(i), ListItems("DNS", list), OfInterface(i.(dns := list)))
  {
    InterfaceKeys();
    hide InterfaceKeyOf, Loads;
    if list == [] {
      LoadsNothing(net, OfInterface(i));
    } else {
      ListReads(list);
      assert [] + list == list;
      InterfaceLoads(net, i, "DNS", Join(list), i.(dns := list));
    }
  }

  lemma NumbersLoad(net: Net, i: Interface, mtu: int, listenPort: int)
    requires i.mtu == 0 && i.listenPort == 0 && IntOk(mtu) && IntOk(listenPort)
    ensures Loads(net, OfInterface(i), NumberItems("MTU", mtu), OfInterface(i.(mtu := Positive(mtu))))
    ensures Loads(net, OfInterface(i.(mtu := Positive(mtu))), NumberItems("ListenPort", listenPort),
                  OfInterface(i.(mtu := Positive(mtu), listenPort := Positive(listenPort))))
  {
    InterfaceKeys();
    hide InterfaceKeyOf, Loads, Itoa, Atoi;
    var j := i.(mtu := Positive(mtu));
    if mtu > 0 {
      AtoiOfItoa(mtu);
      InterfaceLoads(net, i, "MTU", Itoa(mtu), j);
    } else {
      LoadsNothing(net, OfInterface(i));
    }
    if listenPort > 0 {
      AtoiOfItoa(listenPort);
      InterfaceLoads(net, j, "ListenPort", Itoa(listenPort), j.(listenPort := listenPort));
    } else {
      LoadsNothing(net, OfInterface(j));
    }
  }

  lemma TextsLoad(net: Net, i: Interface, table: string, fwMark: string)
    requires i.table == "" && i.fwMark == ""
    ensures Loads(net, OfInterface(i), TextItems("Table", table), OfInterface(i.(table := table)))
    ensures Loads(net, OfInterface(i.(table := table)), TextItems("FwMark", fwMark), OfInterface(i.(table := table, fwMark := fwMark)))
  {
    InterfaceKeys();
    hide InterfaceKeyOf, Loads;
    LoadsNothing(net, OfInterface(i));
    LoadsNothing(net, OfInterface(i.(table := table)));
    InterfaceLoads(net, i, "Table", table, i.(table := table));
    InterfaceLoads(net, i.(table := table), "FwMark", fwMark, i.(table := table, fwMark := fwMark));
  }

  lemma ScriptsLoad(net: Net, i: Interface, a: string, b: string, c: string, d: string)
    requires i.preUp == "" && i.postUp == "" && i.preDown == "" && i.postDown == ""
    requires ScriptOk(a) && ScriptOk(b) && ScriptOk(c) && ScriptOk(d)
    ensures Loads(net, OfInterface(i),
                  ScriptItems("PreUp", a) + (ScriptItems("PostUp", b) + (ScriptItems("PreDown", c) + ScriptItems("PostDown", d))),
                  OfInterface(i.(preUp := a, postUp := b, preDown := c, postDown := d)))
  {
    ScriptKeys();
    hide InterfaceKeyOf, Loads, ScriptItems, ScriptOk, OfInterface;
    var i1 := i.(preUp := a);
    var i2 := i1.(postUp := b);
    var i3 := i2.(preDown := c);
    var i4 := i3.(postDown := d);
    ScriptLoads(net, i, "PreUp", PreUp, a);
    ScriptLoads(net, i1, "PostUp", PostUp, b);
    ScriptLoads(net, i2, "PreDown", PreDown, c);
    ScriptLoads(net, i3, "PostDown", PostDown, d);
    LoadsThen(net, OfInterface(i2), ScriptItems("PreDown", c), OfInterface(i3), ScriptItems("PostDown", d), OfInterface(i4));
    LoadsThen(net, OfInterface(i1), ScriptItems("PostUp", b), OfInterface(i2), ScriptItems("PreDown", c) + ScriptItems("PostDown", d), OfInterface(i4));
    LoadsThen(net, OfInterface(i), ScriptItems("PreUp", a), OfInterface(i1),
              ScriptItems("PostUp", b) + (ScriptItems("PreDown", c) + ScriptItems("PostDown", d)), OfInterface(i4));
  }

  /** The last part of the interface items, regrouped. */
  lemma Regroup(a: seq<Item>, b: seq<Item>, c: seq<Item>, d: seq<Item>, e: seq<Item>)
    ensures a + (b + (c + (d + e))) == (a + (b + (c + d))) + e
  {}

  /** The printed interface items load to the interface without what printing does not keep. */
  lemma InterfaceItemsLoad(net: Net, i: Interface)
    requires InterfaceOk(net, i)
    ensures Loads(net, OfInterface(NO_INTERFACE), InterfaceItems(i), OfInterface(NormalInterface(i)))
  {
    InterfaceKeys();
    hide InterfaceKeyOf, Loads, ScriptItems, ScriptOk, OfInterface, ListItems, TextItems, NumberItems, PrefixesOk, ListOk, IntOk, SortedKeys, ExtraItems;
    var i0 := NO_INTERFACE.(privateKey := i.privateKey);
    var i1 := i0.(address := i.address);
    var i2 := i1.(dns := i.dns);
    var i3 := i2.(mtu := Positive(i.mtu));
    var i4 := i3.(listenPort := Positive(i.listenPort));
    var i5 := i4.(table := i.table);
    var i6 := i5.(fwMark := i.fwMark);
    var i7 := i6.(preUp := i.preUp, postUp := i.postUp, preDown := i.preDown, postDown := i.postDown);
    var end := NormalInterface(i);
    InterfaceLoads(net, NO_INTERFACE, "PrivateKey", i.privateKey, i0);
    AddressLoads(net, i0, i.address);
    DnsLoads(net, i1, i.dns);
    NumbersLoad(net, i2, i.mtu, i.listenPort);
    TextsLoad(net, i4, i.table, i.fwMark);
    ScriptsLoad(net, i6, i.preUp, i.postUp, i.preDown, i.postDown);
    AllExtraLoads(net, AtInterface(i7), i.extra);
    var extra := ExtraItems(SortedKeys(i.extra.Keys), i.extra);
    var scripts := ScriptItems("PreUp", i.preUp) + (ScriptItems("PostUp", i.postUp) + (ScriptItems("PreDown", i.preDown) + ScriptItems("PostDown", i.postDown)));
    LoadsThen(net, OfInterface(i6), scripts, OfInterface(i7), extra, OfInterface(end));
    Regroup(ScriptItems("PreUp", i.preUp), ScriptItems("PostUp", i.postUp), ScriptItems("PreDown", i.preDown), ScriptItems("PostDown", i.postDown), extra);
    var x6 := scripts + extra;
    var x5 := TextItems("FwMark", i.fwMark) + x6;
    var x4 := TextItems("Table", i.table) + x5;
    var x3 := NumberItems("ListenPort", i.listenPort) + x4;
    var x2 := NumberItems("MTU", i.mtu) + x3;
    var x1 := ListItems("DNS", i.dns) + x2;
    LoadsThen(net, OfInterface(i5), TextItems("FwMark", i.fwMark), OfInterface(i6), x6, OfInterface(end));
    LoadsThen(net, OfInterface(i4), TextItems("Table", i.table), OfInterface(i5), x5, OfInterface(end));
    LoadsThen(net, OfInterface(i3), NumberItems("ListenPort", i.listenPort), OfInterface(i4), x4, OfInterface(end));
    LoadsThen(net, OfInterface(i2), NumberItems("MTU", i.mtu), OfInterface(i3), x3, OfInterface(end));
    LoadsThen(net, OfInterface(i1), ListItems("DNS", i.dns), OfInterface(i2), x2, OfInterface(end));
    LoadsThen(net, OfInterface(i0), ListItems("Address", i.address), OfInterface(i1), x1, OfInterface(end));
    LoadsThen(net, OfInterface(NO_INTERFACE), [Pair("PrivateKey", i.privateKey)], OfInterface(i0), ListItems("Address", i.address) + x1, OfInterface(end));
  }

  // ---- peers ----

  lemma PeerHeaderLoads(net: Net, i: Interface, peers: seq<Peer>, section: Section)
    ensures Loads(net, Loading(Config(i, peers), section), [Nothing, PeerHeader], OfPeer(i, peers, NO_PEER))
  {
    var st := Loading(Config(i, peers), section);
    LoadsOne(net, st, Nothing, st);
    LoadsOne(net, st, PeerHeader, OfPeer(i, peers, NO_PEER));
    assert [Nothing, PeerHeader] == [Nothing] + [PeerHeader];
    LoadsThen(net, st, [Nothing], st, [PeerHeader], OfPeer(i, peers, NO_PEER));
  }

  lemma PeerTextsLoad(net: Net, i: Interface, peers: seq<Peer>, p: Peer, psk: string, endpoint: string)
    requires p.presharedKey == "" && p.endpoint == ""
    ensures Loads(net, OfPeer(i, peers, p), TextItems("PresharedKey", psk), OfPeer(i, peers, p.(presharedKey := psk)))
    ensures Loads(net, OfPeer(i, peers, p.(presharedKey := psk)), TextItems("Endpoint", endpoint),
                  OfPeer(i, peers, p.(presharedKey := psk, endpoint := endpoint)))
  {
    PeerKeys();
    hide PeerKeyOf, Loads, OfPeer;
    LoadsNothing(net, OfPeer(i, peers, p));
    LoadsNothing(net, OfPeer(i, peers, p.(presharedKey := psk)));
    PeerLoads(net, i, peers, p, "PresharedKey", psk, p.(presharedKey := psk));
    PeerLoads(net, i, peers, p.(presharedKey := psk), "Endpoint", endpoint, p.(presharedKey := psk, endpoint := endpoint));
  }

  lemma AllowedIPsLoad(net: Net, i: Interface, peers: seq<Peer>, p: Peer, list: seq<string>)
    requires p.allowedIPs == [] && PrefixesOk(net, list)
    ensures Loads(net, OfPeer(i, peers, p), ListItems("AllowedIPs", list), OfPeer(i, peers, p.(allowedIPs := list)))
  {
    PeerKeys();
    hide PeerKeyOf, Loads, OfPeer;
    if list == [] {
      LoadsNothing(net, OfPeer(i, peers, p));
    } else {
      ListReads(list);
      PrefixesKept(net, list);
      assert [] + list == list;
      PeerLoads(net, i, peers, p, "AllowedIPs", Join(list), p.(allowedIPs := list));
    }
  }

  lemma KeepaliveLoads(net: Net, i: Interface, peers: seq<Peer>, p: Peer, n: int)
    requires p.keepalive == 0 && IntOk(n)
    ensures Loads(net, OfPeer(i, peers, p), NumberItems("PersistentKeepalive", n), OfPeer(i, peers, p.(keepalive := Positive(n))))
  {
    PeerKeys();
    hide PeerKeyOf, Loads, OfPeer, Itoa, Atoi;
    if n > 0 {
      AtoiOfItoa(n);
      PeerLoads(net, i, peers, p, "PersistentKeepalive", Itoa(n), p.(keepalive := n));
    } else {
      LoadsNothing(net, OfPeer(i, peers, p));
    }
  }

  lemma PeerItemsLoad(net: Net, i: Interface, peers: seq<Peer>, section: Section, p: Peer)
    requires PeerOk(net, p)
    ensures Loads(net, Loading(Config(i, peers), section), PeerItems(p), OfPeer(i, peers, NormalPeer(p)))
  {
    PeerKeys();
    hide PeerKeyOf, Loads, OfPeer, ListItems, TextItems, NumberItems, PrefixesOk, IntOk, SortedKeys, ExtraItems;
    var p0 := NO_PEER.(publicKey := p.publicKey);
    var p1 := p0.(presharedKey := p.presharedKey);
    var p2 := p1.(endpoint := p.endpoint);
    var p3 := p2.(allowedIPs := p.allowedIPs);
    var p4 := p3.(keepalive := Positive(p.keepalive));
    var end := OfPeer(i, peers, NormalPeer(p));
    var start := Loading(Config(i, peers), section);
    PeerHeaderLoads(net, i, peers, section);
    PeerLoads(net, i, peers, NO_PEER, "PublicKey", p.publicKey, p0);
    PeerTextsLoad(net, i, peers, p0, p.presharedKey, p.endpoint);
    AllowedIPsLoad(net, i, peers, p2, p.allowedIPs);
    KeepaliveLoads(net, i, peers, p3, p.keepalive);
    AllExtraLoads(net, AtPeer(i, peers, p4), p.extra);
    var x4 := ExtraItems(SortedKeys(p.extra.Keys), p.extra);
    var x3 := NumberItems("PersistentKeepalive", p.keepalive) + x4;
    var x2 := ListItems("AllowedIPs", p.allowedIPs) + x3;
    var x1 := TextItems("Endpoint", p.endpoint) + x2;
    var x0 := TextItems("PresharedKey", p.presharedKey) + x1;
    LoadsThen(net, OfPeer(i, peers, p3), NumberItems("PersistentKeepalive", p.keepalive), OfPeer(i, peers, p4), x4, end);
    LoadsThen(net, OfPeer(i, peers, p2), ListItems("AllowedIPs", p.allowedIPs), OfPeer(i, peers, p3), x3, end);
    LoadsThen(net, OfPeer(i, peers, p1), TextItems("Endpoint", p.endpoint), OfPeer(i, peers, p2), x2, end);
    LoadsThen(net, OfPeer(i, peers, p0), TextItems("PresharedKey", p.presharedKey), OfPeer(i, peers, p1), x1, end);
    var head, pair := [Nothing, PeerHeader], [Pair("PublicKey", p.publicKey)];
    LoadsThen(net, start, head, OfPeer(i, peers, NO_PEER), pair, OfPeer(i, peers, p0));
    LoadsThen(net, start, head + pair, OfPeer(i, peers, p0), x0, end);
    assert head + pair == [Nothing, PeerHeader, Pair("PublicKey", p.publicKey)];
  }

  /** The state after more peers: the section is that of a peer once there is one. */
  function AfterPeers(i: Interface, peers: seq<Peer>, section: Section): Loading {
    Loading(Config(i, peers), section)
  }

  lemma {:induction false} PeersLoad(net: Net, i: Interface, peers: seq<Peer>, section: Section, more: seq<Peer>)
    requires forall p | p in more :: PeerOk(net, p)
    ensures Loads(net, AfterPeers(i, peers, section), PeersItems(more),
                  AfterPeers(i, peers + NormalPeers(more), if more == [] then section else InPeer))
    decreases |more|
  {
    if more == [] {
      hide Loads;
      assert peers + [] == peers;
      LoadsNothing(net, AfterPeers(i, peers, section));
    } else {
      var p, rest := more[0], more[1..];
      var next := peers + [NormalPeer(p)];
      PeersFirst(net, peers, more);
      hide *;
      PeerItemsLoad(net, i, peers, section, p);
      PeersLoad(net, i, next, InPeer, rest);
      LoadsThen(net, AfterPeers(i, peers, section), PeerItems(p), AfterPeers(i, next, InPeer), PeersItems(rest),
                AfterPeers(i, next + NormalPeers(rest), InPeer));
    }
  }

  lemma PeersFirst(net: Net, peers: seq<Peer>, more: seq<Peer>)
    requires more != [] && forall p | p in more :: PeerOk(net, p)
    ensures PeerOk(net, more[0]) && forall p | p in more[1..] :: PeerOk(net, p)
    ensures PeersItems(more) == PeerItems(more[0]) + PeersItems(more[1..])
    ensures peers + NormalPeers(more) == peers + [NormalPeer(more[0])] + NormalPeers(more[1..])
  {
    hide PeerOk, PeerItems, NormalPeer;
    forall p | p in more[1..] ensures PeerOk(net, p) { assert p in more; }
  }

  // ---- every printed item reads back ----

  ghost predicate AllOk(items: seq<Item>) { forall item | item in items :: ItemOk(item) }

  lemma BothOk(a: seq<Item>, b: seq<Item>)
    requires AllOk(a) && AllOk(b)
    ensures AllOk(a + b)
  {}

  lemma {:induction false} PairsOk(key: string, values: seq<string>)
    requires KeyOk(key) && forall v | v in values :: Clean(v)
    ensures AllOk(Pairs(key, values))
  {
    if values != [] {
      PairsOk(key, values[1..]);
    }
  }

  lemma ScriptItemsOk(key: string, v: string)
    requires KeyOk(key) && PartsOk(v)
    ensures AllOk(ScriptItems(key, v))
  {
    PairsOk(key, Split(v, NUL));
  }

  lemma {:induction false} JoinClean(list: seq<string>)
    requires ListOk(list) && list != []
    ensures Clean(Join(list)) && Join(list) != ""
    decreases |list|
  {
    assert list[0] in list;
    if |list| > 1 {
      assert forall v | v in list[1..] :: v in list;
      JoinClean(list[1..]);
    }
  }

  lemma ListItemsOk(key: string, list: seq<string>)
    requires KeyOk(key) && ListOk(list)
    ensures AllOk(ListItems(key, list))
  {
    if list != [] {
      JoinClean(list);
    }
  }

  lemma DigitsClean(s: string)
    requires AllDigits(s)
    ensures Clean(s)
  {
    if s != "" {
      assert s[0] in s && s[|s|-1] in s;
    }
  }

  lemma NumberItemsOk(key: string, n: int)
    requires KeyOk(key)
    ensures AllOk(NumberItems(key, n))
  {
    if n > 0 {
      DigitsClean(Itoa(n));
    }
  }

  lemma {:induction false} ExtraItemsOk(keys: seq<string>, m: map<string, string>)
    requires forall k | k in keys :: k in m && KeyOk(k) && PartsOk(m[k])
    ensures AllOk(ExtraItems(keys, m))
  {
    hide ScriptItems, KeyOk, PartsOk;
    if keys != [] {
      assert keys[0] in keys && forall k | k in keys[1..] :: k in keys;
      ScriptItemsOk(keys[0], m[keys[0]]);
      ExtraItemsOk(keys[1..], m);
    }
  }

  lemma OneOk(item: Item)
    requires ItemOk(item)
    ensures AllOk([item])
  {}

  predicate IsLetter(c: char) { 'a' <= c <= 'z' || 'A' <= c <= 'Z' }

  lemma LettersOk(k: string)
    requires forall i | 0 <= i < |k| :: IsLetter(k[i])
    ensures KeyOk(k)
  {}

  lemma InterfaceNamesOk()
    ensures KeyOk("PrivateKey") && KeyOk("Address") && KeyOk("DNS") && KeyOk("MTU") && KeyOk("ListenPort") && KeyOk("Table")
    ensures KeyOk("FwMark") && KeyOk("PreUp") && KeyOk("PostUp") && KeyOk("PreDown") && KeyOk("PostDown")
  {
    hide KeyOk;
    LettersOk("PrivateKey");
    LettersOk("Address");
    LettersOk("DNS");
    LettersOk("MTU");
    LettersOk("ListenPort");
    LettersOk("Table");
    LettersOk("FwMark");
    LettersOk("PreUp");
    LettersOk("PostUp");
    LettersOk("PreDown");
    LettersOk("PostDown");
  }

  lemma PeerNamesOk()
    ensures KeyOk("PublicKey") && KeyOk("PresharedKey") && KeyOk("Endpoint") && KeyOk("AllowedIPs") && KeyOk("PersistentKeepalive")
  {
    hide KeyOk;
    LettersOk("PublicKey");
    LettersOk("PresharedKey");
    LettersOk("Endpoint");
    LettersOk("AllowedIPs");
    LettersOk("PersistentKeepalive");
  }

  lemma TextItemsOk(key: string, v: string)
    requires KeyOk(key) && Clean(v)
    ensures AllOk(TextItems(key, v)) && AllOk([Pair(key, v)])
  {}

  lemma InterfaceItemsOk(net: Net, i: Interface)
    requires InterfaceOk(net, i)
    ensures AllOk(InterfaceItems(i))
  {
    InterfaceNamesOk();
    hide ListItems, NumberItems, TextItems, ScriptItems, ExtraItems, SortedKeys, AllOk, KeyOk, Clean, ListOk, PartsOk, ScriptOk;
    TextItemsOk("PrivateKey", i.privateKey);
    ListItemsOk("Address", i.address);
    ListItemsOk("DNS", i.dns);
    NumberItemsOk("MTU", i.mtu);
    NumberItemsOk("ListenPort", i.listenPort);
    TextItemsOk("Table", i.table);
    TextItemsOk("FwMark", i.fwMark);
    ScriptItemsMayOk("PreUp", i.preUp);
    ScriptItemsMayOk("PostUp", i.postUp);
    ScriptItemsMayOk("PreDown", i.preDown);
    ScriptItemsMayOk("PostDown", i.postDown);
    ExtraItemsOk(SortedKeys(i.extra.Keys), i.extra);
    var x10 := ExtraItems(SortedKeys(i.extra.Keys), i.extra);
    var x9 := ScriptItems("PostDown", i.postDown) + x10;
    var x8 := ScriptItems("PreDown", i.preDown) + x9;
    var x7 := ScriptItems("PostUp", i.postUp) + x8;
    var x6 := ScriptItems("PreUp", i.preUp) + x7;
    var x5 := TextItems("FwMark", i.fwMark) + x6;
    var x4 := TextItems("Table", i.table) + x5;
    var x3 := NumberItems("ListenPort", i.listenPort) + x4;
    var x2 := NumberItems("MTU", i.mtu) + x3;
    var x1 := ListItems("DNS", i.dns) + x2;
    BothOk(ScriptItems("PostDown", i.postDown), x10);
    BothOk(ScriptItems("PreDown", i.preDown), x9);
    BothOk(ScriptItems("PostUp", i.postUp), x8);
    BothOk(ScriptItems("PreUp", i.preUp), x7);
    BothOk(TextItems("FwMark", i.fwMark), x6);
    BothOk(TextItems("Table", i.table), x5);
    BothOk(NumberItems("ListenPort", i.listenPort), x4);
    BothOk(NumberItems("MTU", i.mtu), x3);
    BothOk(ListItems("DNS", i.dns), x2);
    BothOk(ListItems("Address", i.address), x1);
    BothOk([Pair("PrivateKey", i.privateKey)], ListItems("Address", i.address) + x1);
  }

  lemma ScriptItemsMayOk(key: string, v: string)
    requires KeyOk(key) && ScriptOk(v)
    ensures AllOk(ScriptItems(key, v))
  {
    if v != "" {
      ScriptItemsOk(key, v);
    }
  }

  lemma PeerItemsOk(net: Net, p: Peer)
    requires PeerOk(net, p)
    ensures AllOk(PeerItems(p))
  {
    PeerNamesOk();
    OneOk(Nothing);
    OneOk(PeerHeader);
    hide ListItems, NumberItems, TextItems, ExtraItems, SortedKeys, AllOk, KeyOk, Clean, ListOk, PartsOk;
    TextItemsOk("PublicKey", p.publicKey);
    BothOk([PeerHeader], [Pair("PublicKey", p.publicKey)]);
    BothOk([Nothing], [PeerHeader] + [Pair("PublicKey", p.publicKey)]);
    var head := [Nothing, PeerHeader, Pair("PublicKey", p.publicKey)];
    assert head == [Nothing] + ([PeerHeader] + [Pair("PublicKey", p.publicKey)]);
    TextItemsOk("PresharedKey", p.presharedKey);
    TextItemsOk("Endpoint", p.endpoint);
    ListItemsOk("AllowedIPs", p.allowedIPs);
    NumberItemsOk("PersistentKeepalive", p.keepalive);
    ExtraItemsOk(SortedKeys(p.extra.Keys), p.extra);
    var x4 := ExtraItems(SortedKeys(p.extra.Keys), p.extra);
    var x3 := NumberItems("PersistentKeepalive", p.keepalive) + x4;
    var x2 := ListItems("AllowedIPs", p.allowedIPs) + x3;
    var x1 := TextItems("Endpoint", p.endpoint) + x2;
    BothOk(NumberItems("PersistentKeepalive", p.keepalive), x4);
    BothOk(ListItems("AllowedIPs", p.allowedIPs), x3);
    BothOk(TextItems("Endpoint", p.endpoint), x2);
    BothOk(TextItems("PresharedKey", p.presharedKey), x1);
    BothOk(head, TextItems("PresharedKey", p.presharedKey) + x1);
  }

  lemma {:induction false} PeersItemsOk(net: Net, peers: seq<Peer>)
    requires forall p | p in peers :: PeerOk(net, p)
    ensures AllOk(PeersItems(peers))
  {
    hide PeerOk, PeerItems, ItemOk;
    if peers != [] {
      assert peers[0] in peers && forall p | p in peers[1..] :: p in peers;
      PeerItemsOk(net, peers[0]);
      PeersItemsOk(net, peers[1..]);
    }
  }

  lemma ConfigItemsOk(net: Net, c: Config)
    requires ConfigOk(net, c)
    ensures AllOk(ConfigItems(c))
  {
    hide PeerOk, InterfaceOk, InterfaceItems, PeersItems;
    InterfaceItemsOk(net, c.iface);
    PeersItemsOk(net, c.peers);
    BothOk(InterfaceItems(c.iface), PeersItems(c.peers));
    BothOk([InterfaceHeader], InterfaceItems(c.iface) + PeersItems(c.peers));
  }

  lemma ConfigItemsLoad(net: Net, c: Config)
    requires ConfigOk(net, c)
    ensures exists section :: Loads(net, EMPTY, ConfigItems(c), Loading(Normal(c), section))
  {
    hide PeerOk, InterfaceOk, InterfaceItems, PeersItems, Loads, Load, NormalInterface, NormalPeers;
    HeaderLoads(net);
    InterfaceItemsLoad(net, c.iface);
    var i := NormalInterface(c.iface);
    PeersLoad(net, i, [], InInterface, c.peers);
    var section := if c.peers == [] then InInterface else InPeer;
    assert [] + NormalPeers(c.peers) == NormalPeers(c.peers);
    LoadsThen(net, OfInterface(NO_INTERFACE), InterfaceItems(c.iface), OfInterface(i), PeersItems(c.peers), Loading(Normal(c), section));
    LoadsThen(net, EMPTY, [InterfaceHeader], OfInterface(NO_INTERFACE), InterfaceItems(c.iface) + PeersItems(c.peers), Loading(Normal(c), section));
  }

  lemma HeaderLoads(net: Net)
    ensures Loads(net, EMPTY, [InterfaceHeader], OfInterface(NO_INTERFACE))
  {
    LoadsOne(net, EMPTY, InterfaceHeader, OfInterface(NO_INTERFACE));
  }

  lemma TextStarts(c: Config)
    ensures WithoutBOM(Text(ConfigItems(c))) == Text(ConfigItems(c))
  {
    var items := ConfigItems(c);
    assert items[0] == InterfaceHeader;
    assert Text(items)[0] == "[Interface]"[0];
  }

  /** A well-formed configuration prints to a text that parses to it, but for what printing does not keep. */
  lemma PrintedParses(net: Net, c: Config)
    requires ConfigOk(net, c) && c.iface.privateKey != ""
    ensures Parsed(net, Text(ConfigItems(c))) == Ok(Normal(c))
  {
    hide PeerOk, InterfaceOk, ConfigItems, Text, ItemsOf, ScanLines, LoadAll;
    ConfigItemsOk(net, c);
    TextReads(ConfigItems(c));
    TextStarts(c);
    ConfigItemsLoad(net, c);
    var section :| Loads(net, EMPTY, ConfigItems(c), Loading(Normal(c), section));
    assert LoadAll(net, EMPTY, ConfigItems(c), 1) == Ok(Loading(Normal(c), section));
  }

  // ---- what a line gives is clean ----

  /** No line end and no NUL. */
  predicate Inline(s: string) { '\n' !in s && NUL !in s }

  lemma {:induction false} TrimStarts(s: string)
    requires s != "" && !IsSpace(s[0])
    ensures TrimSpace(s) != "" && TrimSpace(s)[0] == s[0]
    decreases |s|
  {
    if IsSpace(s[|s|-1]) {
      TrimStarts(s[..|s|-1]);
    }
  }

  lemma ItemClean(line: string)
    requires Inline(line)
    ensures ItemOf(line).Pair? ==> ItemOk(ItemOf(line))
  {
    var at := IndexOf(line, '#');
    assert '#' !in line[..at] && Inline(line[..at]);
    hide TrimSpace, IndexOf, ToLower;
    var c := Content(line);
    assert Trimmed(c) && '#' !in c && Inline(c);
    if ItemOf(line).Pair? {
      var i := IndexOf(c, '=');
      var before, after := c[..i], c[i+1..];
      assert '=' !in before;
      assert forall d | d in before || d in after :: d in c;
      if before != "" {
        assert before[0] == c[0];
        TrimStarts(before);
      }
    }
  }

  lemma {:induction false} LinesClean(s: string)
    requires NUL !in s
    ensures forall l | l in ScanLines(s) :: Inline(l)
    decreases |s|
  {
    if s != "" {
      var i := IndexOf(s, '\n');
      var line := if i == |s| then s else s[..i];
      assert '\n' !in line && forall c | c in line || c in DropCR(line) :: c in s;
      assert '\n' !in DropCR(line) by { assert forall c | c in DropCR(line) :: c in line; }
      if i < |s| {
        assert forall c | c in s[i+1..] :: c in s;
        LinesClean(s[i+1..]);
      } else {
        assert s[..i] == s;
      }
    }
  }

  // ---- what loads is well formed ----

  lemma ValueParts(v: string)
    requires Clean(v)
    ensures Split(v, NUL) == [v] && PartsOk(v) && ScriptOk(v)
  {
    NoIndex(v, NUL);
  }

  lemma PartsAppend(sofar: string, v: string)
    requires PartsOk(sofar) && Clean(v)
    ensures PartsOk(sofar + [NUL] + v) && Split(sofar + [NUL] + v, NUL)[0] == Split(sofar, NUL)[0]
  {
    hide Split;
    SplitLast(sofar, v, NUL);
  }

  lemma AppendOk(sofar: string, v: string)
    requires ScriptOk(sofar) && Clean(v)
    ensures ScriptOk(AppendScriptLine(sofar, v))
  {
    hide Split, PartsOk;
    ValueParts(v);
    if sofar != "" {
      PartsAppend(sofar, v);
    }
  }

  lemma AddExtraOk(m: map<string, string>, known: string -> bool, key: string, v: string)
    requires ExtraOk(m, known) && KeyOk(key) && !known(key) && Clean(v)
    ensures ExtraOk(AddExtraKey(m, key, v), known)
  {
    hide KeyOk, PartsOk, Split;
    ValueParts(v);
    if key in m {
      PartsAppend(m[key], v);
    }
  }

  lemma ItemsClean(v: string)
    requires Clean(v)
    ensures ListOk(SplitAndTrim(v))
  {
    SplitPieces(v, ',');
    TrimAllItems(Split(v, ','));
    forall x | x in SplitAndTrim(v) ensures Clean(x) {
      var p :| p in Split(v, ',') && x == TrimSpace(p);
      assert forall c | c in x :: c in p && c in v;
    }
  }

  lemma PrefixOk(net: Net, v: string)
    requires ListItem(v) && Clean(v)
    ensures var w := WithPrefix(net, v); ListItem(w) && Clean(w) && WithPrefix(net, w) == w
  {}

  lemma PrefixesClean(net: Net, v: string)
    requires Clean(v)
    ensures PrefixesOk(net, SplitPrefixes(net, v))
  {
    hide SplitAndTrim, WithPrefix, ListItem, Clean;
    ItemsClean(v);
    var list := SplitAndTrim(v);
    forall x | x in SplitPrefixes(net, v) ensures ListItem(x) && Clean(x) && WithPrefix(net, x) == x {
      var i :| 0 <= i < |list| && SplitPrefixes(net, v)[i] == x;
      assert list[i] in list;
      PrefixOk(net, list[i]);
    }
  }

  lemma AtoiOk(v: string)
    ensures Atoi(v).Some? ==> IntOk(Atoi(v).value)
  {}

  lemma SetInterfaceOk(net: Net, i: Interface, key: string, value: string, line: nat)
    requires InterfaceOk(net, i) && KeyOk(key) && Clean(value) && SetInterface(net, i, key, value, line).Ok?
    ensures InterfaceOk(net, SetInterface(net, i, key, value, line).value)
  {
    hide InterfaceKeyOf, KeyOk, Clean, SplitPrefixes, SplitAndTrim, Atoi, ScriptOk, AddExtraKey, AppendScriptLine, WithPrefix, ExtraOk, ListItem;
    PrefixesClean(net, value);
    ItemsClean(value);
    AtoiOk(value);
    AppendOk(i.preUp, value);
    AppendOk(i.postUp, value);
    AppendOk(i.preDown, value);
    AppendOk(i.postDown, value);
    if InterfaceKeyOf(key) == OtherKey {
      AddExtraOk(i.extra, k => InterfaceKeyOf(k) != OtherKey, key, value);
    }
  }

  lemma SetPeerOk(net: Net, p: Peer, key: string, value: string, line: nat)
    requires PeerOk(net, p) && KeyOk(key) && Clean(value) && SetPeer(net, p, key, value, line).Ok?
    ensures PeerOk(net, SetPeer(net, p, key, value, line).value)
  {
    hide PeerKeyOf, KeyOk, Clean, SplitPrefixes, Atoi, AddExtraKey, WithPrefix, ExtraOk, ListItem;
    PrefixesClean(net, value);
    AtoiOk(value);
    if PeerKeyOf(key) == OtherPeerKey {
      AddExtraOk(p.extra, k => PeerKeyOf(k) != OtherPeerKey, key, value);
    }
  }

  lemma LoadOk(net: Net, st: Loading, item: Item, k: nat)
    requires ConfigOk(net, st.config) && (item.Pair? ==> ItemOk(item)) && Load(net, st, item, k).Ok?
    ensures ConfigOk(net, Load(net, st, item, k).value.config)
  {
    NoPeerOk(net);
    hide InterfaceOk, PeerOk, SetInterface, SetPeer, KeyOk, Clean;
    if item.Pair? {
      if st.section == InInterface {
        SetInterfaceOk(net, st.config.iface, item.key, item.value, k);
      } else {
        var n := |st.config.peers|;
        SetPeerOk(net, st.config.peers[n-1], item.key, item.value, k);
      }
    }
  }

  lemma NoPeerOk(net: Net)
    ensures PeerOk(net, NO_PEER) && ConfigOk(net, EMPTY.config)
  {}

  lemma {:induction false} LoadAllOk(net: Net, st: Loading, items: seq<Item>, k: nat)
    requires ConfigOk(net, st.config) && (forall item | item in items :: item.Pair? ==> ItemOk(item))
    requires LoadAll(net, st, items, k).Ok?
    ensures ConfigOk(net, LoadAll(net, st, items, k).value.config)
    decreases |items|
  {
    hide ConfigOk, Load, ItemOk;
    if items != [] {
      assert items[0] in items && forall item | item in items[1..] :: item in items;
      LoadOk(net, st, items[0], k);
      LoadAllOk(net, Load(net, st, items[0], k).value, items[1..], k + 1);
    }
  }

  lemma ItemsOfClean(lines: seq<string>)
    requires forall l | l in lines :: Inline(l)
    ensures forall item | item in ItemsOf(lines) :: item.Pair? ==> ItemOk(item)
  {
    hide ItemOf, ItemOk;
    forall item | item in ItemsOf(lines) && item.Pair? ensures ItemOk(item) {
      var i :| 0 <= i < |lines| && ItemsOf(lines)[i] == item;
      assert lines[i] in lines;
      ItemClean(lines[i]);
    }
  }

  /** Whatever NUL-free text parses gives a well-formed configuration. */
  lemma ParsedIsWellFormed(net: Net, s: string)
    requires NUL !in s && Parsed(net, s).Ok?
    ensures ConfigOk(net, Parsed(net, s).value) && Parsed(net, s).value.iface.privateKey != ""
  {
    hide ConfigOk, Load, ItemOf;
    var text := WithoutBOM(s);
    assert forall c | c in text :: c in s;
    LinesClean(text);
    ItemsOfClean(ScanLines(text));
    NoPeerOk(net);
    LoadAllOk(net, EMPTY, ItemsOf(ScanLines(text)), 1);
  }

  // ---- printing twice ----

  lemma {:induction false} PrintedTwice(keys: seq<string>, m: map<string, string>)
    requires Ascending(keys) && forall k | k in keys :: k in m
    ensures ExtraItems(keys, m) == ExtraItems(Filled(keys, m), NonEmpty(m))
  {
    hide ScriptItems, Less;
    if keys != [] {
      assert keys[0] in keys && forall k | k in keys[1..] :: k in keys;
      TailSet(keys);
      PrintedTwice(keys[1..], m);
      NothingPrinted(keys[0]);
      var tail := Filled(keys[1..], m);
      if m[keys[0]] != "" {
        assert ([keys[0]] + tail)[0] == keys[0] && ([keys[0]] + tail)[1..] == tail;
      } else {
        assert [] + ExtraItems(tail, NonEmpty(m)) == ExtraItems(tail, NonEmpty(m));
      }
    }
  }

  /** The keys that print something. */
  function Filled(keys: seq<string>, m: map<string, string>): (r: seq<string>)
    requires forall k | k in keys :: k in m
    ensures forall k :: k in r <==> k in keys && m[k] != ""
  {
    if keys == [] then []
    else
      assert forall k | k in keys :: k == keys[0] || k in keys[1..];
      if m[keys[0]] == "" then Filled(keys[1..], m) else [keys[0]] + Filled(keys[1..], m)
  }

  lemma {:induction false} FilledAscends(keys: seq<string>, m: map<string, string>)
    requires Ascending(keys) && forall k | k in keys :: k in m
    ensures Ascending(Filled(keys, m))
  {
    hide Less;
    if keys != [] {
      TailSet(keys);
      FilledAscends(keys[1..], m);
      if m[keys[0]] != "" {
        forall y | y in Filled(keys[1..], m) ensures Less(keys[0], y) {
          SmallestFirst(keys, y);
        }
        AscendingFrom(keys[0], Filled(keys[1..], m));
      }
    }
  }

  lemma ExtraPrintsSame(m: map<string, string>)
    ensures ExtraItems(SortedKeys(m.Keys), m) == ExtraItems(SortedKeys(NonEmpty(m).Keys), NonEmpty(m))
  {
    hide ScriptItems, Less, ExtraItems;
    var keys := SortedKeys(m.Keys);
    FilledAscends(keys, m);
    AscendingUnique(Filled(keys, m), SortedKeys(NonEmpty(m).Keys));
    PrintedTwice(keys, m);
  }

  lemma {:induction false} PeersPrintSame(peers: seq<Peer>)
    ensures PeersItems(NormalPeers(peers)) == PeersItems(peers)
  {
    if peers != [] {
      ExtraPrintsSame(peers[0].extra);
      PeersPrintSame(peers[1..]);
      assert NormalPeers(peers)[1..] == NormalPeers(peers[1..]);
      hide ExtraItems, SortedKeys, ListItems, TextItems, PeersItems;
      assert PeerItems(NormalPeer(peers[0])) == PeerItems(peers[0]);
    }
  }

  /** What printing does not keep does not print. */
  lemma NormalPrintsSame(c: Config)
    ensures ConfigItems(Normal(c)) == ConfigItems(c)
  {
    hide ExtraItems, SortedKeys, ListItems, TextItems, ScriptItems, PeersItems;
    ExtraPrintsSame(c.iface.extra);
    PeersPrintSame(c.peers);
  }

  /**
   * The round trip. Every NUL-free text that parses, printed, parses again to the
   * same configuration but for non-positive numbers and empty unknown keys, and
   * what that prints is the same text.
   */
  lemma RoundTrip(net: Net, s: string)
    requires NUL !in s && Parsed(net, s).Ok?
    ensures var c := Parsed(net, s).value;
      var t := Text(ConfigItems(c));
      Parsed(net, t) == Ok(Normal(c)) && Text(ConfigItems(Normal(c))) == t
  {
    hide Parsed, ConfigOk, ConfigItems, Text, Normal;
    var c := Parsed(net, s).value;
    ParsedIsWellFormed(net, s);
    PrintedParses(net, c);
    NormalPrintsSame(c);
  }
}
