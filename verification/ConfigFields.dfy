// What ends up in which field: each field of a parsed configuration by the
// lines of its section that name it (internal/config/parser.go).
module ConfigFields {
  import opened Common
  import opened Numbers
  import opened ConfigText
  import opened ConfigFile
  import opened ConfigRoundTrip

  // ---- the lines of each section ----

  /** One `key = value` line. */
  datatype Given = Given(key: string, value: string)

  /** The section that the last header has opened. */
  function SectionAfter(items: seq<Item>): Section {
    if items == [] then NoSection
    else
      match items[|items|-1]
      case InterfaceHeader => InInterface
      case PeerHeader => InPeer
      case _ => SectionAfter(items[..|items|-1])
  }

  /** The lines of all [Interface] sections. */
  function InterfaceLines(items: seq<Item>): seq<Given> {
    if items == [] then []
    else
      var before, last := items[..|items|-1], items[|items|-1];
      if last.Pair? && SectionAfter(before) == InInterface then InterfaceLines(before) + [Given(last.key, last.value)]
      else InterfaceLines(before)
  }

  /** The lines of each [Peer] section. */
  function PeerLines(items: seq<Item>): (r: seq<seq<Given>>)
    ensures SectionAfter(items) == InPeer ==> r != []
  {
    if items == [] then []
    else
      var before, last := items[..|items|-1], items[|items|-1];
      var peers := PeerLines(before);
      if last.PeerHeader? then peers + [[]]
      else if last.Pair? && SectionAfter(before) == InPeer then
        peers[|peers|-1 := peers[|peers|-1] + [Given(last.key, last.value)]]
      else peers
  }

  /** The values of a key, spelt in any case, in the order of the lines. */
  function Values(lines: seq<Given>, name: string): seq<string> {
    if lines == [] then []
    else
      var before, last := Values(lines[..|lines|-1], name), lines[|lines|-1];
      if ToLower(last.key) == name then before + [last.value] else before
  }

  /** The values of a key spelt just so. */
  function ValuesOf(lines: seq<Given>, key: string): seq<string> {
    if lines == [] then []
    else
      var before, last := ValuesOf(lines[..|lines|-1], key), lines[|lines|-1];
      if last.key == key then before + [last.value] else before
  }

  // ---- from values to fields ----

  function Last(values: seq<string>): string { if values == [] then "" else values[|values|-1] }

  function LastNumber(values: seq<string>): int {
    if values == [] || Atoi(values[|values|-1]).None? then 0 else Atoi(values[|values|-1]).value
  }

  /** The items of all the comma lists. */
  function AllItems(values: seq<string>): seq<string> {
    if values == [] then [] else AllItems(values[..|values|-1]) + SplitAndTrim(values[|values|-1])
  }

  /** The commands from the first that is not empty, with NULs between them. */
  function Commands(values: seq<string>): string {
    if values == [] then "" else if values[0] == "" then Commands(values[1..]) else JoinParts(values)
  }

  /** got is given with the length of a single host after a bare address. */
  ghost predicate WithLength(net: Net, given: string, got: string) {
    if '/' in given || net.family(given).None? then got == given
    else if net.family(given) == Some(V4) then got == given + "/32"
    else got == given + "/128"
  }

  ghost predicate WithLengths(net: Net, given: seq<string>, got: seq<string>) {
    |got| == |given| && forall i | 0 <= i < |got| :: WithLength(net, given[i], got[i])
  }

  /** m has the keys that are not known, each with all its values. */
  ghost predicate Unknowns(lines: seq<Given>, known: set<string>, m: map<string, string>) {
    && (forall k :: k in m <==> ValuesOf(lines, k) != [] && ToLower(k) !in known)
    && (forall k | k in m :: m[k] == JoinParts(ValuesOf(lines, k)))
  }

  const INTERFACE_KEYS := {
    "privatekey", "address", "dns", "mtu", "listenport", "table", "fwmark", "preup", "postup", "predown", "postdown"}

  const PEER_KEYS := {"publickey", "presharedkey", "endpoint", "allowedips", "persistentkeepalive"}

  ghost predicate TextsAre(lines: seq<Given>, i: Interface) {
    && i.privateKey == Last(Values(lines, "privatekey"))
    && i.table == Last(Values(lines, "table"))
    && i.fwMark == Last(Values(lines, "fwmark"))
  }

  ghost predicate ListsAre(net: Net, lines: seq<Given>, i: Interface) {
    && WithLengths(net, AllItems(Values(lines, "address")), i.address)
    && i.dns == AllItems(Values(lines, "dns"))
  }

  ghost predicate NumbersAre(lines: seq<Given>, i: Interface) {
    && i.mtu == LastNumber(Values(lines, "mtu"))
    && i.listenPort == LastNumber(Values(lines, "listenport"))
  }

  ghost predicate HooksAre(lines: seq<Given>, i: Interface) {
    && i.preUp == Commands(Values(lines, "preup"))
    && i.postUp == Commands(Values(lines, "postup"))
    && i.preDown == Commands(Values(lines, "predown"))
    && i.postDown == Commands(Values(lines, "postdown"))
  }

  /** The last key, table and mark, the lists in full, the last numbers and every command. */
  ghost predicate InterfaceIs(net: Net, lines: seq<Given>, i: Interface) {
    && TextsAre(lines, i) && ListsAre(net, lines, i) && NumbersAre(lines, i) && HooksAre(lines, i)
    && Unknowns(lines, INTERFACE_KEYS, i.extra)
  }

  ghost predicate PeerFieldsAre(net: Net, lines: seq<Given>, p: Peer) {
    && p.publicKey == Last(Values(lines, "publickey"))
    && p.presharedKey == Last(Values(lines, "presharedkey"))
    && p.endpoint == Last(Values(lines, "endpoint"))
    && WithLengths(net, AllItems(Values(lines, "allowedips")), p.allowedIPs)
    && p.keepalive == LastNumber(Values(lines, "persistentkeepalive"))
  }

  ghost predicate PeerIs(net: Net, lines: seq<Given>, p: Peer) { PeerFieldsAre(net, lines, p) && Unknowns(lines, PEER_KEYS, p.extra) }

  // ---- one more line ----

  lemma OneMore(lines: seq<Given>, g: Given)
    ensures (lines + [g])[..|lines|] == lines && (lines + [g])[|lines|] == g
  {}

  lemma MoreValues(lines: seq<Given>, g: Given, name: string)
    ensures Values(lines + [g], name) == if ToLower(g.key) == name then Values(lines, name) + [g.value] else Values(lines, name)
  {
    OneMore(lines, g);
    hide ToLower;
  }

  lemma MoreOf(lines: seq<Given>, g: Given, key: string)
    ensures ValuesOf(lines + [g], key) == if g.key == key then ValuesOf(lines, key) + [g.value] else ValuesOf(lines, key)
  {
    OneMore(lines, g);
  }

  lemma MoreItems(net: Net, values: seq<string>, v: string)
    ensures AllItems(values + [v]) == AllItems(values) + SplitAndTrim(v)
    ensures forall got | WithLengths(net, AllItems(values), got) :: WithLengths(net, AllItems(values + [v]), got + SplitPrefixes(net, v))
  {
    assert (values + [v])[..|values|] == values;
    hide SplitAndTrim;
  }

  lemma JoinMore(parts: seq<string>, v: string)
    requires parts != []
    ensures JoinParts(parts + [v]) == JoinParts(parts) + [NUL] + v
  {
    assert (parts + [v])[1..] == parts[1..] + [v];
    TailMore(parts[1..], v);
  }

  lemma {:induction false} TailMore(parts: seq<string>, v: string)
    ensures Tail(parts + [v]) == Tail(parts) + [NUL] + v
  {
    if parts == [] {
      assert (parts + [v])[1..] == [] && [NUL] + v + "" == [NUL] + v;
    } else {
      assert (parts + [v])[0] == parts[0] && (parts + [v])[1..] == parts[1..] + [v];
      TailMore(parts[1..], v);
    }
  }

  /** A command is appended, or the first one set. */
  lemma {:induction false} MoreCommands(values: seq<string>, v: string)
    ensures Commands(values + [v]) == AppendScriptLine(Commands(values), v)
  {
    if values == [] {
      assert (values + [v])[1..] == [];
      JoinOne(v);
    } else if values[0] == "" {
      assert (values + [v])[1..] == values[1..] + [v];
      MoreCommands(values[1..], v);
    } else {
      JoinMore(values, v);
    }
  }

  lemma MoreOfAny(lines: seq<Given>, g: Given)
    ensures ValuesOf(lines + [g], g.key) == ValuesOf(lines, g.key) + [g.value]
    ensures forall k | k != g.key :: ValuesOf(lines + [g], k) == ValuesOf(lines, k)
  {
    MoreOf(lines, g, g.key);
    hide ValuesOf;
    forall k | k != g.key ensures ValuesOf(lines + [g], k) == ValuesOf(lines, k) { MoreOf(lines, g, k); }
  }

  lemma NoMoreUnknown(lines: seq<Given>, known: set<string>, m: map<string, string>, g: Given)
    requires Unknowns(lines, known, m) && ToLower(g.key) in known
    ensures Unknowns(lines + [g], known, m)
  {
    MoreOfAny(lines, g);
    hide ToLower, ValuesOf, JoinParts;
  }

  lemma OneMoreUnknown(lines: seq<Given>, known: set<string>, m: map<string, string>, g: Given)
    requires Unknowns(lines, known, m) && ToLower(g.key) !in known
    ensures Unknowns(lines + [g], known, AddExtraKey(m, g.key, g.value))
  {
    var n := AddExtraKey(m, g.key, g.value);
    MoreOfAny(lines, g);
    ExtraIs(ValuesOf(lines, g.key), m, g);
    hide ToLower, ValuesOf, JoinParts, AddExtraKey;
    forall k
      ensures k in n <==> ValuesOf(lines + [g], k) != [] && ToLower(k) !in known
      ensures k in n ==> n[k] == JoinParts(ValuesOf(lines + [g], k))
    {
      assert k != g.key ==> (k in n <==> k in m);
    }
  }

  lemma ExtraIs(before: seq<string>, m: map<string, string>, g: Given)
    requires g.key in m <==> before != []
    requires g.key in m ==> m[g.key] == JoinParts(before)
    ensures AddExtraKey(m, g.key, g.value) == m[g.key := JoinParts(before + [g.value])]
  {
    if before != [] {
      JoinMore(before, g.value);
    } else {
      JoinOne(g.value);
      assert [] + [g.value] == [g.value];
    }
    hide JoinParts;
  }

  lemma MoreForOne(lines: seq<Given>, g: Given)
    ensures Values(lines + [g], ToLower(g.key)) == Values(lines, ToLower(g.key)) + [g.value]
    ensures forall n | n != ToLower(g.key) :: Values(lines + [g], n) == Values(lines, n)
  {
    MoreValues(lines, g, ToLower(g.key));
    hide ToLower, Values;
    forall n | n != ToLower(g.key) ensures Values(lines + [g], n) == Values(lines, n) { MoreValues(lines, g, n); }
  }

  lemma TextsGrow(net: Net, lines: seq<Given>, i: Interface, g: Given, k: nat)
    requires TextsAre(lines, i) && SetInterface(net, i, g.key, g.value, k).Ok?
    ensures TextsAre(lines + [g], SetInterface(net, i, g.key, g.value, k).value)
  {
    MoreForOne(lines, g);
    hide ToLower, Values, AppendScriptLine, SplitPrefixes, SplitAndTrim, AddExtraKey, Atoi;
  }

  lemma ListsGrow(net: Net, lines: seq<Given>, i: Interface, g: Given, k: nat)
    requires ListsAre(net, lines, i) && SetInterface(net, i, g.key, g.value, k).Ok?
    ensures ListsAre(net, lines + [g], SetInterface(net, i, g.key, g.value, k).value)
  {
    MoreForOne(lines, g);
    MoreItems(net, Values(lines, "address"), g.value);
    MoreItems(net, Values(lines, "dns"), g.value);
    hide ToLower, Values, AllItems, WithLengths, AppendScriptLine, SplitPrefixes, SplitAndTrim, AddExtraKey, Atoi;
  }

  lemma NumbersGrow(net: Net, lines: seq<Given>, i: Interface, g: Given, k: nat)
    requires NumbersAre(lines, i) && SetInterface(net, i, g.key, g.value, k).Ok?
    ensures NumbersAre(lines + [g], SetInterface(net, i, g.key, g.value, k).value)
  {
    MoreForOne(lines, g);
    hide ToLower, Values, AppendScriptLine, SplitPrefixes, SplitAndTrim, AddExtraKey, Atoi;
  }

  lemma HooksGrow(net: Net, lines: seq<Given>, i: Interface, g: Given, k: nat)
    requires HooksAre(lines, i) && SetInterface(net, i, g.key, g.value, k).Ok?
    ensures HooksAre(lines + [g], SetInterface(net, i, g.key, g.value, k).value)
  {
    MoreForOne(lines, g);
    MoreCommands(Values(lines, "preup"), g.value);
    MoreCommands(Values(lines, "postup"), g.value);
    MoreCommands(Values(lines, "predown"), g.value);
    MoreCommands(Values(lines, "postdown"), g.value);
    hide ToLower, Values, Commands, AppendScriptLine, SplitPrefixes, SplitAndTrim, AddExtraKey, Atoi;
  }

  lemma InterfaceKeyKnown(key: string)
    ensures InterfaceKeyOf(key) == OtherKey <==> ToLower(key) !in INTERFACE_KEYS
  {
    hide ToLower;
  }

  lemma PeerKeyKnown(key: string)
    ensures PeerKeyOf(key) == OtherPeerKey <==> ToLower(key) !in PEER_KEYS
  {
    hide ToLower;
  }

  lemma UnknownsGrow(net: Net, lines: seq<Given>, i: Interface, g: Given, k: nat)
    requires Unknowns(lines, INTERFACE_KEYS, i.extra) && SetInterface(net, i, g.key, g.value, k).Ok?
    ensures Unknowns(lines + [g], INTERFACE_KEYS, SetInterface(net, i, g.key, g.value, k).value.extra)
  {
    InterfaceKeyKnown(g.key);
    if InterfaceKeyOf(g.key) == OtherKey {
      OneMoreUnknown(lines, INTERFACE_KEYS, i.extra, g);
    } else {
      NoMoreUnknown(lines, INTERFACE_KEYS, i.extra, g);
    }
    hide InterfaceKeyOf, ToLower, Unknowns, AppendScriptLine, SplitPrefixes, SplitAndTrim, AddExtraKey, Atoi;
  }

  lemma InterfaceGrows(net: Net, lines: seq<Given>, i: Interface, g: Given, k: nat)
    requires InterfaceIs(net, lines, i) && SetInterface(net, i, g.key, g.value, k).Ok?
    ensures InterfaceIs(net, lines + [g], SetInterface(net, i, g.key, g.value, k).value)
  {
    TextsGrow(net, lines, i, g, k);
    ListsGrow(net, lines, i, g, k);
    NumbersGrow(net, lines, i, g, k);
    HooksGrow(net, lines, i, g, k);
    UnknownsGrow(net, lines, i, g, k);
    hide TextsAre, ListsAre, NumbersAre, HooksAre, Unknowns, SetInterface;
  }

  lemma PeerFieldsGrow(net: Net, lines: seq<Given>, p: Peer, g: Given, k: nat)
    requires PeerFieldsAre(net, lines, p) && SetPeer(net, p, g.key, g.value, k).Ok?
    ensures PeerFieldsAre(net, lines + [g], SetPeer(net, p, g.key, g.value, k).value)
  {
    MoreForOne(lines, g);
    MoreItems(net, Values(lines, "allowedips"), g.value);
    hide ToLower, Values, AllItems, WithLengths, SplitPrefixes, SplitAndTrim, AddExtraKey, Atoi;
  }

  lemma PeerUnknownsGrow(net: Net, lines: seq<Given>, p: Peer, g: Given, k: nat)
    requires Unknowns(lines, PEER_KEYS, p.extra) && SetPeer(net, p, g.key, g.value, k).Ok?
    ensures Unknowns(lines + [g], PEER_KEYS, SetPeer(net, p, g.key, g.value, k).value.extra)
  {
    PeerKeyKnown(g.key);
    if PeerKeyOf(g.key) == OtherPeerKey {
      OneMoreUnknown(lines, PEER_KEYS, p.extra, g);
    } else {
      NoMoreUnknown(lines, PEER_KEYS, p.extra, g);
    }
    hide PeerKeyOf, ToLower, Unknowns, SplitPrefixes, AddExtraKey, Atoi;
  }

  lemma PeerGrows(net: Net, lines: seq<Given>, p: Peer, g: Given, k: nat)
    requires PeerIs(net, lines, p) && SetPeer(net, p, g.key, g.value, k).Ok?
    ensures PeerIs(net, lines + [g], SetPeer(net, p, g.key, g.value, k).value)
  {
    PeerFieldsGrow(net, lines, p, g, k);
    PeerUnknownsGrow(net, lines, p, g, k);
    hide PeerFieldsAre, Unknowns, SetPeer;
  }

  // ---- the whole text ----

  /** Loading one more line. */
  lemma {:induction false} LoadMore(net: Net, st: Loading, items: seq<Item>, x: Item, k: nat)
    ensures LoadAll(net, st, items + [x], k) ==
            match LoadAll(net, st, items, k)
            case Err(e) => Err(e)
            case Ok(mid) => Load(net, mid, x, k + |items|)
    decreases |items|
  {
    hide Load;
    if items == [] {
      assert ([] + [x])[1..] == [] && ([] + [x])[0] == x;
    } else {
      assert (items + [x])[0] == items[0] && (items + [x])[1..] == items[1..] + [x];
      if Load(net, st, items[0], k).Ok? {
        LoadMore(net, Load(net, st, items[0], k).value, items[1..], x, k + 1);
      }
    }
  }

  /** The configuration says what its lines say, section by section. */
  ghost predicate SaysIt(net: Net, items: seq<Item>, c: Config) {
    InterfaceIs(net, InterfaceLines(items), c.iface) && PeersAre(net, PeerLines(items), c.peers)
  }

  ghost predicate PeersAre(net: Net, sections: seq<seq<Given>>, peers: seq<Peer>) {
    |peers| == |sections| && forall p | 0 <= p < |peers| :: PeerIs(net, sections[p], peers[p])
  }

  lemma PeerAdded(net: Net, sections: seq<seq<Given>>, peers: seq<Peer>)
    requires PeersAre(net, sections, peers)
    ensures PeersAre(net, sections + [[]], peers + [NO_PEER])
  {
    NothingSaid(net);
    hide PeerIs;
  }

  lemma LastPeerSet(net: Net, sections: seq<seq<Given>>, peers: seq<Peer>, lines: seq<Given>, p: Peer)
    requires PeersAre(net, sections, peers) && peers != [] && PeerIs(net, lines, p)
    ensures sections != [] && PeersAre(net, sections[|sections|-1 := lines], peers[|peers|-1 := p])
  {
    hide PeerIs;
  }

  lemma NothingSaid(net: Net)
    ensures SaysIt(net, [], EMPTY.config) && PeerIs(net, [], NO_PEER)
  {}

  lemma {:induction false} LoadedSaysIt(net: Net, items: seq<Item>)
    requires LoadAll(net, EMPTY, items, 1).Ok?
    ensures var st := LoadAll(net, EMPTY, items, 1).value; st.section == SectionAfter(items) && SaysIt(net, items, st.config)
  {
    NothingSaid(net);
    if items != [] {
      var before, x := items[..|items|-1], items[|items|-1];
      assert items == before + [x];
      LoadMore(net, EMPTY, before, x, 1);
      LoadedSaysIt(net, before);
      var st := LoadAll(net, EMPTY, before, 1).value;
      LineSaysIt(net, before, st, x, |items|);
    }
  }

  lemma LineSaysIt(net: Net, items: seq<Item>, st: Loading, x: Item, k: nat)
    requires st.section == SectionAfter(items) && SaysIt(net, items, st.config) && Load(net, st, x, k).Ok?
    ensures var next := Load(net, st, x, k).value; next.section == SectionAfter(items + [x]) && SaysIt(net, items + [x], next.config)
  {
    hide InterfaceIs, PeersAre, SectionAfter, InterfaceLines, PeerLines, SetInterface, SetPeer;
    SectionMore(items, x);
    if x.Pair? && st.section == InInterface {
      InterfaceLineSays(net, items, st, x, k);
    } else if x.Pair? {
      assert st.section == InPeer;
      PeerLineSays(net, items, st, x, k);
    } else {
      PeerAdded(net, PeerLines(items), st.config.peers);
    }
  }

  /** The sections with one more line. */
  lemma SectionMore(items: seq<Item>, x: Item)
    ensures SectionAfter(items + [x]) == if x.InterfaceHeader? then InInterface else if x.PeerHeader? then InPeer else SectionAfter(items)
    ensures InterfaceLines(items + [x]) ==
            if x.Pair? && SectionAfter(items) == InInterface then InterfaceLines(items) + [Given(x.key, x.value)] else InterfaceLines(items)
    ensures PeerLines(items + [x]) ==
            if x.PeerHeader? then PeerLines(items) + [[]]
            else if x.Pair? && SectionAfter(items) == InPeer then
              PeerLines(items)[|PeerLines(items)|-1 := PeerLines(items)[|PeerLines(items)|-1] + [Given(x.key, x.value)]]
            else PeerLines(items)
  {
    assert (items + [x])[..|items|] == items && (items + [x])[|items|] == x;
  }

  lemma InterfaceLineSays(net: Net, items: seq<Item>, st: Loading, x: Item, k: nat)
    requires st.section == SectionAfter(items) == InInterface && SaysIt(net, items, st.config) && x.Pair? && Load(net, st, x, k).Ok?
    ensures SaysIt(net, items + [x], Load(net, st, x, k).value.config)
  {
    SectionMore(items, x);
    InterfaceGrows(net, InterfaceLines(items), st.config.iface, Given(x.key, x.value), k);
    hide InterfaceIs, PeersAre, SectionAfter, InterfaceLines, PeerLines, SetInterface;
  }

  lemma PeerLoaded(net: Net, st: Loading, x: Item, k: nat)
    requires st.section == InPeer && x.Pair? && Load(net, st, x, k).Ok?
    ensures var n := |st.config.peers|;
      && n > 0 && SetPeer(net, st.config.peers[n-1], x.key, x.value, k).Ok?
      && Load(net, st, x, k).value.config == Config(st.config.iface, st.config.peers[n-1 := SetPeer(net, st.config.peers[n-1], x.key, x.value, k).value])
  {
    hide SetPeer;
  }

  lemma PeerLineSays(net: Net, items: seq<Item>, st: Loading, x: Item, k: nat)
    requires st.section == SectionAfter(items) == InPeer && SaysIt(net, items, st.config) && x.Pair? && Load(net, st, x, k).Ok?
    ensures SaysIt(net, items + [x], Load(net, st, x, k).value.config)
  {
    SectionMore(items, x);
    PeerLoaded(net, st, x, k);
    var sections, peers := PeerLines(items), st.config.peers;
    var n := |peers|;
    var g := Given(x.key, x.value);
    assert |sections| == n && PeerIs(net, sections[n-1], peers[n-1]);
    PeerGrows(net, sections[n-1], peers[n-1], g, k);
    hide PeerIs, PeersAre, InterfaceIs, SectionAfter, InterfaceLines, PeerLines, SetPeer, Load;
    LastPeerSet(net, sections, peers, sections[n-1] + [g], SetPeer(net, peers[n-1], x.key, x.value, k).value);
  }

  // ---- which texts parse ----

  /** The line is one, its key stands in a section, and its number is one. */
  predicate Fits(items: seq<Item>, i: nat)
    requires i < |items|
  {
    match items[i]
    case Malformed => false
    case Pair(key, value) =>
      (match SectionAfter(items[..i])
       case NoSection => false
       case InInterface => ToLower(key) in {"mtu", "listenport"} ==> Atoi(value).Some?
       case InPeer => ToLower(key) == "persistentkeepalive" ==> Atoi(value).Some?)
    case _ => true
  }

  /** What is said of a line that does not fit, by its number from 1. */
  function Complaint(items: seq<Item>, i: nat): ConfigError
    requires i < |items| && !Fits(items, i)
  {
    if items[i].Malformed? then NoEquals(i + 1)
    else if SectionAfter(items[..i]) == NoSection then OutsideSection(i + 1, items[i].key)
    else BadNumber(i + 1, items[i].value)
  }

  /** The first line that does not fit. */
  ghost predicate FirstMisfit(items: seq<Item>, i: nat) {
    i < |items| && !Fits(items, i) && forall j | 0 <= j < i :: Fits(items, j)
  }

  lemma StillFits(items: seq<Item>, x: Item, i: nat)
    requires i < |items|
    ensures Fits(items + [x], i) <==> Fits(items, i)
    ensures !Fits(items, i) ==> Complaint(items + [x], i) == Complaint(items, i)
  {
    assert (items + [x])[..i] == items[..i];
  }

  lemma InterfaceLineFits(net: Net, i: Interface, key: string, value: string, k: nat)
    ensures SetInterface(net, i, key, value, k).Ok? <==> (ToLower(key) in {"mtu", "listenport"} ==> Atoi(value).Some?)
    ensures SetInterface(net, i, key, value, k).Err? ==> SetInterface(net, i, key, value, k).error == BadNumber(k, value)
  {
    hide ToLower, Atoi, SplitPrefixes, SplitAndTrim, AddExtraKey, AppendScriptLine;
  }

  lemma PeerLineFits(net: Net, p: Peer, key: string, value: string, k: nat)
    ensures SetPeer(net, p, key, value, k).Ok? <==> (ToLower(key) == "persistentkeepalive" ==> Atoi(value).Some?)
    ensures SetPeer(net, p, key, value, k).Err? ==> SetPeer(net, p, key, value, k).error == BadNumber(k, value)
  {
    hide ToLower, Atoi, SplitPrefixes, AddExtraKey;
  }

  lemma LastFits(net: Net, items: seq<Item>, st: Loading, x: Item)
    requires st.section == SectionAfter(items) && (st.section == InPeer ==> st.config.peers != [])
    ensures Load(net, st, x, |items| + 1).Ok? <==> Fits(items + [x], |items|)
    ensures !Fits(items + [x], |items|) ==> Load(net, st, x, |items| + 1) == Err(Complaint(items + [x], |items|))
  {
    assert (items + [x])[..|items|] == items && (items + [x])[|items|] == x;
    if x.Pair? {
      InterfaceLineFits(net, st.config.iface, x.key, x.value, |items| + 1);
      if st.section == InPeer {
        PeerLineFits(net, st.config.peers[|st.config.peers|-1], x.key, x.value, |items| + 1);
      }
    }
    hide ToLower, Atoi, SectionAfter, SetInterface, SetPeer;
  }

  lemma LastLoads(net: Net, items: seq<Item>, x: Item)
    requires LoadAll(net, EMPTY, items, 1).Ok?
    ensures var next := Load(net, LoadAll(net, EMPTY, items, 1).value, x, |items| + 1);
      && (next.Ok? <==> Fits(items + [x], |items|))
      && (!Fits(items + [x], |items|) ==> next == Err(Complaint(items + [x], |items|)))
  {
    hide LoadAll, Load, Fits, Complaint, InterfaceIs, PeerIs;
    LoadedSaysIt(net, items);
    LastFits(net, items, LoadAll(net, EMPTY, items, 1).value, x);
  }

  /** A text loads exactly if every line fits, and otherwise its first misfit is complained of. */
  lemma {:induction false} LoadsExactly(net: Net, items: seq<Item>)
    ensures LoadAll(net, EMPTY, items, 1).Ok? <==> forall i | 0 <= i < |items| :: Fits(items, i)
    ensures LoadAll(net, EMPTY, items, 1).Err? ==>
      exists i: nat :: FirstMisfit(items, i) && LoadAll(net, EMPTY, items, 1) == Err(Complaint(items, i))
  {
    hide Load, Fits, Complaint, SectionAfter, SaysIt;
    if items != [] {
      var before, x := items[..|items|-1], items[|items|-1];
      assert items == before + [x];
      LoadMore(net, EMPTY, before, x, 1);
      LoadsExactly(net, before);
      hide LoadAll;
      forall i | 0 <= i < |before| ensures Fits(items, i) <==> Fits(before, i) { StillFits(before, x, i); }
      if LoadAll(net, EMPTY, before, 1).Ok? {
        LastLoads(net, before, x);
      } else {
        var i: nat :| FirstMisfit(before, i) && LoadAll(net, EMPTY, before, 1) == Err(Complaint(before, i));
        StillFits(before, x, i);
        assert FirstMisfit(items, i);
      }
    }
  }

  /**
   * A text parses if and only if each of its lines fits and a private key is given,
   * and the configuration says, field by field, what the lines of its section say;
   * of a text that does not the first misfit is reported with its line.
   */
  lemma ParsedSaysIt(net: Net, s: string)
    ensures var items := ItemsOf(ScanLines(WithoutBOM(s)));
      && (Parsed(net, s).Ok? <==>
            (forall i | 0 <= i < |items| :: Fits(items, i)) && Last(Values(InterfaceLines(items), "privatekey")) != "")
      && (Parsed(net, s).Ok? ==> SaysIt(net, items, Parsed(net, s).value))
      && (Parsed(net, s).Err? && Parsed(net, s).error != NoPrivateKey ==>
            exists i: nat :: FirstMisfit(items, i) && Parsed(net, s).error == Complaint(items, i))
  {
    var items := ItemsOf(ScanLines(WithoutBOM(s)));
    LoadsExactly(net, items);
    if LoadAll(net, EMPTY, items, 1).Ok? { LoadedSaysIt(net, items); }
    hide LoadAll, Fits, ItemsOf, ScanLines, WithoutBOM, ListsAre, NumbersAre, HooksAre, Unknowns, PeersAre, InterfaceLines, Values;
  }

  // ---- what a line is ----

  /** A pair reads as its key and value whatever blanks stand around them. */
  lemma PaddedPair(a: string, key: string, b: string, c: string, value: string, d: string)
    requires AllSpace(a) && AllSpace(b) && AllSpace(c) && AllSpace(d) && key != "" && value != ""
    requires KeyOk(key) && Clean(value)
    ensures ItemOf(a + key + b + "=" + c + value + d) == Pair(key, value)
  {
    var line, core := a + key + b + "=" + c + value + d, key + b + "=" + c + value;
    assert line == a + core + d && core == (key + b) + ['='] + (c + value);
    assert core[0] == key[0] && core[|core|-1] == value[|value|-1];
    NoIndexIn(line, '#');
    assert line[..|line|] == line;
    TrimIs(a, core, d);
    TrimIs("", key, b);
    TrimIs(c, value, "");
    assert "" + key + b == key + b && c + value + "" == c + value;
    hide TrimSpace, IndexOf;
    PairItem(line, key + b, c + value);
  }

  /** c is the letter, in either case or as one of the two code points whose lower case it is. */
  predicate Spells(c: char, letter: char)
    requires 'a' <= letter <= 'z'
  {
    c == letter || c as int == letter as int - 32 || (letter == 'k' && c == '\U{212A}') || (letter == 'i' && c == '\U{130}')
  }

  /** Keys are the same in any case. */
  lemma {:induction false} AnyCase(key: string, name: string)
    requires |key| == |name| && forall i | 0 <= i < |name| :: 'a' <= name[i] <= 'z' && Spells(key[i], name[i])
    ensures ToLower(key) == name
  {
    if name != "" {
      AnyCase(key[1..], name[1..]);
      assert Lower(key[0]) == name[0] && name == [name[0]] + name[1..];
    }
  }

  /** From a number sign on, a line is a comment. */
  lemma CommentGoes(line: string, comment: string)
    requires '#' !in line
    ensures ItemOf(line + "#" + comment) == ItemOf(line)
  {
    IndexAfter(line, comment, '#');
    NoIndexIn(line, '#');
    assert (line + "#" + comment)[..|line|] == line && line[..|line|] == line;
    assert line + ['#'] + comment == line + "#" + comment;
    hide IndexOf, TrimSpace, ToLower;
  }

  /** A line of blanks, or one that a semicolon begins, says nothing. */
  lemma SaysNothing(blanks: string, rest: string)
    requires AllSpace(blanks) && '#' !in rest
    ensures ItemOf(blanks) == Nothing && ItemOf(blanks + ";" + rest) == Nothing
  {
    SpaceVanishes(blanks);
    NoIndexIn(blanks, '#');
    var line := blanks + ";" + rest;
    NoIndexIn(line, '#');
    assert blanks[..|blanks|] == blanks && line[..|line|] == line;
    SemicolonStays(blanks, rest);
  }

  lemma {:induction false} SemicolonStays(blanks: string, rest: string)
    requires AllSpace(blanks)
    ensures TrimSpace(blanks + ";" + rest) != "" && TrimSpace(blanks + ";" + rest)[0] == ';'
  {
    var s := blanks + ";" + rest;
    if blanks == "" {
      assert s[0] == ';';
      TrimStarts(s);
    } else {
      assert s[0] == blanks[0] && s[1..] == blanks[1..] + ";" + rest;
      SemicolonStays(blanks[1..], rest);
    }
  }

  /** A line ends with a line feed, with or without a carriage return before it. */
  lemma LineEnds(line: string, rest: string)
    requires '\n' !in line && (line == "" || line[|line|-1] != '\r')
    ensures ScanLines(line + "\n" + rest) == [line] + ScanLines(rest)
    ensures ScanLines(line + "\r\n" + rest) == [line] + ScanLines(rest)
  {
    ScanFirst(line, rest);
    ReturnDropped(line, rest);
  }

  lemma ReturnDropped(line: string, rest: string)
    requires '\n' !in line
    ensures ScanLines(line + "\r\n" + rest) == [line] + ScanLines(rest)
  {
    var l := line + ['\r'];
    var s := l + ['\n'] + rest;
    IndexAfter(l, rest, '\n');
    hide IndexOf;
    assert s[..|l|] == l && s[|l|+1..] == rest && l[..|l|-1] == line;
    assert line + "\r\n" + rest == s by { assert "\r\n" == ['\r'] + ['\n']; }
  }

  /** A byte order mark before the text says nothing. */
  lemma MarkGoes(net: Net, s: string)
    requires s == "" || s[0] != '\U{FEFF}'
    ensures Parsed(net, ['\U{FEFF}'] + s) == Parsed(net, s)
  {
    assert (['\U{FEFF}'] + s)[1..] == s;
    hide ScanLines, LoadAll;
  }
}
