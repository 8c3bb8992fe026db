// The ruleset compiler: a declarative Ruleset becomes an ordered pf rule list
// (internal/firewall/rules.go), proved against a packet-level specification.
module Rules {
  import opened Common
  import opened Numbers

  /** One tunnel the ruleset lets through; `iface` is empty while it reconnects. */
  datatype Pass = Pass(iface: string, proto: string, endpoints: seq<string>)

  datatype Ruleset = Ruleset(
    killSwitch: bool,
    tunnels: seq<Pass>,
    dnsProtection: bool,
    dnsServers: seq<string>,
    lookupServers: seq<string>)

  datatype Addr = V4(bits: nat) | V6(bits: nat)

  datatype Transport = Tcp | Udp | Icmp6 | OtherProtocol(number: nat)

  /** A packet that opens a connection (no pf state entry matches it yet). */
  datatype Packet = Packet(
    outbound: bool, iface: string, inet6: bool, transport: Transport,
    dst: Addr, srcPort: nat, dstPort: nat, icmpType: nat)

  /** What Go's net and strconv packages make of a string; left uninterpreted. */
  datatype Net = Net(
    parseIP: string -> Option<Addr>,
    splitHostPort: string -> Option<(string, string)>,
    atoi: string -> Option<int>)

  datatype Direction = Both | Outward | Inward

  /** One filter rule; an absent field matches everything. */
  datatype Rule = Rule(
    pass: bool, direction: Direction, quick: bool, iface: Option<string>,
    inet6Only: bool, transports: Option<set<Transport>>, dst: Option<Addr>,
    srcPort: Option<nat>, dstPort: Option<nat>, icmpTypes: Option<set<nat>>)

  datatype BuildError =
    | InvalidInterface(name: string)
    | InvalidLookupServer(ip: string)
    | InvalidDNSServer(ip: string)
    | InvalidEndpointIP(ip: string)
    | InvalidPort(port: string)

  const EveryPacket := Rule(true, Both, true, None, false, None, None, None, None, None)
  const PORT_53_TRANSPORTS := {Tcp, Udp}

  // ---- pf's evaluation of a rule list ----

  predicate Holds<T(==)>(want: Option<T>, got: T) {
    want.None? || want.value == got
  }

  predicate Matches(r: Rule, k: Packet) {
    && (r.direction == Both || (r.direction == Outward) == k.outbound)
    && Holds(r.iface, k.iface)
    && (r.inet6Only ==> k.inet6)
    && (r.transports.None? || k.transport in r.transports.value)
    && Holds(r.dst, k.dst)
    && Holds(r.srcPort, k.srcPort)
    && Holds(r.dstPort, k.dstPort)
    && (r.icmpTypes.None? || k.icmpType in r.icmpTypes.value)
  }

  /** pf: the first matching quick rule decides, else the last match, else pass. */
  function Evaluate(rules: seq<Rule>, k: Packet, soFar: bool): bool {
    if rules == [] then soFar
    else if !Matches(rules[0], k) then Evaluate(rules[1..], k, soFar)
    else if rules[0].quick then rules[0].pass
    else Evaluate(rules[1..], k, rules[0].pass)
  }

  predicate Passes(rules: seq<Rule>, k: Packet) {
    Evaluate(rules, k, true)
  }

  // ---- the declarative verdict ----

  predicate IsLower(c: char) { 'a' <= c <= 'z' }

  predicate AllLower(s: string) { forall c | c in s :: IsLower(c) }

  /** The interface pattern `^[a-z]+[0-9]+$`. */
  predicate ValidInterface(s: string) {
    exists i | 0 < i < |s| :: AllLower(s[..i]) && AllDigits(s[i..])
  }

  /** DNS protection is pending while no server is known and nothing reconnects. */
  predicate Enforces(rs: Ruleset) {
    rs.dnsProtection && (|rs.dnsServers| > 0 || exists t | t in rs.tunnels :: t.iface == "")
  }

  predicate IsTcp(proto: string) { "tcp" <= proto }

  function HostAndPort(net: Net, ep: string): (string, string) {
    match net.splitHostPort(ep)
    case Some(hp) => hp
    case None => (ep, "")
  }

  predicate ValidPort(net: Net, port: string) {
    net.atoi(port).Some? && 1 <= net.atoi(port).value <= 65535
  }

  predicate ValidEndpoint(net: Net, ep: string) {
    var (host, port) := HostAndPort(net, ep);
    host == "" || (net.parseIP(host).Some? && (port == "" || ValidPort(net, port)))
  }

  predicate ValidIP(net: Net, s: string) { net.parseIP(s).Some? }

  ghost predicate ValidTunnel(net: Net, t: Pass) {
    forall ep | ep in t.endpoints :: ValidEndpoint(net, ep)
  }

  predicate Enforcing(rs: Ruleset) { rs.killSwitch || Enforces(rs) }

  /** Every string the compiler has to read is well formed. */
  ghost predicate WellFormed(net: Net, rs: Ruleset) {
    Enforcing(rs) ==>
      && (forall t | t in rs.tunnels :: t.iface == "" || ValidInterface(t.iface))
      && (forall s | s in rs.lookupServers :: ValidIP(net, s))
      && (Enforces(rs) ==> forall s | s in rs.dnsServers :: ValidIP(net, s))
      && (rs.killSwitch ==> forall t | t in rs.tunnels :: ValidTunnel(net, t))
  }

  predicate IsDNS(k: Packet) {
    k.outbound && k.transport in PORT_53_TRANSPORTS && k.dstPort == 53
  }

  predicate ToServer(net: Net, servers: seq<string>, k: Packet) {
    exists s | s in servers :: net.parseIP(s) == Some(k.dst)
  }

  predicate OnTunnel(rs: Ruleset, k: Packet) {
    exists t | t in rs.tunnels :: t.iface != "" && t.iface == k.iface
  }

  predicate HitsEndpoint(net: Net, proto: string, ep: string, k: Packet) {
    var (host, port) := HostAndPort(net, ep);
    && k.outbound
    && host != ""
    && net.parseIP(host) == Some(k.dst)
    && k.transport == (if IsTcp(proto) then Tcp else Udp)
    && (port == "" || net.atoi(port) == Some(k.dstPort))
  }

  predicate HitsPass(net: Net, t: Pass, k: Packet) {
    exists ep | ep in t.endpoints :: HitsEndpoint(net, t.proto, ep, k)
  }

  predicate ToEndpoint(net: Net, rs: Ruleset, k: Packet) {
    exists t | t in rs.tunnels :: HitsPass(net, t, k)
  }

  /** DHCPv4 and DHCPv6 client to server, and IPv6 neighbour discovery. */
  predicate LinkControl(k: Packet) {
    || (k.outbound && k.transport == Udp && k.srcPort == 68 && k.dstPort == 67)
    || (k.outbound && k.transport == Udp && k.srcPort == 546 && k.dstPort == 547)
    || (k.inet6 && k.transport == Icmp6 && k.icmpType in {133, 134, 135, 136})
  }

  /** What the kill switch and DNS protection promise for one packet. */
  predicate Verdict(net: Net, rs: Ruleset, k: Packet) {
    if !Enforcing(rs) || k.iface == "lo0" then true
    else if IsDNS(k) && ToServer(net, rs.lookupServers, k) then true
    else if Enforces(rs) && IsDNS(k) then ToServer(net, rs.dnsServers, k) && OnTunnel(rs, k)
    else if !rs.killSwitch then true
    else ToEndpoint(net, rs, k) || LinkControl(k) || OnTunnel(rs, k)
  }

  // ---- quick rules ----

  /** The decision of the first matching quick rule, if there is one. */
  ghost function Quick(rules: seq<Rule>, k: Packet): Option<bool> {
    if rules == [] then None
    else if rules[0].quick && Matches(rules[0], k) then Some(rules[0].pass)
    else Quick(rules[1..], k)
  }

  /** An earlier decision stands; otherwise the condition decides to pass. */
  function OrElse(earlier: Option<bool>, passes: bool): Option<bool> {
    if earlier.Some? then earlier else if passes then Some(true) else None
  }

  lemma {:induction false} QuickAppend(rules: seq<Rule>, more: seq<Rule>, k: Packet)
    ensures Quick(rules + more, k) == if Quick(rules, k).Some? then Quick(rules, k) else Quick(more, k)
  {
    if rules == [] {
      assert rules + more == more;
    } else {
      assert (rules + more)[0] == rules[0] && (rules + more)[1..] == rules[1..] + more;
      QuickAppend(rules[1..], more, k);
    }
  }

  function QuickWith(earlier: Option<bool>, r: Rule, k: Packet): Option<bool> {
    if earlier.Some? then earlier else if Matches(r, k) then Some(r.pass) else None
  }

  lemma QuickSnoc(rules: seq<Rule>, r: Rule)
    requires r.quick
    ensures forall k :: Quick(rules + [r], k) == QuickWith(Quick(rules, k), r, k)
  {
    forall k ensures Quick(rules + [r], k) == QuickWith(Quick(rules, k), r, k) {
      QuickAppend(rules, [r], k);
      assert Quick([r], k) == if Matches(r, k) then Some(r.pass) else None;
    }
  }

  ghost predicate AllQuick(rules: seq<Rule>) {
    forall r | r in rules :: r.quick
  }

  /** A list of quick rules followed by non-quick ones: the quick part decides first. */
  lemma {:induction false} QuickThenRest(quick: seq<Rule>, rest: seq<Rule>, k: Packet)
    requires AllQuick(quick)
    ensures Evaluate(quick + rest, k, true) ==
            if Quick(quick, k).Some? then Quick(quick, k).value else Evaluate(rest, k, true)
  {
    if quick == [] {
      assert quick + rest == rest;
    } else {
      assert (quick + rest)[0] == quick[0] && (quick + rest)[1..] == quick[1..] + rest;
      QuickThenRest(quick[1..], rest, k);
    }
  }

  /** Without more rules a packet passes unless a quick rule blocks it. */
  lemma PassedOtherwise(quick: seq<Rule>, k: Packet)
    requires AllQuick(quick)
    ensures Passes(quick, k) == (Quick(quick, k) != Some(false))
  {
    QuickThenRest(quick, [], k);
    assert quick + [] == quick;
  }

  /** With the two block rules behind them it passes only if a quick rule passes it. */
  lemma BlockedOtherwise(quick: seq<Rule>, k: Packet)
    requires AllQuick(quick)
    ensures var blockOut := EveryPacket.(pass := false, quick := false, direction := Outward);
      Passes(quick + [blockOut, blockOut.(direction := Inward)], k) == (Quick(quick, k) == Some(true))
  {
    var blockOut := EveryPacket.(pass := false, quick := false, direction := Outward);
    var tail := [blockOut, blockOut.(direction := Inward)];
    QuickThenRest(quick, tail, k);
    assert Evaluate(tail[1..], k, false) == false;
    assert !Evaluate(tail, k, true);
  }

  // ---- the compiler ----

  method EnforcesDNS(rs: Ruleset) returns (b: bool)
    ensures b <==> Enforces(rs)
  {
    if !rs.dnsProtection {
      return false;
    }
    if |rs.dnsServers| > 0 {
      return true;
    }
    for i := 0 to |rs.tunnels|
      invariant forall t | t in rs.tunnels[..i] :: t.iface != ""
    {
      if rs.tunnels[i].iface == "" {
        return true;
      }
    }
    assert rs.tunnels[..|rs.tunnels|] == rs.tunnels;
    return false;
  }

  /** Collects the tunnel interfaces, in order, or the first ill-formed one. */
  method Interfaces(rs: Ruleset) returns (r: Result<seq<string>, BuildError>)
    ensures r.Ok? ==> forall t | t in rs.tunnels :: t.iface == "" || ValidInterface(t.iface)
    ensures r.Ok? ==> forall n :: n in r.value <==> n != "" && exists t | t in rs.tunnels :: t.iface == n
    ensures r.Err? ==> exists t | t in rs.tunnels :: t.iface != "" && !ValidInterface(t.iface)
  {
    var ifaces: seq<string> := [];
    for i := 0 to |rs.tunnels|
      invariant forall t | t in rs.tunnels[..i] :: t.iface == "" || ValidInterface(t.iface)
      invariant forall n :: n in ifaces <==> n != "" && exists t | t in rs.tunnels[..i] :: t.iface == n
    {
      var t := rs.tunnels[i];
      assert rs.tunnels[..i+1] == rs.tunnels[..i] + [t];
      if t.iface == "" {
        continue;
      }
      if !ValidInterface(t.iface) {
        return Err(InvalidInterface(t.iface));
      }
      ifaces := ifaces + [t.iface];
    }
    assert rs.tunnels[..|rs.tunnels|] == rs.tunnels;
    return Ok(ifaces);
  }

  function PortRule(iface: Option<string>, dst: Option<Addr>, pass: bool): Rule {
    EveryPacket.(pass := pass, direction := Outward, iface := iface,
                 transports := Some(PORT_53_TRANSPORTS), dst := dst, dstPort := Some(53))
  }

  /** Loopback, then port 53 to the servers an open lookup window may query. */
  method LookupSection(net: Net, servers: seq<string>) returns (r: Result<seq<Rule>, BuildError>)
    ensures r.Ok? <==> forall s | s in servers :: ValidIP(net, s)
    ensures r.Ok? ==> AllQuick(r.value)
    ensures r.Ok? ==> forall k :: Quick(r.value, k) == OrElse(None, k.iface == "lo0" || (IsDNS(k) && ToServer(net, servers, k)))
  {
    var b := [EveryPacket.(iface := Some("lo0"))];
    for i := 0 to |servers|
      invariant forall s | s in servers[..i] :: ValidIP(net, s)
      invariant AllQuick(b)
      invariant forall k :: Quick(b, k) == OrElse(None, k.iface == "lo0" || (IsDNS(k) && ToServer(net, servers[..i], k)))
    {
      var s := servers[i];
      assert servers[..i+1] == servers[..i] + [s];
      if !ValidIP(net, s) {
        return Err(InvalidLookupServer(s));
      }
      var rule := PortRule(None, net.parseIP(s), true);
      QuickSnoc(b, rule);
      b := b + [rule];
    }
    assert servers[..|servers|] == servers;
    return Ok(b);
  }

  /** Port 53 to one server on each tunnel interface. */
  method ServerSection(addr: Addr, ifaces: seq<string>, b: seq<Rule>) returns (r: seq<Rule>)
    requires AllQuick(b)
    ensures AllQuick(r)
    ensures forall k :: Quick(r, k) == OrElse(Quick(b, k), IsDNS(k) && k.dst == addr && k.iface in ifaces)
  {
    r := b;
    for j := 0 to |ifaces|
      invariant AllQuick(r)
      invariant forall k :: Quick(r, k) == OrElse(Quick(b, k), IsDNS(k) && k.dst == addr && k.iface in ifaces[..j])
    {
      assert ifaces[..j+1] == ifaces[..j] + [ifaces[j]];
      var rule := PortRule(Some(ifaces[j]), Some(addr), true);
      QuickSnoc(r, rule);
      r := r + [rule];
    }
    assert ifaces[..|ifaces|] == ifaces;
  }

  function DNSDecision(net: Net, servers: seq<string>, ifaces: seq<string>, earlier: Option<bool>, k: Packet): Option<bool> {
    if earlier.Some? then earlier
    else if IsDNS(k) then Some(ToServer(net, servers, k) && k.iface in ifaces)
    else None
  }

  /** DNS protection: allowed servers on tunnel interfaces, everything else on port 53 dropped. */
  method DNSSection(net: Net, servers: seq<string>, ifaces: seq<string>, b: seq<Rule>)
    returns (r: Result<seq<Rule>, BuildError>)
    requires AllQuick(b)
    ensures r.Ok? <==> forall s | s in servers :: ValidIP(net, s)
    ensures r.Ok? ==> AllQuick(r.value)
    ensures r.Ok? ==> forall k :: Quick(r.value, k) == DNSDecision(net, servers, ifaces, Quick(b, k), k)
  {
    var out := b;
    for i := 0 to |servers|
      invariant forall s | s in servers[..i] :: ValidIP(net, s)
      invariant AllQuick(out)
      invariant forall k :: Quick(out, k) == OrElse(Quick(b, k), IsDNS(k) && ToServer(net, servers[..i], k) && k.iface in ifaces)
    {
      var s := servers[i];
      assert servers[..i+1] == servers[..i] + [s];
      if !ValidIP(net, s) {
        return Err(InvalidDNSServer(s));
      }
      out := ServerSection(net.parseIP(s).value, ifaces, out);
    }
    assert servers[..|servers|] == servers;
    var drop := PortRule(None, None, false);
    QuickSnoc(out, drop);
    out := out + [drop];
    return Ok(out);
  }

  /** The transport to one tunnel's servers, on any interface. */
  method EndpointSection(net: Net, t: Pass, b: seq<Rule>) returns (r: Result<seq<Rule>, BuildError>)
    requires AllQuick(b)
    ensures r.Ok? <==> ValidTunnel(net, t)
    ensures r.Ok? ==> AllQuick(r.value)
    ensures r.Ok? ==> forall k :: Quick(r.value, k) == OrElse(Quick(b, k), HitsPass(net, t, k))
  {
    var transport := if IsTcp(t.proto) then Tcp else Udp;
    var out := b;
    for i := 0 to |t.endpoints|
      invariant forall ep | ep in t.endpoints[..i] :: ValidEndpoint(net, ep)
      invariant AllQuick(out)
      invariant forall k :: Quick(out, k) == OrElse(Quick(b, k), HitsPass(net, t.(endpoints := t.endpoints[..i]), k))
    {
      var ep := t.endpoints[i];
      assert t.endpoints[..i+1] == t.endpoints[..i] + [ep];
      assert forall k :: HitsPass(net, t.(endpoints := t.endpoints[..i+1]), k) <==>
        HitsPass(net, t.(endpoints := t.endpoints[..i]), k) || HitsEndpoint(net, t.proto, ep, k);
      var (host, port) := HostAndPort(net, ep);
      assert ep in t.endpoints;
      if host == "" {
        continue;
      }
      if net.parseIP(host).None? {
        return Err(InvalidEndpointIP(host));
      }
      var rule := EveryPacket.(direction := Outward, transports := Some({transport}), dst := net.parseIP(host));
      if port != "" {
        if !ValidPort(net, port) {
          return Err(InvalidPort(port));
        }
        rule := rule.(dstPort := Some(net.atoi(port).value));
      }
      QuickSnoc(out, rule);
      out := out + [rule];
    }
    assert t.endpoints[..|t.endpoints|] == t.endpoints;
    return Ok(out);
  }

  method EndpointSections(net: Net, tunnels: seq<Pass>, b: seq<Rule>) returns (r: Result<seq<Rule>, BuildError>)
    requires AllQuick(b)
    ensures r.Ok? <==> forall t | t in tunnels :: ValidTunnel(net, t)
    ensures r.Ok? ==> AllQuick(r.value)
    ensures r.Ok? ==> forall k :: Quick(r.value, k) == OrElse(Quick(b, k), exists t | t in tunnels :: HitsPass(net, t, k))
  {
    var out := b;
    for i := 0 to |tunnels|
      invariant forall t | t in tunnels[..i] :: ValidTunnel(net, t)
      invariant AllQuick(out)
      invariant forall k :: Quick(out, k) == OrElse(Quick(b, k), exists t | t in tunnels[..i] :: HitsPass(net, t, k))
    {
      assert tunnels[..i+1] == tunnels[..i] + [tunnels[i]];
      var s := EndpointSection(net, tunnels[i], out);
      if s.Err? {
        return s;
      }
      out := s.value;
    }
    assert tunnels[..|tunnels|] == tunnels;
    return Ok(out);
  }

  /** DHCP, neighbour discovery and everything on a tunnel interface. */
  method LinkSection(ifaces: seq<string>, b: seq<Rule>) returns (r: seq<Rule>)
    requires AllQuick(b)
    ensures AllQuick(r)
    ensures forall k :: Quick(r, k) == OrElse(Quick(b, k), LinkControl(k) || k.iface in ifaces)
  {
    var dhcp := EveryPacket.(direction := Outward, transports := Some({Udp}));
    var dhcp4 := dhcp.(srcPort := Some(68), dstPort := Some(67));
    var dhcp6 := dhcp.(srcPort := Some(546), dstPort := Some(547));
    var discovery := EveryPacket.(inet6Only := true, transports := Some({Icmp6}), icmpTypes := Some({133, 134, 135, 136}));
    QuickSnoc(b, dhcp4);
    r := b + [dhcp4];
    QuickSnoc(r, dhcp6);
    r := r + [dhcp6];
    QuickSnoc(r, discovery);
    r := r + [discovery];
    ghost var link := r;
    for j := 0 to |ifaces|
      invariant AllQuick(r)
      invariant forall k :: Quick(r, k) == OrElse(Quick(link, k), k.iface in ifaces[..j])
    {
      assert ifaces[..j+1] == ifaces[..j] + [ifaces[j]];
      var rule := EveryPacket.(iface := Some(ifaces[j]));
      QuickSnoc(r, rule);
      r := r + [rule];
    }
    assert ifaces[..|ifaces|] == ifaces;
  }

  /**
   * Compiles rs. It fails exactly on an ill-formed string it has to read, and
   * otherwise the emitted list gives every packet the declared verdict.
   */
  method BuildRules(net: Net, rs: Ruleset) returns (r: Result<seq<Rule>, BuildError>)
    ensures r.Ok? <==> WellFormed(net, rs)
    ensures r.Ok? ==> forall k :: Passes(r.value, k) == Verdict(net, rs, k)
    ensures r.Ok? ==> (r.value == [] <==> !Enforcing(rs))
  {
    var dns := EnforcesDNS(rs);
    if !rs.killSwitch && !dns {
      return Ok([]);
    }
    var ifaces := Interfaces(rs);
    if ifaces.Err? {
      return Err(ifaces.error);
    }
    var head := LookupSection(net, rs.lookupServers);
    if head.Err? {
      return Err(head.error);
    }
    var b := head.value;
    assert Quick(b, Packet(true, "lo0", false, Tcp, V4(0), 0, 0, 0)).Some?;
    if dns {
      var protected := DNSSection(net, rs.dnsServers, ifaces.value, b);
      if protected.Err? {
        return Err(protected.error);
      }
      b := protected.value;
    }
    if !rs.killSwitch {
      forall k ensures Passes(b, k) == (Quick(b, k) != Some(false)) { PassedOtherwise(b, k); }
      hide Passes, Quick;
      return Ok(b);
    }
    var passed := EndpointSections(net, rs.tunnels, b);
    if passed.Err? {
      return Err(passed.error);
    }
    b := LinkSection(ifaces.value, passed.value);
    var blockOut := EveryPacket.(pass := false, quick := false, direction := Outward);
    var blockIn := blockOut.(direction := Inward);
    forall k ensures Passes(b + [blockOut, blockIn], k) == (Quick(b, k) == Some(true)) { BlockedOtherwise(b, k); }
    hide Passes, Quick;
    return Ok(b + [blockOut, blockIn]);
  }

  // ---- the strings and the verdict in figures ----

  /** Interface names are lower-case letters and then digits. */
  lemma InterfaceNames(s: string)
    ensures ValidInterface(s) <==> exists letters, digits ::
      && s == letters + digits && letters != "" && digits != ""
      && (forall c | c in letters :: 'a' <= c <= 'z') && (forall c | c in digits :: '0' <= c <= '9')
  {
    if ValidInterface(s) {
      var i :| 0 < i < |s| && AllLower(s[..i]) && AllDigits(s[i..]);
      assert s == s[..i] + s[i..];
    }
    if letters, digits :|
      && s == letters + digits && letters != "" && digits != ""
      && (forall c | c in letters :: 'a' <= c <= 'z') && (forall c | c in digits :: '0' <= c <= '9')
    {
      assert s[..|letters|] == letters && s[|letters|..] == digits;
    }
  }

  /** An endpoint is well formed without a host, or with an address and no port or one from 1 to 65535. */
  lemma WellFormedEndpoints(net: Net, ep: string)
    ensures ValidEndpoint(net, ep) <==>
      match net.splitHostPort(ep)
      case None => ep == "" || net.parseIP(ep).Some?
      case Some((host, port)) =>
        host == "" ||
        (net.parseIP(host).Some? && (port == "" || (net.atoi(port).Some? && 1 <= net.atoi(port).value <= 65535)))
  {}

  /** The server at the endpoint is what the packet is for: its address, its port if it has one, its transport. */
  ghost predicate Dials(net: Net, proto: string, ep: string, k: Packet) {
    exists host, port ::
      && (net.splitHostPort(ep) == Some((host, port)) || (net.splitHostPort(ep).None? && host == ep && port == ""))
      && host != "" && net.parseIP(host) == Some(k.dst)
      && (port != "" ==> net.atoi(port) == Some(k.dstPort))
      && (if |proto| >= 3 && proto[0] == 't' && proto[1] == 'c' && proto[2] == 'p' then k.transport == Tcp else k.transport == Udp)
  }

  /** An outbound query to a name server. */
  predicate Queries(k: Packet) { k.outbound && (k.transport == Tcp || k.transport == Udp) && k.dstPort == 53 }

  lemma DialsIsHit(net: Net, proto: string, ep: string, k: Packet)
    requires k.outbound
    ensures HitsEndpoint(net, proto, ep, k) <==> Dials(net, proto, ep, k)
  {
    var (host, port) := HostAndPort(net, ep);
    assert |proto| >= 3 && proto[0] == 't' && proto[1] == 'c' && proto[2] == 'p' <==> "tcp" <= proto;
    if HitsEndpoint(net, proto, ep, k) {
      assert net.splitHostPort(ep) == Some((host, port)) || (net.splitHostPort(ep).None? && host == ep && port == "");
    }
  }

  /**
   * Under the kill switch, what is no name query passes exactly on a tunnel's
   * interface, to a tunnel's server, from and to the DHCP ports, or as neighbour
   * discovery.
   */
  lemma KillSwitchPasses(net: Net, rs: Ruleset, k: Packet)
    requires rs.killSwitch && k.iface != "lo0" && !Queries(k)
    ensures Verdict(net, rs, k) <==>
      || (exists t | t in rs.tunnels :: t.iface != "" && t.iface == k.iface)
      || (k.outbound && exists t, ep | t in rs.tunnels && ep in t.endpoints :: Dials(net, t.proto, ep, k))
      || (k.outbound && k.transport == Udp && (k.srcPort, k.dstPort) in {(68, 67), (546, 547)})
      || (k.inet6 && k.transport == Icmp6 && 133 <= k.icmpType <= 136)
  {
    if k.outbound {
      forall t: Pass, ep ensures HitsEndpoint(net, t.proto, ep, k) <==> Dials(net, t.proto, ep, k) { DialsIsHit(net, t.proto, ep, k); }
    }
    hide Dials;
    assert ToEndpoint(net, rs, k) <==> k.outbound && exists t, ep | t in rs.tunnels && ep in t.endpoints :: HitsEndpoint(net, t.proto, ep, k);
  }

  /** With a name server known, or a tunnel still to come up, a protected query passes exactly to one that may be asked. */
  lemma ProtectedQueries(net: Net, rs: Ruleset, k: Packet)
    requires rs.dnsProtection && (rs.dnsServers != [] || exists t :: t in rs.tunnels && t.iface == "")
    requires k.iface != "lo0" && Queries(k)
    ensures Verdict(net, rs, k) <==>
      || (exists s | s in rs.lookupServers :: net.parseIP(s) == Some(k.dst))
      || ((exists s | s in rs.dnsServers :: net.parseIP(s) == Some(k.dst)) &&
          exists t | t in rs.tunnels :: t.iface != "" && t.iface == k.iface)
  {}

  /** Without the kill switch, and with no DNS protection or none to enforce yet, everything passes, and on loopback always. */
  lemma NothingSwitchedOn(net: Net, rs: Ruleset, k: Packet)
    requires (!rs.killSwitch && (rs.dnsProtection ==> rs.dnsServers == [] && forall t | t in rs.tunnels :: t.iface != "")) || k.iface == "lo0"
    ensures Verdict(net, rs, k)
  {}

  /** DNS protection alone stops nothing but name queries. */
  lemma QueriesAlone(net: Net, rs: Ruleset, k: Packet)
    requires !rs.killSwitch && !Queries(k)
    ensures Verdict(net, rs, k)
  {}
}
